/**
 Calls run to their answers from empty tables: that what is due is also reached, and inputs at which the
 service does less than its comments say.
 */
module Instances {
  import opened Tables
  import opened Text
  import opened Protocol
  import opened Invariant
  import opened Landing
  import opened CommitStep
  import opened Guarantees
  import opened Verdict
  import opened Termination
  import opened Audit
  import opened Witness
  import opened Setup
  import G = Gate

  /** A call has changed the tables by exactly what its verdict says. */
  ghost predicate Effected(cfg: Config, db: Tables, db': Tables, c: nat, op: Op)
    requires Retried(op)
  {
    match Due(cfg, db, op)
    case Decides(status) =>
      && c in db'.transfers
      && var row := db'.transfers[c];
      if status == Succeeded then row.from in db.wallets && row.to in db.wallets && db' == Settle(db, c, row)
      else db' == db.(transfers := db.transfers[c := row])
    case Funds(_) =>
      && op.Minting? && Id(cfg, op.wallet) in db.wallets
      && db' == Endow(db, Mint(c, op.idem, Id(cfg, op.wallet), op.amount))
    case _ => db' == db
  }

  lemma CommitTakesEffect(cfg: Config, db: Tables, c: nat, call: Call)
    requires Lawful(cfg) && Retried(call.op) && CallInv(cfg, db, c, call) && call.pc.Committing? && OnTrack(cfg, db, call)
    ensures Effected(cfg, db, Apply(db, c, call.tx.writes), c, call.op)
  {
    hide OutcomeInv, Provenance, Effect, Taken, TransferReads, TransferLocks, Due, StoredAsAsked;
    if call.op.Transferring? {
      SettledIsDue(cfg, db, c, call);
      var req, tx := call.op.req, call.tx;
      if Moving(cfg, db, c, req, tx) {
        ApplyMoved(cfg, db, c, req, tx);
      } else {
        ApplyRow(db, c, tx.writes.transfer.value);
      }
    } else if call.tx.writes == NO_WRITES {
      ApplyNothing(db, c);
    } else {
      ApplyMint(cfg, db, c, call);
    }
  }

  /** The program points of a transfer and of a mint; while foreign keys are checked, one is missing. */
  lemma AtSomePoint(cfg: Config, db: Tables, c: nat, call: Call)
    requires CallInv(cfg, db, c, call) && Retried(call.op)
    ensures call.op.Minting? ==>
      call.pc in {Start, Claiming, Sharing, Funding, ReadingBack, Committing} || call.pc.Done?
    ensures call.op.Transferring? ==> !call.pc.Funding? && !call.pc.ReadingBack?
    ensures call.pc.Sharing? ==> exists row :: row in ForeignRows(cfg, call.op) && row !in call.tx.locks
  {
    hide OutcomeInv, Provenance, Effect, Taken, TransferReads, TransferWrites, MintRepeated, MintApplied;
    if call.pc.Sharing? && call.op.Minting? {
      assert OfWallet(Id(cfg, call.op.wallet)) in ForeignRows(cfg, call.op);
    }
  }

  lemma NextOf(cfg: Config, c: nat, call: Call) returns (l: Label)
    requires !call.pc.Done? && !call.pc.Start? && !call.pc.Committing? && !call.pc.Replaying?
    requires (call.op.Minting? && call.pc in {Claiming, Sharing, Funding, ReadingBack})
          || (call.op.Transferring? && !call.pc.Funding? && !call.pc.ReadingBack?)
    requires call.pc.Sharing? ==> exists row :: row in ForeignRows(cfg, call.op) && row !in call.tx.locks
    ensures l.c == c && Next(cfg, call, l) && !l.Begin?
  {
    hide ForeignRows;
    match call.pc
    case Claiming => l := Insert(c);
    case Sharing =>
      var row :| row in ForeignRows(cfg, call.op) && row !in call.tx.locks;
      l := CheckForeign(c, row);
    case Deciding => l := Decide(c);
    case Debiting => l := Debit(c);
    case Crediting => l := Credit(c);
    case Booking => l := Book(c);
    case Completing => l := Complete(c);
    case Inspecting => l := Inspect(c);
    case Funding => l := Fund(c);
    case ReadingBack => l := ReadBack(c);
    case _ => l := LockWallet(c);
  }

  /** The next statement of a call on its way, up to its commit or its replay. */
  lemma PickNext(cfg: Config, s: State, c: nat) returns (l: Label)
    requires Lawful(cfg) && Reachable(cfg, s) && c in s.calls && Retried(s.calls[c].op)
    requires !s.calls[c].pc.Done? && !s.calls[c].pc.Start? && !s.calls[c].pc.Committing? && !s.calls[c].pc.Replaying?
    ensures l.c == c && Next(cfg, s.calls[c], l) && !l.Begin?
  {
    ReachableKeeps(cfg, s);
    hide CallInv, Reachable, Sound, Authored, Apart, Lawful, Next, ForeignRows;
    AtSomePoint(cfg, s.db, c, s.calls[c]);
    l := NextOf(cfg, c, s.calls[c]);
  }

  /** Only call `c` has moved. */
  predicate OnlyMoved(s: State, s': State, c: nat) {
    s'.calls.Keys == s.calls.Keys + {c} && forall d | d in s.calls && d != c :: s'.calls[d] == s.calls[d]
  }

  /** Call `c`, alone, has given the answer that was due and done what that answer says. */
  ghost predicate Concluded(cfg: Config, s: State, s': State, c: nat, op: Op)
    requires Retried(op)
  {
    && Reachable(cfg, s') && Leads(cfg, s, s') && OnlyMoved(s, s', c)
    && c in s'.calls && s'.calls[c].op == op && s'.calls[c].pc.Done?
    && Answers(cfg, s.db, op, s'.calls[c].pc.outcome)
    && Effected(cfg, s.db, s'.db, c, op)
  }

  lemma LeadsReachable(cfg: Config, s: State, s': State)
    requires Reachable(cfg, s) && Leads(cfg, s, s')
    ensures Reachable(cfg, s')
  {
    hide Step;
    var run :| Exec(cfg, s, run) == Some(s');
    RunFromReachable(cfg, s, run);
  }

  lemma OneStepLeads(cfg: Config, s: State, l: Label)
    requires Reachable(cfg, s) && Step(cfg, s, l).Some?
    ensures var s' := Step(cfg, s, l).value; Leads(cfg, s, s') && Reachable(cfg, s') && OnlyMoved(s, s', l.c)
  {
    LeadsHere(cfg, s);
    LeadsOn(cfg, s, s, l);
    hide Leads, Move, Apply;
    LeadsReachable(cfg, s, Step(cfg, s, l).value);
  }

  lemma CommitConcludes(cfg: Config, s: State, c: nat) returns (s': State)
    requires Lawful(cfg) && Reachable(cfg, s) && c in s.calls && Retried(s.calls[c].op)
    requires s.calls[c].pc.Committing? && OnTrack(cfg, s.db, s.calls[c])
    ensures Concluded(cfg, s, s', c, s.calls[c].op)
  {
    ReachableKeeps(cfg, s);
    assert CallInv(cfg, s.db, c, s.calls[c]);
    hide CallInv, Sound, Authored, Apart, Answers, Apply, Effected, Leads, Reachable, Lawful, OnlyMoved, Step;
    CommitTakesEffect(cfg, s.db, c, s.calls[c]);
    CommitLands(cfg, s, c);
    OneStepLeads(cfg, s, Commit(c, Acked));
    s' := Step(cfg, s, Commit(c, Acked)).value;
  }

  lemma CommitLands(cfg: Config, s: State, c: nat)
    requires c in s.calls && s.calls[c].pc.Committing? && s.calls[c].result.Some?
    ensures Step(cfg, s, Commit(c, Acked)).Some?
    ensures var s' := Step(cfg, s, Commit(c, Acked)).value;
      && s'.db == Apply(s.db, c, s.calls[c].tx.writes) && c in s'.calls
      && s'.calls[c].op == s.calls[c].op && s'.calls[c].pc == Done(s.calls[c].result.value)
  {
    hide Apply;
  }

  lemma ReplayConcludes(cfg: Config, s: State, c: nat) returns (s': State)
    requires Lawful(cfg) && Reachable(cfg, s) && c in s.calls && s.calls[c].op.Transferring?
    requires s.calls[c].pc == Replaying && OnTrack(cfg, s.db, s.calls[c])
    ensures Concluded(cfg, s, s', c, s.calls[c].op)
  {
    var t := LoserFindsTheWinner(cfg, s, c, s.calls[c].op.req);
    ReplayIsDue(cfg, s, c, s.calls[c].op.req, t);
    ReplayAnswers(cfg, s, c, t);
    OneStepLeads(cfg, s, Replay(c, Some(t)));
    OneStepAlone(cfg, s, Replay(c, Some(t)));
    s' := Step(cfg, s, Replay(c, Some(t))).value;
    hide Due, Answers, Leads, Reachable, Lawful, Step, OnlyMoved, StoredDoc, Fingerprint;
  }

  lemma StillConcluded(cfg: Config, s: State, mid: State, s': State, c: nat, op: Op)
    requires Retried(op) && c in s.calls && c in mid.calls && mid.db == s.db
    requires Leads(cfg, s, mid) && OnlyMoved(s, mid, c) && Concluded(cfg, mid, s', c, op)
    ensures Concluded(cfg, s, s', c, op)
  {
    hide Leads, Reachable, Answers, Effected;
    LeadsTogether(cfg, s, mid, s');
  }

  /** A call that has failed on its way has concluded. */
  lemma FailureConcludes(cfg: Config, s: State, mid: State, c: nat)
    requires c in s.calls && c in mid.calls && Retried(mid.calls[c].op) && mid.db == s.db && mid.calls[c].op == s.calls[c].op
    requires Reachable(cfg, mid) && Leads(cfg, s, mid) && OnlyMoved(s, mid, c)
    requires mid.calls[c].pc.Done? && mid.calls[c].pc.outcome.Failed? && OnTrack(cfg, s.db, mid.calls[c])
    ensures Concluded(cfg, s, mid, c, s.calls[c].op)
  {
    hide Leads, Reachable, OnlyMoved, Due;
  }

  /** Alone, a call in the middle of its attempt runs to the answer that is due. */
  lemma {:induction false} RunsToItsAnswer(cfg: Config, s: State, c: nat) returns (s': State)
    requires Lawful(cfg) && Reachable(cfg, s) && Alone(s, c) && c in s.calls && Retried(s.calls[c].op)
    requires !s.calls[c].pc.Done? && OnTrack(cfg, s.db, s.calls[c])
    ensures Concluded(cfg, s, s', c, s.calls[c].op)
    decreases Weight(cfg, s.calls[c])
  {
    if s.calls[c].pc.Committing? {
      s' := CommitConcludes(cfg, s, c);
    } else if s.calls[c].pc.Replaying? {
      NoMintReplays(cfg, s, c);
      s' := ReplayConcludes(cfg, s, c);
    } else {
      var l := PickNext(cfg, s, c);
      AloneGoesOn(cfg, s, l);
      var mid := Step(cfg, s, l).value;
      OneStepLeads(cfg, s, l);
      Lighter(cfg, s, l);
      hide Leads, Reachable, Lawful, Step, Answers, Alone, OnlyMoved, Next, Weight;
      if mid.calls[c].pc.Done? {
        OnlyFailures(cfg, s, l);
        FailureConcludes(cfg, s, mid, c);
        s' := mid;
      } else {
        s' := RunsToItsAnswer(cfg, mid, c);
        StillConcluded(cfg, s, mid, s', c, s.calls[c].op);
      }
    }
  }

  /** So does a call at the start of an attempt. */
  lemma StartsAndRuns(cfg: Config, s: State, c: nat) returns (s': State)
    requires Lawful(cfg) && Reachable(cfg, s) && Alone(s, c) && c in s.calls && Retried(s.calls[c].op) && s.calls[c].pc.Start?
    ensures Concluded(cfg, s, s', c, s.calls[c].op)
  {
    var l := Begin(c, 0);
    AloneGoesOn(cfg, s, l);
    OneStepLeads(cfg, s, l);
    var mid := Step(cfg, s, l).value;
    hide Leads, Reachable, Lawful, Step, Answers, Alone, OnlyMoved;
    if mid.calls[c].pc.Done? {
      OnlyFailures(cfg, s, l);
      FailureConcludes(cfg, s, mid, c);
      s' := mid;
    } else {
      s' := RunsToItsAnswer(cfg, mid, c);
      StillConcluded(cfg, s, mid, s', c, s.calls[c].op);
    }
  }

  /**
   A transient failure changes nothing but the attempt: from any reachable state, a call on its own that is aborted
   so, wherever it stands, still runs to the answer and the effect that were due, unless it was at its fifth attempt.
   */
  lemma RecoversFromTransient(cfg: Config, s: State, c: nat) returns (s1: State, s2: State)
    requires Lawful(cfg) && Reachable(cfg, s) && Alone(s, c) && c in s.calls && Retried(s.calls[c].op)
    requires !s.calls[c].pc.Done? && !s.calls[c].pc.Replaying? && s.calls[c].attempt < 4
    ensures Step(cfg, s, Abort(c, true)) == Some(s1) && s1.calls[c].attempt == s.calls[c].attempt + 1
    ensures s1.db == s.db && Concluded(cfg, s1, s2, c, s.calls[c].op)
  {
    TransientGoesRound(cfg, s, c, Abort(c, true));
    OneStepLeads(cfg, s, Abort(c, true));
    s1 := Step(cfg, s, Abort(c, true)).value;
    hide Leads, Reachable, Lawful, Step, Concluded, OnlyMoved;
    s2 := StartsAndRuns(cfg, s1, c);
  }

  lemma NoMintReplays(cfg: Config, s: State, c: nat)
    requires Lawful(cfg) && Reachable(cfg, s) && c in s.calls && Retried(s.calls[c].op) && s.calls[c].pc == Replaying
    ensures s.calls[c].op.Transferring?
  {
    ReachableKeeps(cfg, s);
    hide Reachable, Sound, Authored, Apart, OutcomeInv, Provenance, Effect, Taken;
    assert CallInv(cfg, s.db, c, s.calls[c]);
  }

  lemma Lighter(cfg: Config, s: State, l: Label)
    requires Lawful(cfg) && Reachable(cfg, s) && l.c in s.calls && !s.calls[l.c].pc.Done? && Step(cfg, s, l).Some? && !l.Arrive?
    ensures l.c in Step(cfg, s, l).value.calls
    ensures Weight(cfg, Step(cfg, s, l).value.calls[l.c]) < Weight(cfg, s.calls[l.c]) && Weight(cfg, s.calls[l.c]) >= 0
  {
    ReachableKeeps(cfg, s);
    hide Inv, Reachable, Lawful, Move, Stage;
    AttemptsAreBounded(cfg, s, l.c);
    MoveSpends(cfg, s, l.c, l, Step(cfg, s, l).value.calls[l.c]);
  }

  lemma OnlyFailures(cfg: Config, s: State, l: Label)
    requires l.c in s.calls && Next(cfg, s.calls[l.c], l) && Step(cfg, s, l).Some?
    requires l.c in Step(cfg, s, l).value.calls && Step(cfg, s, l).value.calls[l.c].pc.Done?
    ensures Step(cfg, s, l).value.calls[l.c].pc.outcome.Failed?
  {
    hide Free, Unclaimed, Taken, ForeignRows, Exists, Current, Acquire, Apply;
  }

  /**
   What is due is also reached: from any reachable state with nobody else at work, a transfer or a mint can arrive and
   run to exactly the answer and the effect that the tables it finds call for.
   */
  lemma RunsUndisturbed(cfg: Config, s: State, c: nat, op: Op) returns (s': State)
    requires Lawful(cfg) && Reachable(cfg, s) && c !in s.calls && Alone(s, c)
    requires Retried(op)
    ensures Concluded(cfg, s, s', c, op)
  {
    if op.Transferring? && op.req.from == op.req.to {
      s' := SameTextsConclude(cfg, s, c, op);
      return;
    }
    var started := With(s, c, Call(op, 0, Claiming, FreshTx(0), None));
    Arrives(cfg, s, c, op);
    hide Leads, Reachable, Lawful, Concluded;
    LeadsReachable(cfg, s, started);
    s' := RunsToItsAnswer(cfg, started, c);
    ConcludedFrom(cfg, s, started, s', c, op);
  }

  /** Two equal texts are refused before any transaction begins. */
  lemma SameTextsConclude(cfg: Config, s: State, c: nat, op: Op) returns (s': State)
    requires Reachable(cfg, s) && c !in s.calls && op.Transferring? && op.req.from == op.req.to
    ensures Concluded(cfg, s, s', c, op)
  {
    OneStepLeads(cfg, s, Arrive(c, op));
    var mid := Step(cfg, s, Arrive(c, op)).value;
    OneStepLeads(cfg, mid, Begin(c, 0));
    s' := Step(cfg, mid, Begin(c, 0)).value;
    hide Leads, Reachable, Step;
    LeadsTogether(cfg, s, mid, s');
  }

  lemma ConcludedFrom(cfg: Config, s: State, started: State, s': State, c: nat, op: Op)
    requires Retried(op) && started.db == s.db && Leads(cfg, s, started) && OnlyMoved(s, started, c)
    requires Concluded(cfg, started, s', c, op)
    ensures Concluded(cfg, s, s', c, op)
  {
    hide Leads, Reachable, Answers, Effected;
    LeadsTogether(cfg, s, started, s');
  }

  // ---------------------------------------------------------------------------
  // Spelling: an affordable transfer declined, and a replay that is not the first answer
  // ---------------------------------------------------------------------------

  /** Nobody is at work, and these numbers are free for calls to come. */
  predicate Calmed(s: State, least: nat) {
    forall c | c in s.calls :: s.calls[c].pc.Done? && c < least
  }

  lemma StaysCalmed(cfg: Config, s: State, s': State, c: nat, op: Op)
    requires Retried(op) && Calmed(s, c) && Concluded(cfg, s, s', c, op)
    ensures Calmed(s', c + 1)
  {
    hide Leads, Reachable, Answers, Effected;
  }

  /** Two wallets `a` and `b`, the first holding `money`, and nothing else ever done. */
  ghost predicate Stocked(s: State, a: nat, b: nat, user: nat, money: int) {
    && Calmed(s, a + b + 4)
    && a in s.db.wallets && b in s.db.wallets && user in s.db.users && a != b
    && Balance(s.db, a) == money && Balance(s.db, b) == 0
    && s.db.transfers == map[] && s.db.ledger == []
    && s.db.mints == [Mint(a + b + 3, "m", a, money)]
  }

  lemma QuietIsMintable(cfg: Config, s: State, a: nat, b: nat, user: nat, other: nat, op: Op, c: nat)
    requires Quiet(s, a, b, user, other) && c > a && c > b && c > user && c > other
    requires op.Minting? && cfg.parse(op.wallet) == Some(a) && 0 < op.amount <= INT64_MAX
    ensures Calmed(s, c) && Alone(s, c) && c !in s.calls && a in s.db.wallets && Due(cfg, s.db, op) == Funds(op.amount)
  {
  }

  lemma StockQuiet(cfg: Config, s0: State, a: nat, b: nat, user: nat, other: nat, op: Op) returns (s: State)
    requires Lawful(cfg) && Reachable(cfg, s0) && Quiet(s0, a, b, user, other) && a != b
    requires user == a + b + 1 && other == a + b + 2
    requires op.Minting? && cfg.parse(op.wallet) == Some(a) && op.idem == "m" && 0 < op.amount <= INT64_MAX
    ensures Reachable(cfg, s) && Stocked(s, a, b, user, op.amount)
  {
    assert Retried(op);
    hide *;
    var c := a + b + 3;
    QuietIsMintable(cfg, s0, a, b, user, other, op, c);
    s := RunsUndisturbed(cfg, s0, c, op);
    StaysCalmed(cfg, s0, s, c, op);
    MintConcludes(cfg, s0, s, c, op, a);
    QuietIsStocked(s0, s, a, b, user, other, op.amount);
  }

  lemma StockWallet(cfg: Config, a: nat, b: nat, money: int) returns (s: State)
    requires Lawful(cfg) && a != b && 0 < money <= INT64_MAX
    ensures Reachable(cfg, s) && Stocked(s, a, b, a + b + 1, money)
  {
    assert cfg.parse(cfg.canon(a)) == Some(a);
    hide Lawful, Leads, Reachable, Quiet, Stocked;
    var s0 := TwoWallets(cfg, a, b, a + b + 1, a + b + 2);
    LeadsFromInit(cfg, s0);
    s := StockQuiet(cfg, s0, a, b, a + b + 1, a + b + 2, Minting(cfg.canon(a), "m", money));
  }

  lemma MintConcludes(cfg: Config, s: State, s': State, c: nat, op: Op, w: nat)
    requires op.Minting? && Concluded(cfg, s, s', c, op) && Due(cfg, s.db, op).Funds? && cfg.parse(op.wallet) == Some(w)
    ensures Reachable(cfg, s') && w in s.db.wallets && s'.db == Endow(s.db, Mint(c, op.idem, w, op.amount))
  {
    hide Leads, Reachable, Answers, Due, OnlyMoved;
  }

  lemma QuietIsStocked(s: State, s': State, a: nat, b: nat, user: nat, other: nat, money: int)
    requires Quiet(s, a, b, user, other) && Calmed(s', a + b + 4) && a != b && user == a + b + 1
    requires a in s.db.wallets && s'.db == Endow(s.db, Mint(a + b + 3, "m", a, money))
    ensures Stocked(s', a, b, user, money)
  {
    assert s.db.mints == [];
  }

  /**
   A wallet that can pay, named by any other text than the server's: the transfer is declined, although the same
   request with the server's text is due to succeed, and its replay is not the document first given.
   */
  lemma SpellingDeclines(cfg: Config, a: nat, b: nat, alt: string)
    returns (s0: State, s1: State, s2: State, c: nat, d: nat, first: Doc, again: Doc)
    requires Lawful(cfg) && a != b && cfg.parse(alt) == Some(a) && alt != cfg.canon(a)
    ensures Reachable(cfg, s0) && Leads(cfg, s0, s1) && Reachable(cfg, s1) && Leads(cfg, s1, s2) && Reachable(cfg, s2)
    ensures var req := Pays(a + b + 1, alt, cfg.canon(b));
      && Asked(s2, c, req) && Asked(s2, d, req) && c != d
      && Balance(s0.db, a) == Balance(s2.db, a) >= req.amount
      && DueTransfer(cfg, s0.db, req.(from := cfg.canon(a))) == Decides(Succeeded)
    ensures Finished(s1, c, TransferOk(first, false)) && first.status == Declined
    ensures Finished(s2, c, TransferOk(first, false)) && Finished(s2, d, TransferOk(again, true)) && again != first
  {
    s0 := StockWallet(cfg, a, b, 1);
    var user := a + b + 1;
    var req := Pays(user, alt, cfg.canon(b));
    c, d := a + b + 4, a + b + 5;
    assert cfg.parse(cfg.canon(a)) == Some(a) && cfg.parse(cfg.canon(b)) == Some(b);
    assert !Taken(s0.db, TransferKey(KeyOf(req)));
    assert Due(cfg, s0.db, Transferring(req)) == Decides(Declined);
    assert DueTransfer(cfg, s0.db, req.(from := cfg.canon(a))) == Decides(Succeeded);
    assert Calmed(s0, c) && Alone(s0, c) && c !in s0.calls;
    hide Leads, Reachable, Due, DueTransfer, Lawful;
    s1 := RunsUndisturbed(cfg, s0, c, Transferring(req));
    StaysCalmed(cfg, s0, s1, c, Transferring(req));
    first := s1.calls[c].pc.outcome.doc;
    KeyIsStored(cfg, s1, c, req, first);
    assert Alone(s1, d) && d !in s1.calls;
    s2 := RunsUndisturbed(cfg, s1, d, Transferring(req));
    again := s2.calls[d].pc.outcome.doc;
    hide Due, Canonical, StoredDoc;
    ReplayIsTheFirstAnswer(cfg, s2, c, d, req, req, first, again);
    assert !Canonical(cfg, req.from) by { NotCanonical(cfg, alt, a); }
  }

  lemma NotCanonical(cfg: Config, alt: string, a: nat)
    requires cfg.parse(alt) == Some(a) && alt != cfg.canon(a)
    ensures !Canonical(cfg, alt)
  {
  }

  /** After a fresh answer the same request is due to be repeated. */
  lemma KeyIsStored(cfg: Config, s: State, c: nat, req: Request, doc: Doc)
    requires Lawful(cfg) && Reachable(cfg, s) && Asked(s, c, req) && Finished(s, c, TransferOk(doc, false))
    ensures Due(cfg, s.db, Transferring(req)) == Repeats
  {
    TransferAnswer(cfg, s, c, req, doc, false);
    hide Reachable, Fingerprint;
  }

  /** A server that reads ids without regard to case is such an environment: wallet f1, written F1. */
  lemma SampleDeclines() returns (s: State, c: nat, d: nat, first: Doc, again: Doc)
    ensures Lawful(SampleConfig()) && Reachable(SampleConfig(), s)
    ensures var req := Pays(4, "F" + Digits(1), "f" + Digits(2));
      Asked(s, c, req) && Asked(s, d, req) && Balance(s.db, 1) >= req.amount
    ensures Finished(s, c, TransferOk(first, false)) && first.status == Declined
    ensures Finished(s, d, TransferOk(again, true)) && again != first
  {
    SampleIsLawful();
    SampleParses(1);
    var alt := "F" + Digits(1);
    assert alt[0] == 'F' && SampleCanon(1)[0] == 'f';
    hide Reachable, Leads, SampleConfig;
    var s0, s1;
    s0, s1, s, c, d, first, again := SpellingDeclines(SampleConfig(), 1, 2, alt);
  }

  // ---------------------------------------------------------------------------
  // Two spellings of one wallet
  // ---------------------------------------------------------------------------

  /** A run whose only transfer arrives after its gate has looked at the tables of state `s0`. */
  lemma OneGatedTransfer(
    cfg: Config, first: seq<Label>, more: seq<Label>, s0: State, s: State, c: nat, user: nat, body: G.Body)
    requires Lawful(cfg) && Exec(cfg, INIT, first) == Some(s0) && Exec(cfg, INIT, first + more) == Some(s)
    requires NoTransfers(s0) && G.Admits(cfg, user, body, s0.db, s0.db)
    requires c !in s0.calls && OnlyMoved(s0, s, c) && s.calls[c].op == Transferring(G.RequestOf(user, body))
    ensures G.Gated(cfg, first + more)
  {
    var run, req := first + more, G.RequestOf(user, body);
    assert run[..|first|] == first;
    forall i | 0 <= i < |run| && run[i].Arrive? && run[i].op.Transferring?
      ensures G.Passed(cfg, run, i, run[i].op.req)
    {
      G.ArrivalsStay(cfg, run, i);
      if i < |first| {
        assert run[i] == first[i];
        G.ArrivalsStay(cfg, first, i);
        assert false;
      }
      hide Exec, Lawful;
      assert G.PassedAt(cfg, run, i, req, user, body, |first|, |first|);
    }
  }

  /**
   Two spellings of one wallet pass the gate, which compares texts, and the store's CHECK, which compares wallets,
   refuses them: the caller is told of an internal error.
   */
  lemma OneWalletPassesTheGate(cfg: Config, a: nat, b: nat, alt: string)
    returns (run: seq<Label>, s: State, c: nat)
    requires Lawful(cfg) && a != b && cfg.parse(alt) == Some(a) && alt != cfg.canon(a)
    requires cfg.canon(a) != "" && alt != ""
    ensures Exec(cfg, INIT, run) == Some(s) && G.Gated(cfg, run)
    ensures Asked(s, c, Pays(a + b + 1, cfg.canon(a), alt)) && Finished(s, c, Failed(CheckViolation))
  {
    assert cfg.parse(cfg.canon(a)) == Some(a);
    hide Lawful, Leads, Reachable, Quiet, Effected, Answers, Due;
    var user := a + b + 1;
    var s0 := TwoWallets(cfg, a, b, user, a + b + 2);
    LeadsFromInit(cfg, s0);
    s, c, run := PassAndFail(cfg, s0, a, b, Pays(user, cfg.canon(a), alt));
  }

  lemma PassAndFail(cfg: Config, s0: State, a: nat, b: nat, req: Request) returns (s: State, c: nat, run: seq<Label>)
    requires Lawful(cfg) && Reachable(cfg, s0) && Quiet(s0, a, b, a + b + 1, a + b + 2) && a != b
    requires req.requester == a + b + 1 && req.idem == "k" && req.amount == 1
    requires req.from != req.to && req.from != "" && req.to != "" && cfg.parse(req.from) == Some(a) == cfg.parse(req.to)
    ensures Exec(cfg, INIT, run) == Some(s) && G.Gated(cfg, run)
    ensures Asked(s, c, req) && Finished(s, c, Failed(CheckViolation))
  {
    var first :| Exec(cfg, INIT, first) == Some(s0);
    var user, body := req.requester, G.Body(req.from, req.to, Some(1), "k");
    var op := Transferring(req);
    c := a + b + 3;
    assert G.RequestOf(user, body) == req;
    GateIsOpen(cfg, s0, a, b, user, a + b + 2, body);
    assert Alone(s0, c) && c !in s0.calls && NoTransfers(s0);
    assert Due(cfg, s0.db, op) == Fails(CheckViolation);
    hide Quiet, Due, Reachable, Lawful, AllOver, Alone, G.Admits, Effected, Exec;
    s := RunsUndisturbed(cfg, s0, c, op);
    var more :| Exec(cfg, s0, more) == Some(s);
    ExecAppends(cfg, INIT, first, more);
    run := first + more;
    hide Leads;
    OneGatedTransfer(cfg, first, more, s0, s, c, user, body);
  }

  lemma GateIsOpen(cfg: Config, s: State, a: nat, b: nat, user: nat, other: nat, body: G.Body)
    requires Quiet(s, a, b, user, other) && a != b && cfg.parse(body.from) == Some(a) == cfg.parse(body.to)
    requires body.from != body.to && body.from != "" && body.to != "" && body.amount == Some(1) && body.idem == "k"
    ensures G.Admits(cfg, user, body, s.db, s.db)
  {
    assert !G.IsSpace(body.idem[0]);
    assert G.ByteLength(body.idem) == 1;
  }

  /** So do f1 and F1 before a server that reads ids without regard to case. */
  lemma SampleOneWalletPassesTheGate() returns (run: seq<Label>, s: State, c: nat)
    ensures Lawful(SampleConfig()) && Exec(SampleConfig(), INIT, run) == Some(s) && G.Gated(SampleConfig(), run)
    ensures Asked(s, c, Pays(4, "f" + Digits(1), "F" + Digits(1))) && Finished(s, c, Failed(CheckViolation))
  {
    SampleIsLawful();
    SampleParses(1);
    var alt := "F" + Digits(1);
    assert alt[0] == 'F' && SampleCanon(1)[0] == 'f';
    hide SampleConfig, G.Gated, Exec;
    run, s, c := OneWalletPassesTheGate(SampleConfig(), 1, 2, alt);
  }

  // ---------------------------------------------------------------------------
  // The audit that cannot answer
  // ---------------------------------------------------------------------------

  /** Two wallets, each holding the largest balance there is: the audit fails to read its own sums. */
  lemma AuditCanFail(cfg: Config, a: nat, b: nat) returns (s: State)
    requires Lawful(cfg) && a != b
    ensures Reachable(cfg, s) && Balance(s.db, a) == Balance(s.db, b) == INT64_MAX
    ensures Minted(s.db.mints) > INT64_MAX && CheckInvariants(s.db) == None
  {
    var s0 := StockWallet(cfg, a, b, INT64_MAX);
    var c := a + b + 4;
    var op := Minting(cfg.canon(b), "n", INT64_MAX);
    assert cfg.parse(cfg.canon(b)) == Some(b);
    assert !Taken(s0.db, MintKey("n"));
    assert Due(cfg, s0.db, op) == Funds(INT64_MAX);
    assert Calmed(s0, c) && Alone(s0, c) && c !in s0.calls;
    hide Leads, Reachable, Lawful, Answers, Due, CheckInvariants;
    s := RunsUndisturbed(cfg, s0, c, op);
    var m1, m2 := Mint(a + b + 3, "m", a, INT64_MAX), Mint(c, "n", b, INT64_MAX);
    assert s.db.mints == [m1] + [m2];
    assert ([m1] + [m2])[..1] == [m1] && [m1][..0] == [];
    assert Minted([m1]) == INT64_MAX;
    AuditAlwaysHolds(cfg, s);
  }
}
