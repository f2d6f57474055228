/** What a transfer or a mint that nobody disturbs must answer, as a function of the tables it finds. */
module Verdict {
  import opened Tables
  import opened Text
  import opened Protocol
  import opened Invariant
  import opened Preservation
  import opened CommitStep
  import opened Guarantees

  datatype Verdict =
    | Fails(error: Error)
    | Decides(status: Status)                // a fresh transfer, with this status
    | Repeats                                // the key's stored transfer
    | Conflicts                              // the key's stored transfer is another request
    | Funds(balance: int)                    // a fresh mint, and the balance it leaves
    | Funded(balance: int)                   // a repeated mint, and the balance it finds

  predicate RowsExist(db: Tables, from: nat, to: nat, user: nat) {
    user in db.users && from in db.wallets && to in db.wallets
  }

  /** The key's row was written for this very request. */
  predicate StoredAsAsked(db: Tables, req: Request) {
    exists t | t in db.transfers ::
      && db.transfers[t].key == KeyOf(req)
      && db.transfers[t].fingerprint == Fingerprint(req.from, req.to, req.amount)
  }

  function DueTransfer(cfg: Config, db: Tables, req: Request): Verdict {
    if req.from == req.to then Fails(SameWallet)
    else if cfg.parse(req.from).None? || cfg.parse(req.to).None? then Fails(WalletNotFound)
    else if req.amount <= 0 || From(cfg, req) == To(cfg, req) then Fails(CheckViolation)
    else if Taken(db, TransferKey(KeyOf(req))) then if StoredAsAsked(db, req) then Repeats else Conflicts
    else if !RowsExist(db, From(cfg, req), To(cfg, req), req.requester) then Fails(WalletNotFound)
    else if !Payable(cfg, db, req) then Decides(Declined)
    else if Balance(db, To(cfg, req)) + req.amount > INT64_MAX then Fails(Overflow)
    else Decides(Succeeded)
  }

  function DueMint(cfg: Config, db: Tables, wallet: string, idem: string, amount: int): Verdict {
    var w := Id(cfg, wallet);
    if cfg.parse(wallet).None? then Fails(WalletNotFound)
    else if amount <= 0 then Fails(CheckViolation)
    else if w !in db.wallets then Fails(WalletNotFound)
    else if Taken(db, MintKey(idem)) then Funded(Balance(db, w))
    else if Balance(db, w) + amount > INT64_MAX then Fails(Overflow)
    else Funds(Balance(db, w) + amount)
  }

  /** A request that names existing wallets, under a free key, for an amount its destination can hold. */
  predicate Acceptable(cfg: Config, db: Tables, req: Request) {
    && ValidRequest(cfg, req) && !Taken(db, TransferKey(KeyOf(req)))
    && RowsExist(db, From(cfg, req), To(cfg, req), req.requester)
    && Balance(db, To(cfg, req)) + req.amount <= INT64_MAX
  }

  predicate Mintable(cfg: Config, db: Tables, wallet: string, amount: int) {
    && cfg.parse(wallet).Some? && amount > 0 && Id(cfg, wallet) in db.wallets
    && Balance(db, Id(cfg, wallet)) + amount <= INT64_MAX
  }

  /** The operations that run under `inTx`. */
  predicate Retried(op: Op) {
    op.Transferring? || op.Minting?
  }

  function Due(cfg: Config, db: Tables, op: Op): Verdict
    requires Retried(op)
  {
    if op.Transferring? then DueTransfer(cfg, db, op.req)
    else DueMint(cfg, db, op.wallet, op.idem, op.amount)
  }

  /** The outcome is the one that is due. */
  predicate Answers(cfg: Config, db: Tables, op: Op, outcome: Outcome)
    requires Retried(op)
  {
    match Due(cfg, db, op)
    case Fails(e) => outcome == Failed(e)
    case Decides(status) => outcome.TransferOk? && !outcome.replay && outcome.doc.status == status
    case Repeats =>
      && op.Transferring? && outcome.TransferOk? && outcome.replay
      && outcome.doc.id in db.transfers && db.transfers[outcome.doc.id].key == KeyOf(op.req)
      && outcome.doc == StoredDoc(cfg, outcome.doc.id, db.transfers[outcome.doc.id])
    case Conflicts => outcome == Failed(IdempotencyConflict)
    case Funds(balance) => op.Minting? && ReportsMint(cfg, db, op, outcome, true, balance)
    case Funded(balance) => op.Minting? && ReportsMint(cfg, db, op, outcome, false, balance)
  }

  predicate ReportsMint(cfg: Config, db: Tables, op: Op, outcome: Outcome, applied: bool, balance: int)
    requires op.Minting?
  {
    var w := Id(cfg, op.wallet);
    w in db.wallets && outcome == MintOk(Show(w, db.wallets[w].(balance := balance)), applied)
  }

  // ---------------------------------------------------------------------------
  // A call that nobody disturbs
  // ---------------------------------------------------------------------------

  predicate Alone(s: State, c: nat) {
    forall d | d in s.calls && d != c :: s.calls[d].pc.Done?
  }

  /** The attempt is on its way to the answer that is due, or has given it. */
  ghost predicate OnTrack(cfg: Config, db: Tables, call: Call)
    requires Retried(call.op)
  {
    match call.pc
    case Start => false
    case Replaying => Due(cfg, db, call.op).Repeats? || Due(cfg, db, call.op).Conflicts?
    case Committing => call.result.Some? && Answers(cfg, db, call.op, call.result.value)
    case Done(outcome) => Answers(cfg, db, call.op, outcome)
    case _ => true
  }

  /** The label is that of the call's next statement. */
  predicate Next(cfg: Config, call: Call, l: Label) {
    match l
    case Begin(_, _) => call.pc == Start
    case Insert(_) => call.pc == Claiming
    case CheckForeign(_, row) => call.pc == Sharing && row in ForeignRows(cfg, call.op) && row !in call.tx.locks
    case LockWallet(_) => call.op.Transferring? && (call.pc == LockFirst || call.pc == LockSecond)
    case Decide(_) => call.op.Transferring? && call.pc == Deciding
    case Debit(_) => call.op.Transferring? && call.pc == Debiting
    case Credit(_) => call.op.Transferring? && call.pc == Crediting
    case Book(_) => call.op.Transferring? && call.pc == Booking
    case Complete(_) => call.op.Transferring? && call.pc == Completing
    case Inspect(_) => call.op.Transferring? && call.pc == Inspecting
    case Fund(_) => call.op.Minting? && call.pc == Funding
    case ReadBack(_) => call.op.Minting? && call.pc == ReadingBack
    case _ => false
  }

  lemma OneStepAlone(cfg: Config, s: State, l: Label)
    requires Step(cfg, s, l).Some? && !l.Commit?
    ensures Step(cfg, s, l).value.db == s.db
    ensures Alone(s, l.c) ==> Alone(Step(cfg, s, l).value, l.c)
  {
    hide Move, Apply;
  }

  lemma NobodyHolds(cfg: Config, s: State, c: nat)
    requires Lawful(cfg) && Reachable(cfg, s) && Alone(s, c)
    ensures forall row, mode :: Free(s, c, row, mode)
    ensures forall k :: Unclaimed(s, c, k)
  {
    forall d | d in s.calls && d != c
      ensures s.calls[d].tx == NO_TX
    {
      DoneHolds(cfg, s, d);
    }
  }

  lemma HasItsRow(cfg: Config, s: State, c: nat)
    requires Lawful(cfg) && Reachable(cfg, s) && c in s.calls && s.calls[c].op.Transferring?
    requires s.calls[c].pc == Deciding || s.calls[c].pc == Completing || s.calls[c].pc == Inspecting
    ensures s.calls[c].tx.writes.transfer.Some?
  {
    ReachableKeeps(cfg, s);
    hide Reachable, Sound, Authored, Apart, CallInv;
    RowIsPending(cfg, s.db, c, s.calls[c]);
  }

  lemma RowIsPending(cfg: Config, db: Tables, c: nat, call: Call)
    requires CallInv(cfg, db, c, call) && call.op.Transferring?
    requires call.pc == Deciding || call.pc == Completing || call.pc == Inspecting
    ensures call.tx.writes.transfer.Some?
  {
    hide OutcomeInv, Provenance, Effect, Taken, TransferLocks, TransferReads, Payable, Moves, MintInv, UserInv, WalletInv;
  }

  /** On its own a call never waits. */
  lemma AloneIsEnabled(cfg: Config, s: State, l: Label)
    requires Lawful(cfg) && Reachable(cfg, s) && l.c in s.calls && Retried(s.calls[l.c].op) && Next(cfg, s.calls[l.c], l)
    requires Alone(s, l.c)
    ensures Step(cfg, s, l).Some?
  {
    NobodyHolds(cfg, s, l.c);
    if l.Decide? || l.Complete? || l.Inspect? {
      HasItsRow(cfg, s, l.c);
    }
    hide Reachable, Lawful, Alone, Taken, Exists;
  }

  // ---------------------------------------------------------------------------
  // Each statement keeps to what is due
  // ---------------------------------------------------------------------------

  lemma BeginIsDue(cfg: Config, db: Tables, before: Call, now: Time, call: Call)
    requires Retried(before.op) && MoveBegin(before, now) == Some(call)
    ensures call.op == before.op && call.attempt == before.attempt && OnTrack(cfg, db, call)
  {
    hide Taken, StoredAsAsked, Payable;
  }

  lemma InsertIsDue(cfg: Config, s: State, c: nat, before: Call, call: Call)
    requires before.pc == Claiming && Retried(before.op)
    requires before.op.Transferring? ==> before.op.req.from != before.op.req.to
    requires if before.op.Transferring? then MoveInsertTransfer(cfg, s, c, before) == Some(call)
             else MoveInsertMint(cfg, s, c, before) == Some(call)
    ensures call.op == before.op && call.attempt == before.attempt && OnTrack(cfg, s.db, call)
  {
    hide Taken, StoredAsAsked, Payable;
  }

  lemma CheckForeignIsDue(cfg: Config, s: State, c: nat, before: Call, row: Row, call: Call)
    requires Retried(before.op) && CallInv(cfg, s.db, c, before)
    requires MoveCheckForeign(cfg, s, c, before, row) == Some(call)
    ensures call.op == before.op && call.attempt == before.attempt && OnTrack(cfg, s.db, call)
  {
    hide Taken, StoredAsAsked, Payable, OutcomeInv, Provenance, Effect, TransferLocks, TransferReads, TransferWrites;
  }

  lemma LockIsDue(cfg: Config, s: State, c: nat, before: Call, call: Call)
    requires before.op.Transferring? && CallInv(cfg, s.db, c, before)
    requires MoveLockWallet(cfg, s, c, before) == Some(call)
    ensures call.op == before.op && call.attempt == before.attempt && OnTrack(cfg, s.db, call)
  {
    hide Taken, StoredAsAsked, Payable, OutcomeInv, Provenance, Effect, TransferReads, TransferWrites;
    assert OfWallet(if before.pc == LockFirst then Lo(cfg, before.op.req) else Hi(cfg, before.op.req)) in before.tx.locks;
  }

  /** A transfer that holds all its rows is decided on the committed tables. */
  lemma SettledIsDue(cfg: Config, db: Tables, c: nat, call: Call)
    requires call.op.Transferring? && CallInv(cfg, db, c, call)
    requires call.pc.Crediting? || call.pc.Committing?
    ensures var req := call.op.req;
      && ValidRequest(cfg, req) && !Taken(db, TransferKey(KeyOf(req)))
      && RowsExist(db, From(cfg, req), To(cfg, req), req.requester)
  {
    hide Taken, OutcomeInv, Provenance, Effect, TransferReads, TransferWrites;
    var req := call.op.req;
    var rows := ForeignRows(cfg, call.op);
    assert OfUser(req.requester) in rows && OfWallet(From(cfg, req)) in rows && OfWallet(To(cfg, req)) in rows;
    assert Exists(db, OfUser(req.requester)) && Exists(db, OfWallet(From(cfg, req))) && Exists(db, OfWallet(To(cfg, req)));
  }

  lemma DebitIsDue(cfg: Config, s: State, c: nat, before: Call, call: Call)
    requires before.op.Transferring? && CallInv(cfg, s.db, c, before)
    requires 0 <= Balance(s.db, From(cfg, before.op.req)) <= INT64_MAX
    requires MoveDebit(cfg, s, c, before) == Some(call)
    ensures call.op == before.op && call.attempt == before.attempt && OnTrack(cfg, s.db, call)
  {
    hide Taken, OutcomeInv, Provenance, Effect, TransferReads, Free, Acquire;
  }

  lemma CreditIsDue(cfg: Config, s: State, c: nat, before: Call, call: Call)
    requires before.op.Transferring? && CallInv(cfg, s.db, c, before)
    requires 0 <= Balance(s.db, To(cfg, before.op.req)) <= INT64_MAX
    requires MoveCredit(cfg, s, c, before) == Some(call)
    ensures call.op == before.op && call.attempt == before.attempt && OnTrack(cfg, s.db, call)
  {
    SettledIsDue(cfg, s.db, c, before);
    hide Taken, OutcomeInv, Provenance, Effect, TransferReads, TransferLocks, Free, Acquire, StoredAsAsked;
  }

  /** Ready to commit, it holds the answer that is due. */
  lemma CommittingIsDue(cfg: Config, db: Tables, c: nat, call: Call)
    requires call.op.Transferring? && CallInv(cfg, db, c, call) && call.pc.Committing?
    ensures OnTrack(cfg, db, call)
  {
    SettledIsDue(cfg, db, c, call);
    hide Taken, OutcomeInv, Provenance, Effect, TransferReads, TransferLocks, StoredAsAsked;
  }

  lemma DecideIsDue(cfg: Config, db: Tables, c: nat, before: Call, call: Call)
    requires before.op.Transferring? && MoveDecide(before, c) == Some(call) && CallInv(cfg, db, c, call)
    ensures call.op == before.op && call.attempt == before.attempt && OnTrack(cfg, db, call)
  {
    hide CallInv, Due;
    if call.pc.Committing? {
      CommittingIsDue(cfg, db, c, call);
    }
  }

  lemma InspectIsDue(cfg: Config, db: Tables, c: nat, before: Call, call: Call)
    requires before.op.Transferring? && MoveInspect(before, c) == Some(call)
    requires CallInv(cfg, db, c, before) && CallInv(cfg, db, c, call)
    ensures call.op == before.op && call.attempt == before.attempt && OnTrack(cfg, db, call)
  {
    assert before.tx.debited == 1 && before.tx.credited == 1 by {
      hide Taken, OutcomeInv, Provenance, Effect, TransferReads, TransferLocks;
    }
    hide CallInv, Due, Answers;
    CommittingIsDue(cfg, db, c, call);
  }

  lemma FundIsDue(cfg: Config, s: State, c: nat, before: Call, call: Call)
    requires before.op.Minting? && CallInv(cfg, s.db, c, before)
    requires 0 <= Balance(s.db, Id(cfg, before.op.wallet)) <= INT64_MAX
    requires MoveFund(cfg, s, c, before) == Some(call)
    ensures call.op == before.op && call.attempt == before.attempt && OnTrack(cfg, s.db, call)
  {
    hide Taken, OutcomeInv, Provenance, Effect, Free, Acquire;
  }

  lemma ReadBackIsDue(cfg: Config, s: State, c: nat, before: Call, call: Call)
    requires before.op.Minting? && CallInv(cfg, s.db, c, before)
    requires MoveReadBack(cfg, s, before) == Some(call)
    ensures call.op == before.op && call.attempt == before.attempt && OnTrack(cfg, s.db, call)
  {
    hide Taken, OutcomeInv, Provenance, Effect;
  }

  lemma MoveIsDue(cfg: Config, s: State, l: Label, before: Call, call: Call)
    requires Lawful(cfg) && l.c in s.calls && before == s.calls[l.c] && Retried(before.op) && Next(cfg, before, l)
    requires CallInv(cfg, s.db, l.c, before) && forall w: nat :: 0 <= Balance(s.db, w) <= INT64_MAX
    requires Move(cfg, s, l.c, l) == Some(call)
    ensures call.op == before.op && call.attempt == before.attempt && OnTrack(cfg, s.db, call)
  {
    assert before.pc.Claiming? && before.op.Transferring? ==> before.op.req.from != before.op.req.to by {
      hide OutcomeInv, Provenance, Effect, Taken;
    }
    hide CallInv, Lawful, Answers, Due, MoveBegin, MoveInsertTransfer, MoveInsertMint, MoveCheckForeign, MoveLockWallet, MoveDecide,
      MoveDebit, MoveCredit, MoveInspect, MoveFund, MoveReadBack;
    var c := l.c;
    match l
    case Begin(_, now) => BeginIsDue(cfg, s.db, before, now, call);
    case Insert(_) => InsertIsDue(cfg, s, c, before, call);
    case CheckForeign(_, row) => CheckForeignIsDue(cfg, s, c, before, row, call);
    case LockWallet(_) => LockIsDue(cfg, s, c, before, call);
    case Decide(_) =>
      DecideKeeps(cfg, s, c, before, call);
      DecideIsDue(cfg, s.db, c, before, call);
    case Debit(_) => DebitIsDue(cfg, s, c, before, call);
    case Credit(_) => CreditIsDue(cfg, s, c, before, call);
    case Book(_) =>
    case Complete(_) =>
    case Inspect(_) =>
      InspectKeeps(cfg, s.db, c, before, call);
      InspectIsDue(cfg, s.db, c, before, call);
    case Fund(_) => FundIsDue(cfg, s, c, before, call);
    case ReadBack(_) => ReadBackIsDue(cfg, s, c, before, call);
  }

  /** Whatever statement a call runs next, in whatever company, it stays on the way to the answer that is due. */
  lemma StepIsDue(cfg: Config, s: State, l: Label)
    requires Lawful(cfg) && Reachable(cfg, s) && l.c in s.calls && Retried(s.calls[l.c].op) && Next(cfg, s.calls[l.c], l)
    requires Step(cfg, s, l).Some?
    ensures l.c in Step(cfg, s, l).value.calls
    ensures var before, call := s.calls[l.c], Step(cfg, s, l).value.calls[l.c];
      call.op == before.op && call.attempt == before.attempt && OnTrack(cfg, s.db, call)
  {
    ReachableKeeps(cfg, s);
    assert CallInv(cfg, s.db, l.c, s.calls[l.c]);
    hide CallInv, Authored, Apart, Reachable, Lawful, Answers, Due, Move, OnTrack, Next;
    forall w: nat
      ensures 0 <= Balance(s.db, w) <= INT64_MAX
    {
      hide Sound;
      BalanceInRange(s.db, w);
    }
    hide Sound;
    MoveIsDue(cfg, s, l, s.calls[l.c], Step(cfg, s, l).value.calls[l.c]);
  }

  /** On its own a call never waits, and changes nothing until it commits what is due. */
  lemma AloneGoesOn(cfg: Config, s: State, l: Label)
    requires Lawful(cfg) && Reachable(cfg, s) && l.c in s.calls && Retried(s.calls[l.c].op) && Next(cfg, s.calls[l.c], l)
    ensures Alone(s, l.c) ==>
      && Step(cfg, s, l).Some?
      && var s' := Step(cfg, s, l).value;
      && Alone(s', l.c) && s'.db == s.db && l.c in s'.calls
      && s'.calls[l.c].op == s.calls[l.c].op && s'.calls[l.c].attempt == s.calls[l.c].attempt
      && OnTrack(cfg, s.db, s'.calls[l.c])
  {
    if Alone(s, l.c) {
      AloneIsEnabled(cfg, s, l);
      StepIsDue(cfg, s, l);
      assert !l.Commit?;
      hide Reachable, Lawful, Alone, OnTrack, Step, Next;
      OneStepAlone(cfg, s, l);
    }
  }

  lemma SameTextsAreRefused(cfg: Config, db: Tables, req: Request)
    ensures req.from == req.to ==> Answers(cfg, db, Transferring(req), Failed(SameWallet))
  {
    hide Taken, StoredAsAsked, Payable;
  }

  /** An acceptable request is due a fresh decision on the balances; a used key, a replay or a refusal. */
  lemma AcceptableIsDecided(cfg: Config, db: Tables, req: Request, answer: Outcome)
    requires Answers(cfg, db, Transferring(req), answer)
    ensures ValidRequest(cfg, req) ==> req.from != req.to
    ensures Acceptable(cfg, db, req) ==>
      answer.TransferOk? && !answer.replay && answer.doc.status == if Payable(cfg, db, req) then Succeeded else Declined
    ensures ValidRequest(cfg, req) && Taken(db, TransferKey(KeyOf(req))) ==>
      if StoredAsAsked(db, req) then answer.TransferOk? && answer.replay else answer == Failed(IdempotencyConflict)
  {
    hide Taken, StoredAsAsked;
  }

  /**
   A transient failure, of any statement or of the commit, changes no table and sends a call round again, up to the
   fifth attempt; any other failure ends it.
   */
  lemma TransientGoesRound(cfg: Config, s: State, c: nat, l: Label)
    requires c in s.calls && Retried(s.calls[c].op) && !s.calls[c].pc.Done? && !s.calls[c].pc.Replaying?
    requires l == Abort(c, true) || l == Abort(c, false) || l == Commit(c, RefusedTransient)
    requires l.Commit? ==> s.calls[c].pc.Committing? && s.calls[c].result.Some?
    ensures Step(cfg, s, l).Some? && Step(cfg, s, l).value.db == s.db
    ensures Step(cfg, s, l).value.calls.Keys == s.calls.Keys
    ensures forall d | d in s.calls && d != c :: Step(cfg, s, l).value.calls[d] == s.calls[d]
    ensures var before, call := s.calls[c], Step(cfg, s, l).value.calls[c];
      if l == Abort(c, false) then call.op == before.op && call.pc == Done(Failed(Other)) && call.tx == NO_TX
      else if before.attempt < 4 then call == Call(before.op, before.attempt + 1, Start, NO_TX, None)
      else call.op == before.op && call.pc == Done(Failed(RetriesExhausted)) && call.tx == NO_TX
  {
    hide Apply;
  }

  /** The comparison with the stored row gives the answer that is due. */
  lemma ReplayIsDue(cfg: Config, s: State, c: nat, req: Request, t: nat)
    requires Lawful(cfg) && Reachable(cfg, s) && Asked(s, c, req) && s.calls[c].pc == Replaying
    requires t in s.db.transfers && s.db.transfers[t].key == KeyOf(req)
    ensures var row := s.db.transfers[t];
      Answers(cfg, s.db, Transferring(req),
        if row.fingerprint != Fingerprint(req.from, req.to, req.amount) then Failed(IdempotencyConflict)
        else TransferOk(StoredDoc(cfg, t, row), true))
  {
    ReplayingHolds(cfg, s, c, req);
    forall i | i in s.db.transfers && s.db.transfers[i].key == KeyOf(req)
      ensures i == t
    {
      OneTransferPerKey(cfg, s, i, t);
    }
    hide Reachable, Lawful, Taken, Fingerprint;
  }

  lemma ReplayAnswers(cfg: Config, s: State, c: nat, t: nat)
    requires c in s.calls && s.calls[c].op.Transferring? && s.calls[c].pc == Replaying
    requires t in s.db.transfers && s.db.transfers[t].key == KeyOf(s.calls[c].op.req)
    ensures Step(cfg, s, Replay(c, Some(t))).Some?
    ensures var req, row := s.calls[c].op.req, s.db.transfers[t];
      var after := Step(cfg, s, Replay(c, Some(t))).value;
      && c in after.calls && after.calls[c].op == s.calls[c].op
      && Finished(after, c, if row.fingerprint != Fingerprint(req.from, req.to, req.amount) then Failed(IdempotencyConflict)
                            else TransferOk(StoredDoc(cfg, t, row), true))
  {
    hide Fingerprint, StoredDoc;
  }
}
