/** Every interleaved run of the store is a sequential run of the bank, call by call and answer by answer. */
module Refinement {
  import opened Tables
  import opened Text
  import opened Protocol
  import opened Invariant
  import opened Landing
  import opened CommitStep
  import opened History
  import opened Bank

  // ---------------------------------------------------------------------------
  // Which steps are orders, and which order each is
  // ---------------------------------------------------------------------------

  /** The steps at which a call is served: its commit, or the read of a replay. */
  predicate Serves(l: Label) {
    Lands(l) || (l.Replay? && l.found.Some?)
  }

  function OrderOf(cfg: Config, call: Call, c: nat): Order {
    match call.op
    case Transferring(req) =>
      Pay(KeyOf(req), c, From(cfg, req), To(cfg, req), req.amount, Canonical(cfg, req.from),
          Fingerprint(req.from, req.to, req.amount), call.tx.now)
    case Minting(wallet, idem, amount) => Give(idem, Id(cfg, wallet), amount)
    case ResolvingUser(token) => Register(token, c)
    case OpeningWallet(user) => Open(user, c)
  }

  /** The outcome a caller sees says what the bank answered. */
  predicate Agrees(cfg: Config, req: Op, outcome: Outcome, a: Answer) {
    match outcome
    case TransferOk(doc, replay) =>
      && a.Receipted?
      && doc.id == a.receipt.id && doc.amount == a.receipt.amount && doc.createdAt == a.receipt.at
      && (doc.status == Succeeded <==> a.receipt.paid) && (doc.status == Declined <==> !a.receipt.paid)
      && Id(cfg, doc.from) == a.receipt.from && Id(cfg, doc.to) == a.receipt.to
      && replay == a.again
    case MintOk(doc, applied) =>
      a.Given? && (applied <==> a.funded.Some?) && (applied ==> a.funded == Some(doc.balance))
      && (applied ==> doc.id == a.wallet)
    case UserOk(u) => a == Registered(u)
    case WalletOk(doc, created) => a == Opened(doc.id, doc.balance, created)
    case Failed(e) => if e.IdempotencyConflict? then a == Rejected else e.CommitUnknown?
  }

  // ---------------------------------------------------------------------------
  // One step
  // ---------------------------------------------------------------------------

  /** Serving the order turns the bank the tables showed into the bank they show now, and the answer is the outcome. */
  ghost predicate Served(cfg: Config, db: Tables, db': Tables, op: Op, o: Order, outcome: Outcome) {
    && Indexed(db)
    && Shows(db', Serve(Abs(db), o).0)
    && Agrees(cfg, op, outcome, Serve(Abs(db), o).1)
  }

  lemma TransferServed(cfg: Config, db: Tables, c: nat, call: Call)
    requires Lawful(cfg) && Indexed(db) && CallInv(cfg, db, c, call) && call.pc.Committing? && call.op.Transferring?
    ensures call.result.Some?
    ensures Served(cfg, db, Apply(db, c, call.tx.writes), call.op, OrderOf(cfg, call, c), call.result.value)
  {
    hide OutcomeInv, Taken, Index, Injective, Shows, Receipts, Keys, Owners, Same, Tokens, GiftKeys, Gifts;
    var req, tx := call.op.req, call.tx;
    var from, to := From(cfg, req), To(cfg, req);
    assert OfWallet(from) in tx.locks && OfWallet(to) in tx.locks;
    assert Exists(db, OfWallet(from)) && Exists(db, OfWallet(to));
    var row := tx.writes.transfer.value;
    if Moving(cfg, db, c, req, tx) {
      ApplyMoved(cfg, db, c, req, tx);
      AbsAfterSettle(db, c, row);
    } else {
      ApplyRow(db, c, row);
      AbsAfterRow(db, c, row);
    }
  }

  lemma MintServed(cfg: Config, db: Tables, c: nat, call: Call)
    requires Indexed(db) && CallInv(cfg, db, c, call) && call.pc.Committing? && call.op.Minting?
    ensures call.result.Some?
    ensures Served(cfg, db, Apply(db, c, call.tx.writes), call.op, OrderOf(cfg, call, c), call.result.value)
  {
    hide OutcomeInv, Taken, Index, Injective, Receipts, Keys, Owners, Same, Tokens, GiftKeys, Gifts;
    if call.tx.writes == NO_WRITES {
      ApplyNothing(db, c);
      KnownGift(db, call.op.idem);
    } else {
      hide Shows;
      ApplyMint(cfg, db, c, call);
      AbsAfterEndow(db, Mint(c, call.op.idem, Id(cfg, call.op.wallet), call.op.amount));
    }
  }

  lemma UserServed(cfg: Config, db: Tables, c: nat, call: Call)
    requires Indexed(db) && CallInv(cfg, db, c, call) && call.pc.Committing? && call.op.ResolvingUser?
    ensures call.result.Some?
    ensures Served(cfg, db, Apply(db, c, call.tx.writes), call.op, OrderOf(cfg, call, c), call.result.value)
  {
    hide OutcomeInv, Taken, Index, Injective, Receipts, Keys, Owners, Same, Tokens, GiftKeys, Gifts;
    if call.tx.writes == NO_WRITES {
      ApplyNothing(db, c);
      KnownToken(db, call.result.value.user);
    } else {
      hide Shows;
      ApplyNewUser(db, c, call.op.token);
      AbsAfterUser(db, c, call.op.token);
    }
  }

  lemma WalletServed(cfg: Config, db: Tables, c: nat, call: Call)
    requires Indexed(db) && CallInv(cfg, db, c, call) && call.pc.Committing? && call.op.OpeningWallet?
    ensures call.result.Some?
    ensures Served(cfg, db, Apply(db, c, call.tx.writes), call.op, OrderOf(cfg, call, c), call.result.value)
  {
    hide OutcomeInv, Taken, Index, Injective, Receipts, Keys, Owners, Same, Tokens, GiftKeys, Gifts;
    if call.tx.writes == NO_WRITES {
      ApplyNothing(db, c);
      KnownAccount(db, call.result.value.wallet.id);
    } else {
      hide Shows;
      ApplyNewWallet(db, c, call.tx.writes.wallet.value);
      AbsAfterWallet(db, c, call.tx.writes.wallet.value);
    }
  }

  lemma ReplayServed(cfg: Config, s: State, before: Call, c: nat, t: nat, call: Call)
    requires Lawful(cfg) && Indexed(s.db) && before.op.Transferring?
    requires t in s.db.transfers ==> Terminal(s.db.transfers[t])
    requires MoveReplay(cfg, s, before, Some(t)) == Some(call)
    ensures call.pc.Done?
    ensures Served(cfg, s.db, s.db, call.op, OrderOf(cfg, before, c), call.pc.outcome)
  {
    hide Index, Injective, Receipts, Keys, Owners, Same, Tokens, GiftKeys, Gifts;
    var row := s.db.transfers[t];
    KnownReceipt(s.db, t);
    assert cfg.parse(cfg.canon(row.from)) == Some(row.from) && cfg.parse(cfg.canon(row.to)) == Some(row.to);
  }

  lemma CommitServed(cfg: Config, db: Tables, c: nat, call: Call)
    requires Lawful(cfg) && Indexed(db) && CallInv(cfg, db, c, call) && call.pc.Committing?
    ensures call.result.Some?
    ensures Served(cfg, db, Apply(db, c, call.tx.writes), call.op, OrderOf(cfg, call, c), call.result.value)
  {
    hide CallInv, Served;
    match call.op
    case Transferring(_) => TransferServed(cfg, db, c, call);
    case Minting(_, _, _) => MintServed(cfg, db, c, call);
    case ResolvingUser(_) => UserServed(cfg, db, c, call);
    case OpeningWallet(_) => WalletServed(cfg, db, c, call);
  }

  lemma StepKeepsOp(cfg: Config, s: State, l: Label)
    requires Step(cfg, s, l).Some? && !l.Arrive?
    ensures l.c in s.calls && Step(cfg, s, l).value.calls[l.c].op == s.calls[l.c].op
    ensures !s.calls[l.c].pc.Done?
  {
    MoveKeepsOp(cfg, s, l.c, l, Step(cfg, s, l).value.calls[l.c]);
  }

  lemma LandServes(cfg: Config, s: State, c: nat, how: CommitResult)
    requires Lawful(cfg) && Indexed(s.db) && c in s.calls && CallInv(cfg, s.db, c, s.calls[c])
    requires Step(cfg, s, Commit(c, how)).Some? && Lands(Commit(c, how))
    ensures var s' := Step(cfg, s, Commit(c, how)).value;
      && s'.calls[c].pc.Done?
      && Served(cfg, s.db, s'.db, s.calls[c].op, OrderOf(cfg, s.calls[c], c), s'.calls[c].pc.outcome)
  {
    hide CallInv, Indexed, Shows, Apply, Abs, Serve;
    CommitServed(cfg, s.db, c, s.calls[c]);
  }

  /** A step that serves a call takes the bank one order further; the caller is told the bank's answer, or that nobody knows. */
  lemma StepServes(cfg: Config, s: State, l: Label)
    requires Lawful(cfg) && Inv(cfg, s) && Step(cfg, s, l).Some? && Serves(l)
    ensures var s' := Step(cfg, s, l).value;
      && s'.calls[l.c].pc.Done?
      && Served(cfg, s.db, s'.db, s.calls[l.c].op, OrderOf(cfg, s.calls[l.c], l.c), s'.calls[l.c].pc.outcome)
  {
    hide CallInv, References, DoubleEntry, Explained, Served, Indexed, MoveReplay, Taken, Apart, Authored;
    UniqueIsIndexed(s.db);
    hide Unique;
    StepKeepsOp(cfg, s, l);
    if Lands(l) {
      LandServes(cfg, s, l.c, l.how);
    } else {
      ReplayServed(cfg, s, s.calls[l.c], l.c, l.found.value, Step(cfg, s, l).value.calls[l.c]);
    }
  }

  /** A call that has been given an answer, as opposed to an error that left no trace or an unknown fate. */
  predicate Answered(outcome: Outcome) {
    outcome.Failed? ==> outcome.error.IdempotencyConflict?
  }

  /** Any other step leaves the tables alone and gives no answer. */
  lemma StepIsSilent(cfg: Config, s: State, l: Label)
    requires Step(cfg, s, l).Some? && !Serves(l)
    ensures var s' := Step(cfg, s, l).value;
      && s'.db == s.db
      && l.c in s'.calls
      && (s'.calls[l.c].pc.Done? ==> !Answered(s'.calls[l.c].pc.outcome))
      && (l.c in s.calls ==> !s.calls[l.c].pc.Done? && s'.calls[l.c].op == s.calls[l.c].op)
  {
    hide Free, Unclaimed, Taken, Exists, ForeignRows, Acquire, Current, Apply, Lookup, Fingerprint;
  }

  lemma StepTouchesOne(cfg: Config, s: State, l: Label)
    requires Step(cfg, s, l).Some?
    ensures Step(cfg, s, l).value.calls.Keys == s.calls.Keys + {l.c}
    ensures forall c | c in s.calls && c != l.c :: Step(cfg, s, l).value.calls[c] == s.calls[c]
  {
    hide Move;
  }

  // ---------------------------------------------------------------------------
  // Whole runs
  // ---------------------------------------------------------------------------

  datatype Event = Event(c: nat, order: Order)

  /** The orders a run serves, in the order in which it serves them. */
  function Trace(cfg: Config, s: State, run: seq<Label>): seq<Event>
    requires Exec(cfg, s, run).Some?
  {
    if run == [] then []
    else
      var before, l := run[..|run| - 1], run[|run| - 1];
      var mid := Exec(cfg, s, before).value;
      Trace(cfg, s, before) + if Serves(l) then [Event(l.c, OrderOf(cfg, mid.calls[l.c], l.c))] else []
  }

  function ServeAll(events: seq<Event>): Bank {
    if events == [] then EMPTY_BANK
    else Serve(ServeAll(events[..|events| - 1]), events[|events| - 1].order).0
  }

  /** The bank's answer to the i-th order. */
  function AnswerAt(events: seq<Event>, i: nat): Answer
    requires i < |events|
  {
    Serve(ServeAll(events[..i]), events[i].order).1
  }

  /** The order asks what the call asked. */
  predicate Places(cfg: Config, op: Op, e: Event) {
    e.order == OrderOf(cfg, Call(op, 0, Start, if e.order.Pay? then FreshTx(e.order.at) else NO_TX, None), e.c)
  }

  /** The event belongs to a finished call, asks what it asked, and its answer is what the call returned. */
  ghost predicate Accounts(cfg: Config, s: State, events: seq<Event>, i: nat)
    requires i < |events|
  {
    var c := events[i].c;
    && c in s.calls && s.calls[c].pc.Done?
    && Places(cfg, s.calls[c].op, events[i])
    && Agrees(cfg, s.calls[c].op, s.calls[c].pc.outcome, AnswerAt(events, i))
  }

  /** Each call is served at most once, and every answered call is served. */
  ghost predicate Once(s: State, events: seq<Event>) {
    && (forall i, j | 0 <= i < j < |events| :: events[i].c != events[j].c)
    && (forall c | c in s.calls && s.calls[c].pc.Done? && Answered(s.calls[c].pc.outcome) ::
          exists i :: 0 <= i < |events| && events[i].c == c)
  }

  ghost predicate Linearizes(cfg: Config, s: State, events: seq<Event>) {
    && Shows(s.db, ServeAll(events))
    && (forall i | 0 <= i < |events| :: Accounts(cfg, s, events, i))
    && Once(s, events)
  }

  lemma AccountsStay(cfg: Config, s: State, s': State, events: seq<Event>, more: seq<Event>, i: nat)
    requires i < |events| && Accounts(cfg, s, events, i)
    requires events[i].c in s'.calls && s'.calls[events[i].c] == s.calls[events[i].c]
    ensures Accounts(cfg, s', events + more, i)
  {
    assert (events + more)[..i] == events[..i];
  }

  lemma SilentStepLinearizes(cfg: Config, s: State, l: Label, events: seq<Event>)
    requires Step(cfg, s, l).Some? && !Serves(l) && Linearizes(cfg, s, events)
    ensures Linearizes(cfg, Step(cfg, s, l).value, events)
  {
    hide Shows, Agrees, Serve, Places, Step, Answered, ServeAll, AnswerAt;
    StepIsSilent(cfg, s, l);
    StepTouchesOne(cfg, s, l);
    var s' := Step(cfg, s, l).value;
    assert events + [] == events;
    forall i | 0 <= i < |events|
      ensures Accounts(cfg, s', events, i)
    {
      assert Accounts(cfg, s, events, i);
      AccountsStay(cfg, s, s', events, [], i);
    }
  }

  lemma NewEventAccounts(cfg: Config, s: State, s': State, c: nat, events: seq<Event>, e: Event)
    requires c in s.calls && c in s'.calls && s'.calls[c].pc.Done? && s'.calls[c].op == s.calls[c].op
    requires e == Event(c, OrderOf(cfg, s.calls[c], c))
    requires Shows(s.db, ServeAll(events))
    requires Served(cfg, s.db, s'.db, s.calls[c].op, e.order, s'.calls[c].pc.outcome)
    ensures Accounts(cfg, s', events + [e], |events|)
    ensures Shows(s'.db, ServeAll(events + [e]))
  {
    hide Agrees, Serve, Index, OrderOf;
    assert (events + [e])[..|events|] == events;
    assert Abs(s.db) == ServeAll(events) ==> ServeAll(events + [e]) == Serve(Abs(s.db), e.order).0;
    OrderIsPlaced(cfg, s.calls[c], c);
  }

  /** An order depends on the call's operation and, for a payment, on its transaction's clock. */
  lemma OrderIsPlaced(cfg: Config, call: Call, c: nat)
    ensures Places(cfg, call.op, Event(c, OrderOf(cfg, call, c)))
  {
  }

  lemma ServedCallLinearizes(cfg: Config, s: State, s': State, c: nat, events: seq<Event>, e: Event)
    requires c in s.calls && !s.calls[c].pc.Done? && c in s'.calls && s'.calls[c].pc.Done?
    requires s'.calls[c].op == s.calls[c].op
    requires s'.calls.Keys == s.calls.Keys && forall d | d in s.calls && d != c :: s'.calls[d] == s.calls[d]
    requires e == Event(c, OrderOf(cfg, s.calls[c], c))
    requires Served(cfg, s.db, s'.db, s.calls[c].op, e.order, s'.calls[c].pc.outcome)
    requires Linearizes(cfg, s, events)
    ensures Linearizes(cfg, s', events + [e])
  {
    hide Served, Agrees, Answered, Serve, Shows, OrderOf, ServeAll, AnswerAt, Places, Accounts, Once;
    NewEventAccounts(cfg, s, s', c, events, e);
    AllAccount(cfg, s, s', events, e);
    OnceExtends(s, s', events, e);
  }

  lemma ServingStepLinearizes(cfg: Config, s: State, l: Label, events: seq<Event>)
    requires Lawful(cfg) && Inv(cfg, s)
    requires Step(cfg, s, l).Some? && Serves(l) && Linearizes(cfg, s, events)
    ensures Linearizes(cfg, Step(cfg, s, l).value, events + [Event(l.c, OrderOf(cfg, s.calls[l.c], l.c))])
  {
    hide Inv, Lawful, Served, Linearizes, OrderOf, Move, Apply;
    StepServes(cfg, s, l);
    StepTouchesOne(cfg, s, l);
    StepKeepsOp(cfg, s, l);
    ServedCallLinearizes(cfg, s, Step(cfg, s, l).value, l.c, events, Event(l.c, OrderOf(cfg, s.calls[l.c], l.c)));
  }

  lemma AllAccount(cfg: Config, s: State, s': State, events: seq<Event>, e: Event)
    requires e.c in s.calls && !s.calls[e.c].pc.Done?
    requires s'.calls.Keys == s.calls.Keys && forall c | c in s.calls && c != e.c :: s'.calls[c] == s.calls[c]
    requires forall i | 0 <= i < |events| :: Accounts(cfg, s, events, i)
    requires Accounts(cfg, s', events + [e], |events|)
    ensures forall i | 0 <= i < |events + [e]| :: Accounts(cfg, s', events + [e], i)
    ensures forall i | 0 <= i < |events| :: events[i].c != e.c
  {
    hide Accounts;
    forall i | 0 <= i < |events|
      ensures Accounts(cfg, s', events + [e], i) && events[i].c != e.c
    {
      EarlierEvent(cfg, s, events, i);
      AccountsStay(cfg, s, s', events, [e], i);
    }
  }

  lemma EarlierEvent(cfg: Config, s: State, events: seq<Event>, i: nat)
    requires i < |events| && Accounts(cfg, s, events, i)
    ensures events[i].c in s.calls && s.calls[events[i].c].pc.Done?
  {
  }

  lemma OnceExtends(s: State, s': State, events: seq<Event>, e: Event)
    requires Once(s, events) && e.c in s.calls
    requires s'.calls.Keys == s.calls.Keys && forall c | c in s.calls && c != e.c :: s'.calls[c] == s.calls[c]
    requires forall i | 0 <= i < |events| :: events[i].c != e.c
    ensures Once(s', events + [e])
  {
    hide Answered;
    var events' := events + [e];
    assert events'[|events|].c == e.c;
    forall c | c in s'.calls && s'.calls[c].pc.Done? && Answered(s'.calls[c].pc.outcome)
      ensures exists i :: 0 <= i < |events'| && events'[i].c == c
    {
      if c != e.c {
        var i :| 0 <= i < |events| && events[i].c == c;
        assert events'[i].c == c;
      }
    }
  }

  /**
   Every run, of any number of calls in any interleaving with any failures, is a sequential run of the
   bank: its tables show what the bank shows after the served orders, each call is served at most once,
   and every answer is the one the bank gave to that call's order.
   */
  lemma {:induction false} RunLinearizes(cfg: Config, run: seq<Label>)
    requires Lawful(cfg) && Exec(cfg, INIT, run).Some?
    ensures Linearizes(cfg, Exec(cfg, INIT, run).value, Trace(cfg, INIT, run))
  {
    hide Inv, Step, OrderOf;
    if run == [] {
      InitLinearizes(cfg);
    } else {
      var before, l := run[..|run| - 1], run[|run| - 1];
      var mid := Exec(cfg, INIT, before).value;
      RunLinearizes(cfg, before);
      InitHolds(cfg);
      RunKeeps(cfg, INIT, before);
      var events := Trace(cfg, INIT, before);
      hide Linearizes;
      if Serves(l) {
        ServingStepLinearizes(cfg, mid, l, events);
      } else {
        assert events + [] == events;
        SilentStepLinearizes(cfg, mid, l, events);
      }
    }
  }

  lemma InitLinearizes(cfg: Config)
    ensures Linearizes(cfg, INIT, [])
  {
    assert Abs(EMPTY) == EMPTY_BANK;
  }

  /** What a run has served never changes as the run goes on. */
  lemma {:induction false} TraceExtends(cfg: Config, run: seq<Label>, k: nat)
    requires k <= |run| && Exec(cfg, INIT, run).Some?
    ensures Exec(cfg, INIT, run[..k]).Some?
    ensures Trace(cfg, INIT, run[..k]) <= Trace(cfg, INIT, run)
  {
    hide Step, Serves, OrderOf;
    if k == |run| {
      assert run[..k] == run;
    } else {
      var before := run[..|run| - 1];
      TraceExtends(cfg, before, k);
      assert before[..k] == run[..k];
    }
  }

  /** The order in which calls are served respects real time: answered before the other arrived means served first. */
  lemma RealTimeOrder(cfg: Config, run: seq<Label>, k: nat, i: nat, j: nat)
    requires Lawful(cfg) && k <= |run| && Exec(cfg, INIT, run).Some?
    requires i < |Trace(cfg, INIT, run)| && j < |Trace(cfg, INIT, run)|
    requires Exec(cfg, INIT, run[..k]).Some?
    requires var mid := Exec(cfg, INIT, run[..k]).value;
      var first, second := Trace(cfg, INIT, run)[i].c, Trace(cfg, INIT, run)[j].c;
      && first in mid.calls && mid.calls[first].pc.Done? && Answered(mid.calls[first].pc.outcome)
      && second !in mid.calls
    ensures i < j
  {
    var all, soFar := Trace(cfg, INIT, run), Trace(cfg, INIT, run[..k]);
    var mid := Exec(cfg, INIT, run[..k]).value;
    RunLinearizes(cfg, run);
    RunLinearizes(cfg, run[..k]);
    TraceExtends(cfg, run, k);
    hide Step, Serves, OrderOf, Shows, Agrees, Places, Trace, Exec, Answered;
    var m :| 0 <= m < |soFar| && soFar[m].c == all[i].c;
    assert all[m] == soFar[m];
    assert m == i;
    if j < |soFar| {
      assert all[j] == soFar[j];
      assert Accounts(cfg, mid, soFar, j);
    }
  }
}
