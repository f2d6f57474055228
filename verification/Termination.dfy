/** Some call can always go on, and no run without new calls is longer than a bound known from its first state. */
module Termination {
  import opened Tables
  import opened Protocol
  import opened Invariant
  import opened CommitStep
  import opened Progress
  import opened Sums

  // ---------------------------------------------------------------------------
  // Progress
  // ---------------------------------------------------------------------------

  predicate Live(s: State, c: nat) {
    c in s.calls && !s.calls[c].pc.Done?
  }

  ghost predicate Blocked(cfg: Config, s: State, c: nat) {
    exists d :: WaitsFor(cfg, s, c, d)
  }

  lemma FreeOfWaits(cfg: Config, s: State, c: nat, row: Row)
    requires c in s.calls && !Blocked(cfg, s, c) && Wants(cfg, s.db, s.calls[c], row)
    ensures Free(s, c, row, WantedMode(cfg, s.calls[c].pc))
  {
    forall d | d in s.calls && d != c && row in s.calls[d].tx.locks
      ensures !Conflicts(s.calls[d].tx.locks[row], WantedMode(cfg, s.calls[c].pc))
    {
      assert !WaitsFor(cfg, s, c, d);
      assert !WaitsOnRow(cfg, s.db, s.calls[c], s.calls[d], row);
    }
  }

  lemma UnclaimedOfWaits(cfg: Config, s: State, c: nat)
    requires c in s.calls && !Blocked(cfg, s, c) && s.calls[c].pc == Claiming
    ensures Unclaimed(s, c, ClaimOf(s.calls[c].op))
  {
    forall d | d in s.calls && d != c
      ensures s.calls[d].tx.claim != Some(ClaimOf(s.calls[c].op))
    {
      assert !WaitsFor(cfg, s, c, d);
    }
  }

  lemma ClaimingGoesOn(cfg: Config, s: State, c: nat) returns (l: Label)
    requires c in s.calls && s.calls[c].pc == Claiming && !Blocked(cfg, s, c)
    ensures l.c == c && Proper(l) && Step(cfg, s, l).Some?
  {
    UnclaimedOfWaits(cfg, s, c);
    match s.calls[c].op
    case Transferring(_) => l := Insert(c);
    case Minting(_, _, _) => l := Insert(c);
    case ResolvingUser(token) =>
      if u :| u in s.db.users && s.db.users[u] == token {
        FreeOfWaits(cfg, s, c, OfUser(u));
        l := Upsert(c, Some(u));
      } else {
        l := Upsert(c, None);
      }
    case OpeningWallet(user) =>
      if w :| w in s.db.wallets && s.db.wallets[w].owner == user {
        FreeOfWaits(cfg, s, c, OfWallet(w));
        l := Upsert(c, Some(w));
      } else {
        l := Upsert(c, None);
      }
  }

  lemma SharingGoesOn(cfg: Config, s: State, c: nat) returns (l: Label)
    requires c in s.calls && s.calls[c].pc == Sharing && !Blocked(cfg, s, c)
    requires CallInv(cfg, s.db, c, s.calls[c])
    ensures l.c == c && Proper(l) && Step(cfg, s, l).Some?
  {
    var call := s.calls[c];
    hide OutcomeInv, Provenance, Effect, Taken, TransferReads, TransferWrites, WaitsFor;
    assert exists row :: row in ForeignRows(cfg, call.op) && row !in call.tx.locks by {
      if call.op.Minting? {
        assert OfWallet(Id(cfg, call.op.wallet)) in ForeignRows(cfg, call.op);
      } else if call.op.OpeningWallet? {
        assert OfUser(call.op.user) in ForeignRows(cfg, call.op);
      }
    }
    var row :| row in ForeignRows(cfg, call.op) && row !in call.tx.locks;
    FreeOfWaits(cfg, s, c, row);
    l := CheckForeign(c, row);
  }

  lemma LockingGoesOn(cfg: Config, s: State, c: nat) returns (l: Label)
    requires c in s.calls && (s.calls[c].pc == LockFirst || s.calls[c].pc == LockSecond) && !Blocked(cfg, s, c)
    requires CallInv(cfg, s.db, c, s.calls[c])
    ensures l.c == c && Proper(l) && Step(cfg, s, l).Some?
  {
    var call := s.calls[c];
    hide OutcomeInv, Provenance, Effect, Taken, TransferReads, TransferWrites, WaitsFor;
    FreeOfWaits(cfg, s, c, OfWallet(if call.pc == LockFirst then Lo(cfg, call.op.req) else Hi(cfg, call.op.req)));
    l := LockWallet(c);
  }

  lemma WritingGoesOn(cfg: Config, s: State, c: nat) returns (l: Label)
    requires c in s.calls && !Blocked(cfg, s, c)
    requires CallInv(cfg, s.db, c, s.calls[c])
    requires s.calls[c].pc == Debiting || s.calls[c].pc == Crediting || s.calls[c].pc == Funding
    ensures l.c == c && Proper(l) && Step(cfg, s, l).Some?
  {
    var call := s.calls[c];
    hide OutcomeInv, Provenance, Effect, Taken, TransferReads, TransferLocks, TransferWrites, WaitsFor, Blocked, Free, Acquire;
    match call.pc
    case Debiting =>
      FreeOfWaits(cfg, s, c, OfWallet(From(cfg, call.op.req)));
      l := Debit(c);
    case Crediting =>
      FreeOfWaits(cfg, s, c, OfWallet(To(cfg, call.op.req)));
      l := Credit(c);
    case Funding =>
      FreeOfWaits(cfg, s, c, OfWallet(Id(cfg, call.op.wallet)));
      l := Fund(c);
  }

  lemma BodyGoesOn(cfg: Config, s: State, c: nat) returns (l: Label)
    requires c in s.calls && CallInv(cfg, s.db, c, s.calls[c])
    requires var pc := s.calls[c].pc;
      pc == Deciding || pc == Booking || pc == Completing || pc == Inspecting || pc == ReadingBack
    ensures l.c == c && Proper(l) && Step(cfg, s, l).Some?
  {
    var call := s.calls[c];
    hide OutcomeInv, Provenance, Effect, Taken, TransferReads, TransferLocks, Moves, Payable;
    match call.pc
    case Deciding => l := Decide(c);
    case Booking => l := Book(c);
    case Completing => l := Complete(c);
    case Inspecting => l := Inspect(c);
    case ReadingBack => l := ReadBack(c);
  }

  lemma ReplayingGoesOn(cfg: Config, s: State, c: nat) returns (l: Label)
    requires c in s.calls && s.calls[c].pc == Replaying
    requires CallInv(cfg, s.db, c, s.calls[c])
    ensures l.c == c && Proper(l) && Step(cfg, s, l).Some?
  {
    hide OutcomeInv, Provenance, Effect, TransferActive;
    var req := s.calls[c].op.req;
    var t :| t in s.db.transfers && s.db.transfers[t].key == KeyOf(req);
    l := Replay(c, Some(t));
  }

  lemma CommittingGoesOn(cfg: Config, s: State, c: nat) returns (l: Label)
    requires c in s.calls && s.calls[c].pc == Committing
    requires CallInv(cfg, s.db, c, s.calls[c])
    ensures l.c == c && Proper(l) && Step(cfg, s, l).Some?
  {
    hide OutcomeInv, Provenance, Effect, Taken, TransferReads, TransferLocks, TransferWrites, Apply;
    l := Commit(c, Acked);
  }

  /** A call that waits for nobody has a statement it can run. */
  lemma UnblockedGoesOn(cfg: Config, s: State, c: nat) returns (l: Label)
    requires Lawful(cfg) && Inv(cfg, s) && Live(s, c) && !Blocked(cfg, s, c)
    ensures l.c == c && Proper(l) && Step(cfg, s, l).Some?
  {
    hide CallInv, Sound, Authored, Apart, Blocked, Lawful;
    match s.calls[c].pc
    case Start => l := Begin(c, 0);
    case Claiming => l := ClaimingGoesOn(cfg, s, c);
    case Sharing => l := SharingGoesOn(cfg, s, c);
    case LockFirst => l := LockingGoesOn(cfg, s, c);
    case LockSecond => l := LockingGoesOn(cfg, s, c);
    case Replaying => l := ReplayingGoesOn(cfg, s, c);
    case Committing => l := CommittingGoesOn(cfg, s, c);
    case Debiting => l := WritingGoesOn(cfg, s, c);
    case Crediting => l := WritingGoesOn(cfg, s, c);
    case Funding => l := WritingGoesOn(cfg, s, c);
    case _ => l := BodyGoesOn(cfg, s, c);
  }

  /** A finite set of calls has a top one: nobody it could wait for is above it. */
  lemma {:induction false} TopCall(cfg: Config, s: State, calls: set<nat>) returns (top: nat)
    requires calls != {} && calls <= s.calls.Keys
    ensures top in calls
    ensures forall c | c in calls :: !Below(RankOf(cfg, s.calls[top]), RankOf(cfg, s.calls[c]))
  {
    hide RankOf, Below;
    var c :| c in calls;
    BelowIsIrreflexive(RankOf(cfg, s.calls[c]));
    if calls == {c} {
      top := c;
    } else {
      assert calls - {c} != {};
      top := TopCall(cfg, s, calls - {c});
      if Below(RankOf(cfg, s.calls[top]), RankOf(cfg, s.calls[c])) {
        forall d | d in calls - {c}
          ensures !Below(RankOf(cfg, s.calls[c]), RankOf(cfg, s.calls[d]))
        {
          if Below(RankOf(cfg, s.calls[c]), RankOf(cfg, s.calls[d])) {
            BelowIsTransitive(RankOf(cfg, s.calls[top]), RankOf(cfg, s.calls[c]), RankOf(cfg, s.calls[d]));
          }
        }
        top := c;
      }
    }
  }

  lemma WaitedForIsLive(cfg: Config, s: State, c: nat, d: nat)
    requires Inv(cfg, s) && WaitsFor(cfg, s, c, d)
    ensures Live(s, d)
  {
    hide Sound, Authored, Apart, OutcomeInv, Provenance, Effect, Taken, TransferInv, MintInv, UserInv, WalletInv, Wants;
    assert CallInv(cfg, s.db, d, s.calls[d]);
  }

  /** As long as any call is unfinished, some call can run its next statement. */
  lemma SomeCallGoesOn(cfg: Config, s: State, c: nat) returns (l: Label)
    requires Lawful(cfg) && AsShipped(cfg) && AllOrderly(cfg, s) && Reachable(cfg, s)
    requires Live(s, c)
    ensures Proper(l) && Step(cfg, s, l).Some?
  {
    ReachableKeeps(cfg, s);
    hide Inv, Reachable, AllOrderly, Step, RankOf, Below, WaitsFor, Lawful;
    var live := set d | d in s.calls && Live(s, d);
    assert c in live;
    var top := TopCall(cfg, s, live);
    if d :| WaitsFor(cfg, s, top, d) {
      WaitedForIsLive(cfg, s, top, d);
      assert d in live;
      EdgeClimbs(cfg, s, top, d);
    }
    l := UnblockedGoesOn(cfg, s, top);
  }

  // ---------------------------------------------------------------------------
  // Termination
  // ---------------------------------------------------------------------------

  /** Program points, last first. */
  function Order(pc: PC): nat {
    match pc
    case Start => 20
    case Claiming => 19
    case Sharing => 15
    case LockFirst => 14
    case LockSecond => 13
    case Deciding => 12
    case Debiting => 11
    case Crediting => 10
    case Booking => 9
    case Completing => 8
    case Inspecting => 7
    case Funding => 6
    case ReadingBack => 5
    case Committing => 2
    case Replaying => 1
    case Done(_) => 0
  }

  /** The statements this attempt may still run. */
  function Stage(cfg: Config, call: Call): nat {
    Order(call.pc) + if call.pc.Sharing? then |ForeignRows(cfg, call.op) - call.tx.locks.Keys| else 0
  }

  function Weight(cfg: Config, call: Call): int {
    if call.pc.Done? then 0 else (MAX_TX_ATTEMPTS - call.attempt) * 21 + Stage(cfg, call)
  }

  function Weights(cfg: Config, s: State): map<nat, int> {
    map c | c in s.calls :: Weight(cfg, s.calls[c])
  }

  /** How many steps are left, at most. */
  ghost function Remaining(cfg: Config, s: State): int {
    Total(Weights(cfg, s))
  }

  lemma ForeignRowsAreFew(cfg: Config, op: Op)
    ensures |ForeignRows(cfg, op)| <= 3
  {
  }

  lemma OneRowFewer(rows: set<Row>, held: set<Row>, row: Row)
    requires row in rows && row !in held
    ensures |rows - (held + {row})| < |rows - held|
  {
    assert rows - (held + {row}) == (rows - held) - {row};
  }

  lemma SharingSpends(cfg: Config, s: State, c: nat, row: Row, call: Call)
    requires c in s.calls && MoveCheckForeign(cfg, s, c, s.calls[c], row) == Some(call)
    ensures Stage(cfg, call) < Stage(cfg, s.calls[c]) && call.attempt == s.calls[c].attempt
  {
    hide Free, ForeignRows, Exists, Stage;
    var before := s.calls[c];
    if !call.pc.Done? {
      assert call.tx.locks.Keys == before.tx.locks.Keys + {row};
      OneRowFewer(ForeignRows(cfg, before.op), before.tx.locks.Keys, row);
    }
    StageDrops(cfg, before, call);
  }

  lemma StageDrops(cfg: Config, before: Call, call: Call)
    requires before.pc == Sharing && call.op == before.op
    requires call.pc == Sharing || call.pc == LockFirst || call.pc == Funding || call.pc == Committing || call.pc.Done?
    requires call.pc == Sharing ==>
      |ForeignRows(cfg, call.op) - call.tx.locks.Keys| < |ForeignRows(cfg, before.op) - before.tx.locks.Keys|
    ensures Stage(cfg, call) < Stage(cfg, before)
  {
    hide ForeignRows;
  }

  lemma StageBound(cfg: Config, call: Call)
    ensures Stage(cfg, call) <= 20 && (call.pc.Sharing? ==> 15 <= Stage(cfg, call) <= 18)
  {
    ForeignRowsMissing(cfg, call);
  }

  lemma RetrySpends(cfg: Config, call: Call)
    requires !call.pc.Done? && call.attempt < MAX_TX_ATTEMPTS
    ensures Weight(cfg, Retry(call)) < Weight(cfg, call)
  {
    StageBound(cfg, call);
  }

  /** The call is over, or at a later program point of the same attempt. */
  predicate FurtherOn(before: Call, call: Call) {
    call.pc.Done? ||
    (call.attempt == before.attempt && Order(call.pc) + (if call.pc.Sharing? then 3 else 0) < Order(before.pc))
  }

  lemma FurtherOnWeighsLess(cfg: Config, before: Call, call: Call)
    requires FurtherOn(before, call) && !before.pc.Done? && before.attempt < MAX_TX_ATTEMPTS
    ensures Weight(cfg, call) < Weight(cfg, before)
  {
    hide ForeignRows;
    ForeignRowsMissing(cfg, call);
  }

  lemma EarlyMoveGoesOn(cfg: Config, s: State, c: nat, l: Label, call: Call)
    requires c in s.calls && Move(cfg, s, c, l) == Some(call)
    requires l.Begin? || l.Insert? || l.Upsert? || l.LockWallet? || l.Replay?
    ensures FurtherOn(s.calls[c], call) && !s.calls[c].pc.Done?
  {
    hide ForeignRows, Free, Unclaimed, Taken, MoveCheckForeign, MoveDebit, MoveCredit, MoveFund, MoveBook, MoveComplete,
      MoveInspect, MoveReadBack, MoveDecide, MoveCommit, MoveAbort, Retry, WriteBalance;
  }

  lemma WriteMovesOn(s: State, c: nat, call: Call, w: nat, delta: int, next: PC, call': Call)
    requires WriteBalance(s, c, call, w, delta, next) == Some(call')
    ensures call'.attempt == call.attempt && (call'.pc == next || call'.pc.Done?)
  {
  }

  lemma WriteGoesOn(cfg: Config, s: State, c: nat, l: Label, call: Call)
    requires c in s.calls && Move(cfg, s, c, l) == Some(call)
    requires l.Debit? || l.Credit? || l.Fund?
    ensures FurtherOn(s.calls[c], call) && !s.calls[c].pc.Done?
  {
    hide ForeignRows, Free, Acquire, Current, WriteBalance, MoveBegin, MoveInsertTransfer, MoveInsertMint, MoveUpsertUser,
      MoveUpsertWallet, MoveCheckForeign, MoveLockWallet, MoveReplay, MoveBook, MoveComplete, MoveInspect, MoveReadBack,
      MoveDecide, MoveCommit, MoveAbort, Retry;
    var before := s.calls[c];
    var debiting, crediting := before.(tx := before.tx.(debited := 1)), before.(tx := before.tx.(credited := 1));
    if l.Debit? && WriteBalance(s, c, debiting, From(cfg, before.op.req), -before.op.req.amount, Crediting) == Some(call) {
      WriteMovesOn(s, c, debiting, From(cfg, before.op.req), -before.op.req.amount, Crediting, call);
    } else if l.Credit? && WriteBalance(s, c, crediting, To(cfg, before.op.req), before.op.req.amount, Booking) == Some(call) {
      WriteMovesOn(s, c, crediting, To(cfg, before.op.req), before.op.req.amount, Booking, call);
    } else if l.Fund? && WriteBalance(s, c, before, Id(cfg, before.op.wallet), before.op.amount, ReadingBack) == Some(call) {
      WriteMovesOn(s, c, before, Id(cfg, before.op.wallet), before.op.amount, ReadingBack, call);
    }
  }

  lemma LateMoveGoesOn(cfg: Config, s: State, c: nat, l: Label, call: Call)
    requires c in s.calls && Move(cfg, s, c, l) == Some(call)
    requires l.Decide? || l.Book? || l.Complete? || l.Inspect? || l.ReadBack?
    ensures FurtherOn(s.calls[c], call) && !s.calls[c].pc.Done?
  {
    hide ForeignRows, Current, Lookup, Pair, MoveBegin, MoveInsertTransfer, MoveInsertMint, MoveUpsertUser,
      MoveUpsertWallet, MoveCheckForeign, MoveLockWallet, MoveReplay, MoveDebit, MoveCredit, MoveFund, MoveCommit,
      MoveAbort, Retry, WriteBalance;
  }

  lemma MoveSpends(cfg: Config, s: State, c: nat, l: Label, call: Call)
    requires c in s.calls && Move(cfg, s, c, l) == Some(call) && s.calls[c].attempt < MAX_TX_ATTEMPTS
    ensures Weight(cfg, call) < Weight(cfg, s.calls[c])
  {
    if l.CheckForeign? {
      SharingSpends(cfg, s, c, l.row, call);
      StageBound(cfg, s.calls[c]);
    } else if l.Commit? || l.Abort? {
      StageBound(cfg, s.calls[c]);
      if !call.pc.Done? {
        RetrySpends(cfg, s.calls[c]);
      }
    } else {
      hide Weight, ForeignRows, MoveInsertTransfer, MoveInsertMint, MoveUpsertUser, MoveUpsertWallet, MoveLockWallet,
        MoveReplay, MoveDebit, MoveCredit, MoveBook, MoveComplete, MoveInspect, MoveFund, MoveReadBack, MoveDecide;
      if l.Begin? || l.Insert? || l.Upsert? || l.LockWallet? || l.Replay? {
        EarlyMoveGoesOn(cfg, s, c, l, call);
      } else if l.Debit? || l.Credit? || l.Fund? {
        WriteGoesOn(cfg, s, c, l, call);
      } else {
        LateMoveGoesOn(cfg, s, c, l, call);
      }
      FurtherOnWeighsLess(cfg, s.calls[c], call);
    }
  }

  lemma ForeignRowsMissing(cfg: Config, call: Call)
    ensures |ForeignRows(cfg, call.op) - call.tx.locks.Keys| <= 3
  {
    var rows := ForeignRows(cfg, call.op);
    ForeignRowsAreFew(cfg, call.op);
    SubsetIsSmaller(rows - call.tx.locks.Keys, rows);
  }

  lemma {:induction false} SubsetIsSmaller(a: set<Row>, b: set<Row>)
    requires a <= b
    ensures |a| <= |b|
  {
    if a != {} {
      var x :| x in a;
      SubsetIsSmaller(a - {x}, b - {x});
    }
  }

  lemma AttemptsAreBounded(cfg: Config, s: State, c: nat)
    requires Inv(cfg, s) && c in s.calls
    ensures s.calls[c].attempt < MAX_TX_ATTEMPTS
  {
    hide Sound, Authored, Apart, OutcomeInv, Provenance, Effect, Taken, TransferInv, MintInv, UserInv, WalletInv;
    assert CallInv(cfg, s.db, c, s.calls[c]);
  }

  /** Every step other than a new call, failures and retries included, brings the end nearer. */
  lemma StepSpends(cfg: Config, s: State, l: Label)
    requires Inv(cfg, s) && Step(cfg, s, l).Some? && !l.Arrive?
    ensures Remaining(cfg, Step(cfg, s, l).value) < Remaining(cfg, s)
  {
    hide Inv, Move, Weight;
    var s' := Step(cfg, s, l).value;
    AttemptsAreBounded(cfg, s, l.c);
    MoveSpends(cfg, s, l.c, l, s'.calls[l.c]);
    TotalUpdate(Weights(cfg, s), l.c, Weight(cfg, s'.calls[l.c]));
    assert Weights(cfg, s') == Weights(cfg, s)[l.c := Weight(cfg, s'.calls[l.c])];
  }

  lemma RemainingIsNonNegative(cfg: Config, s: State)
    requires Inv(cfg, s)
    ensures Remaining(cfg, s) >= 0
  {
    hide Inv, Stage;
    forall c | c in s.calls
      ensures Weights(cfg, s)[c] >= 0
    {
      AttemptsAreBounded(cfg, s, c);
    }
    TotalIsNonNegative(Weights(cfg, s));
  }

  /** Whatever the scheduler and the failures, a run without new calls stops after at most `Remaining` steps. */
  lemma {:induction false} RunsAreBounded(cfg: Config, s: State, run: seq<Label>)
    requires Lawful(cfg) && Inv(cfg, s) && Exec(cfg, s, run).Some?
    requires forall i | 0 <= i < |run| :: !run[i].Arrive?
    ensures |run| + Remaining(cfg, Exec(cfg, s, run).value) <= Remaining(cfg, s)
    ensures |run| <= Remaining(cfg, s)
  {
    hide Inv, Step, Remaining;
    if run != [] {
      var before := run[..|run| - 1];
      RunsAreBounded(cfg, s, before);
      RunKeeps(cfg, s, before);
      StepSpends(cfg, Exec(cfg, s, before).value, run[|run| - 1]);
    }
    RunKeeps(cfg, s, run);
    RemainingIsNonNegative(cfg, Exec(cfg, s, run).value);
  }

  /** No call can run a statement of its own. */
  ghost predicate Stuck(cfg: Config, s: State) {
    forall l: Label | Proper(l) :: Step(cfg, s, l).None?
  }

  /**
   Any finite set of calls finishes under any scheduler that goes on while something can: such a run is
   no longer than the bound, and where it ends every call has an outcome.
   */
  lemma EveryCallFinishes(cfg: Config, s: State, run: seq<Label>)
    requires Lawful(cfg) && AsShipped(cfg) && Reachable(cfg, s) && Exec(cfg, s, run).Some?
    requires forall i | 0 <= i < |run| :: !run[i].Arrive?
    requires var end := Exec(cfg, s, run).value; AllOrderly(cfg, end) && Stuck(cfg, end)
    ensures |run| <= Remaining(cfg, s)
    ensures var end := Exec(cfg, s, run).value; forall c | c in end.calls :: end.calls[c].pc.Done?
  {
    ReachableKeeps(cfg, s);
    hide Inv, AllOrderly, Step, Lawful, Remaining, Proper;
    RunsAreBounded(cfg, s, run);
    var end := Exec(cfg, s, run).value;
    RunFromReachable(cfg, s, run);
    hide Exec, Reachable;
    forall c | c in end.calls
      ensures end.calls[c].pc.Done?
    {
      if Live(end, c) {
        var l := SomeCallGoesOn(cfg, end, c);
      }
    }
  }

  lemma RunFromReachable(cfg: Config, s: State, run: seq<Label>)
    requires Reachable(cfg, s) && Exec(cfg, s, run).Some?
    ensures Reachable(cfg, Exec(cfg, s, run).value)
  {
    var first :| Exec(cfg, INIT, first) == Some(s);
    ExecAppends(cfg, INIT, first, run);
  }
}
