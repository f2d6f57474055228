/**
 The dates in rows and documents are those of the clock: `now()` as the transaction that wrote the row has
 begun with it, which is the last transaction its call has begun.
 */
module Dating {
  import opened Tables
  import opened Protocol
  import opened Invariant
  import opened CommitStep
  import opened History
  import opened Guarantees

  /** Step `k` is the last at which call `c` began a transaction, and the clock read `now`. */
  predicate LastBegun(run: seq<Label>, c: nat, k: nat, now: Time) {
    && k < |run| && run[k] == Begin(c, now)
    && forall j | k < j < |run| :: !(run[j].Begin? && run[j].c == c)
  }

  ghost predicate BegunAt(run: seq<Label>, c: nat, now: Time) {
    exists k: nat :: LastBegun(run, c, k, now)
  }

  lemma OtherStepsBeginNothing(run: seq<Label>, l: Label, c: nat, now: Time)
    requires BegunAt(run, c, now) && !(l.Begin? && l.c == c)
    ensures BegunAt(run + [l], c, now)
  {
    var k: nat :| LastBegun(run, c, k, now);
    assert LastBegun(run + [l], c, k, now);
  }

  lemma BeginIsTheLast(run: seq<Label>, c: nat, now: Time)
    ensures BegunAt(run + [Begin(c, now)], c, now)
  {
    assert LastBegun(run + [Begin(c, now)], c, |run|, now);
  }

  predicate InTransaction(call: Call) {
    !call.pc.Start? && !call.pc.Replaying? && !call.pc.Done?
  }

  /** What call `c` has written, committed or not, is dated by its last transaction. */
  ghost predicate Dated(run: seq<Label>, s: State, c: nat) {
    && (c in s.calls && InTransaction(s.calls[c]) ==> BegunAt(run, c, s.calls[c].tx.now))
    && (c in s.db.transfers ==> BegunAt(run, c, s.db.transfers[c].createdAt))
    && (c in s.db.wallets ==> BegunAt(run, c, s.db.wallets[c].createdAt))
  }

  /** A transaction keeps its clock until it is over. */
  lemma MoveKeepsClock(cfg: Config, s: State, c: nat, l: Label, call: Call)
    requires c in s.calls && Move(cfg, s, c, l) == Some(call)
    ensures InTransaction(call) && !l.Begin? ==> InTransaction(s.calls[c]) && call.tx.now == s.calls[c].tx.now
    ensures InTransaction(call) && l.Begin? ==> call.tx.now == l.now
  {
    hide Free, Unclaimed, Taken, ForeignRows, Exists, Acquire, Current, Lookup;
  }

  /** What a call is about to commit bears its transaction's date. */
  lemma WritesAreDated(cfg: Config, db: Tables, c: nat, call: Call)
    requires CallInv(cfg, db, c, call) && call.pc.Committing?
    ensures call.tx.writes.transfer.Some? ==> call.tx.writes.transfer.value.createdAt == call.tx.now
    ensures call.tx.writes.wallet.Some? ==> call.tx.writes.wallet.value.createdAt == call.tx.now
  {
    hide OutcomeInv, Provenance, Effect, Taken, TransferReads, TransferLocks, MintRepeated, Payable, Moves;
  }

  lemma CommitIsDated(db: Tables, c: nat, w: Writes, d: nat)
    ensures var db' := Apply(db, c, w);
      && (d in db'.transfers ==>
            if d == c && w.transfer.Some? then db'.transfers[d] == w.transfer.value
            else d in db.transfers && db'.transfers[d] == db.transfers[d])
      && (d in db'.wallets ==>
            if d == c && w.wallet.Some? then db'.wallets[d].createdAt == w.wallet.value.createdAt
            else d in db.wallets && db'.wallets[d].createdAt == db.wallets[d].createdAt)
  {
  }

  /** A row's author begins no further transaction. */
  lemma AuthorsAreDone(cfg: Config, s: State, l: Label)
    requires Lawful(cfg) && Reachable(cfg, s) && Step(cfg, s, l).Some? && l.Begin?
    ensures l.c !in s.db.transfers && l.c !in s.db.wallets
  {
    MoveKeepsOp(cfg, s, l.c, l, Step(cfg, s, l).value.calls[l.c]);
    RunningHolds(cfg, s, l.c);
  }

  lemma StepKeepsDates(cfg: Config, run: seq<Label>, s: State, l: Label, c: nat)
    requires Lawful(cfg) && Reachable(cfg, s) && Step(cfg, s, l).Some? && Dated(run, s, c)
    ensures Dated(run + [l], Step(cfg, s, l).value, c)
  {
    var s' := Step(cfg, s, l).value;
    hide BegunAt, Apply, Reachable, Lawful;
    if l.Begin? && l.c == c {
      AuthorsAreDone(cfg, s, l);
      MoveKeepsClock(cfg, s, c, l, s'.calls[c]);
      BeginIsTheLast(run, c, l.now);
      assert run + [l] == run + [Begin(c, l.now)];
    } else {
      OthersKeepDates(cfg, run, s, l, c);
    }
    hide Move;
  }

  lemma OthersKeepDates(cfg: Config, run: seq<Label>, s: State, l: Label, c: nat)
    requires Lawful(cfg) && Reachable(cfg, s) && Step(cfg, s, l).Some? && Dated(run, s, c)
    requires !(l.Begin? && l.c == c)
    ensures Dated(run + [l], Step(cfg, s, l).value, c)
  {
    hide BegunAt, Apply, Reachable, Lawful, Move;
    var s' := Step(cfg, s, l).value;
    forall now | BegunAt(run, c, now)
      ensures BegunAt(run + [l], c, now)
    {
      OtherStepsBeginNothing(run, l, c, now);
    }
    if l.c in s.calls {
      MoveKeepsClock(cfg, s, l.c, l, s'.calls[l.c]);
    }
    if Lands(l) {
      LandIsDated(cfg, s, l);
      CommitIsDated(s.db, l.c, s.calls[l.c].tx.writes, c);
    }
  }

  lemma LandIsDated(cfg: Config, s: State, l: Label)
    requires Lawful(cfg) && Reachable(cfg, s) && Step(cfg, s, l).Some? && Lands(l)
    ensures l.c in s.calls && InTransaction(s.calls[l.c])
    ensures var tx := s.calls[l.c].tx;
      && (tx.writes.transfer.Some? ==> tx.writes.transfer.value.createdAt == tx.now)
      && (tx.writes.wallet.Some? ==> tx.writes.wallet.value.createdAt == tx.now)
  {
    ReachableKeeps(cfg, s);
    hide CallInv, Sound, Authored, Apart, Reachable, Lawful, Apply;
    WritesAreDated(cfg, s.db, l.c, s.calls[l.c]);
  }

  lemma {:induction false} RunKeepsDates(cfg: Config, run: seq<Label>, c: nat)
    requires Lawful(cfg) && Exec(cfg, INIT, run).Some?
    ensures Dated(run, Exec(cfg, INIT, run).value, c)
  {
    hide Step, BegunAt;
    if run != [] {
      var before, l := run[..|run| - 1], run[|run| - 1];
      RunKeepsDates(cfg, before, c);
      assert Reachable(cfg, Exec(cfg, INIT, before).value);
      hide Dated;
      StepKeepsDates(cfg, before, Exec(cfg, INIT, before).value, l, c);
      assert before + [l] == run;
    }
  }

  /** Every committed transfer and wallet is dated by the clock of its author's last transaction, answered or not. */
  lemma RowsAreDated(cfg: Config, run: seq<Label>, s: State, c: nat)
    requires Lawful(cfg) && Exec(cfg, INIT, run) == Some(s)
    ensures c in s.db.transfers ==> BegunAt(run, c, s.db.transfers[c].createdAt)
    ensures c in s.db.wallets ==> BegunAt(run, c, s.db.wallets[c].createdAt)
  {
    RunKeepsDates(cfg, run, c);
    hide BegunAt;
  }

  /** A first answer carries that date, completion included, and a replay that of the transaction that did the work. */
  lemma DocumentsAreDated(cfg: Config, run: seq<Label>, s: State, c: nat, req: Request, doc: Doc, replay: bool)
    returns (k: nat)
    requires Lawful(cfg) && Exec(cfg, INIT, run) == Some(s)
    requires Asked(s, c, req) && Finished(s, c, TransferOk(doc, replay))
    ensures k < |run| && run[k] == Begin(doc.id, doc.createdAt) && doc.completedAt == Some(doc.createdAt)
    ensures forall j | k < j < |run| :: !(run[j].Begin? && run[j].c == doc.id)
    ensures !replay ==> doc.id == c
  {
    assert Reachable(cfg, s);
    TransferAnswer(cfg, s, c, req, doc, replay);
    CommittedTransfer(cfg, s, doc.id);
    RowsAreDated(cfg, run, s, doc.id);
    k :| LastBegun(run, doc.id, k, doc.createdAt);
  }

  /** So does a wallet's document, whichever call it answers. */
  lemma WalletsAreDated(cfg: Config, run: seq<Label>, s: State, c: nat, user: nat, doc: WalletDoc, created: bool)
    returns (k: nat)
    requires Lawful(cfg) && Exec(cfg, INIT, run) == Some(s)
    requires c in s.calls && s.calls[c].op == OpeningWallet(user) && Finished(s, c, WalletOk(doc, created))
    ensures k < |run| && run[k] == Begin(doc.id, doc.createdAt)
    ensures forall j | k < j < |run| :: !(run[j].Begin? && run[j].c == doc.id)
  {
    assert Reachable(cfg, s);
    OneWalletPerUser(cfg, s, c, c, user, doc, doc, created, created);
    RowsAreDated(cfg, run, s, doc.id);
    k :| LastBegun(run, doc.id, k, doc.createdAt);
  }
}
