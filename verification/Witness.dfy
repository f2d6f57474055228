/**
 Why both halves of the locking section are needed: the runs that deadlock without either, and the one that
 deadlocks with both when a wallet id is spelled differently.
 */
module Witness {
  import opened Tables
  import opened Text
  import opened Protocol
  import opened Invariant
  import opened CommitStep
  import opened Progress

  ghost predicate Leads(cfg: Config, s: State, s': State) {
    exists run :: Exec(cfg, s, run) == Some(s')
  }

  lemma LeadsHere(cfg: Config, s: State)
    ensures Leads(cfg, s, s)
  {
    assert Exec(cfg, s, []) == Some(s);
  }

  lemma LeadsOn(cfg: Config, s: State, mid: State, l: Label)
    requires Leads(cfg, s, mid) && Step(cfg, mid, l).Some?
    ensures Leads(cfg, s, Step(cfg, mid, l).value)
  {
    hide Step;
    var run :| Exec(cfg, s, run) == Some(mid);
    assert (run + [l])[..|run|] == run;
    assert Exec(cfg, s, run + [l]) == Step(cfg, mid, l);
  }

  // ---------------------------------------------------------------------------
  // One transfer up to its first wallet lock
  // ---------------------------------------------------------------------------

  /** A request the store will accept in this state, under a key nobody has used or is using. */
  ghost predicate Unhindered(cfg: Config, s: State, c: nat, req: Request) {
    && c !in s.calls
    && ValidRequest(cfg, req) && req.from != req.to
    && req.requester in s.db.users && From(cfg, req) in s.db.wallets && To(cfg, req) in s.db.wallets
    && !Taken(s.db, TransferKey(KeyOf(req))) && Unclaimed(s, c, TransferKey(KeyOf(req)))
    && (forall row | row in ForeignRows(cfg, Transferring(req)) :: Free(s, c, row, KeyShare))
  }

  /** The call as it stands after its insert and foreign-key checks. */
  function Poised(cfg: Config, c: nat, req: Request): Call {
    var locks := map[OfUser(req.requester) := KeyShare, OfWallet(From(cfg, req)) := KeyShare, OfWallet(To(cfg, req)) := KeyShare];
    var tx := FreshTx(0).(claim := Some(TransferKey(KeyOf(req))), locks := locks, writes := OnlyRow(PendingRow(cfg, req, 0)));
    Call(Transferring(req), 0, LockFirst, tx, None)
  }

  function With(s: State, c: nat, call: Call): State {
    s.(calls := s.calls[c := call])
  }

  lemma OtherCallsDecide(s: State, c: nat, call: Call)
    ensures forall row, mode :: Free(s, c, row, mode) ==> Free(With(s, c, call), c, row, mode)
    ensures forall k :: Unclaimed(s, c, k) ==> Unclaimed(With(s, c, call), c, k)
  {
  }

  /** One foreign-key check that is not the last. */
  lemma Check(cfg: Config, s: State, c: nat, call: Call, row: Row, next: Call)
    requires call.pc == Sharing && row in ForeignRows(cfg, call.op) && row !in call.tx.locks && call.op.Transferring?
    requires Exists(s.db, row) && Free(s, c, row, KeyShare)
    requires next == call.(pc := if ForeignRows(cfg, call.op) <= call.tx.locks.Keys + {row} then LockFirst else Sharing,
                           tx := call.tx.(locks := call.tx.locks[row := KeyShare]))
    ensures Step(cfg, With(s, c, call), CheckForeign(c, row)) == Some(With(s, c, next))
  {
    OtherCallsDecide(s, c, call);
    assert call.tx.locks[row := KeyShare].Keys == call.tx.locks.Keys + {row};
    assert s.calls[c := call][c := next] == s.calls[c := next];
  }

  lemma InsertGoesThrough(cfg: Config, s: State, c: nat, req: Request)
    requires Unhindered(cfg, s, c, req)
    ensures Step(cfg, With(s, c, Call(Transferring(req), 0, Claiming, FreshTx(0), None)), Insert(c))
         == Some(With(s, c, Poised(cfg, c, req).(pc := Sharing, tx := Poised(cfg, c, req).tx.(locks := map[]))))
  {
    var call := Call(Transferring(req), 0, Claiming, FreshTx(0), None);
    OtherCallsDecide(s, c, call);
    var next := Poised(cfg, c, req).(pc := Sharing, tx := Poised(cfg, c, req).tx.(locks := map[]));
    assert s.calls[c := call][c := next] == s.calls[c := next];
  }

  /** Any acceptable transfer can arrive and reach its first wallet lock without touching anything else. */
  lemma GetPoised(cfg: Config, s: State, c: nat, req: Request)
    requires Unhindered(cfg, s, c, req)
    ensures Leads(cfg, s, With(s, c, Poised(cfg, c, req)))
  {
    var user, from, to := OfUser(req.requester), OfWallet(From(cfg, req)), OfWallet(To(cfg, req));
    var op := Transferring(req);
    var c0, c1 := Call(op, 0, Start, NO_TX, None), Call(op, 0, Claiming, FreshTx(0), None);
    var last := Poised(cfg, c, req);
    var c2 := last.(pc := Sharing, tx := last.tx.(locks := map[]));
    var c3 := last.(pc := Sharing, tx := last.tx.(locks := map[user := KeyShare]));
    var c4 := last.(pc := Sharing, tx := last.tx.(locks := map[user := KeyShare, from := KeyShare]));
    assert Step(cfg, s, Arrive(c, op)) == Some(With(s, c, c0));
    assert Step(cfg, With(s, c, c0), Begin(c, 0)) == Some(With(s, c, c1)) by {
      assert s.calls[c := c0][c := c1] == s.calls[c := c1];
    }
    InsertGoesThrough(cfg, s, c, req);
    assert user in ForeignRows(cfg, op) && from in ForeignRows(cfg, op) && to in ForeignRows(cfg, op);
    assert c3.tx.locks == map[][user := KeyShare];
    assert c4.tx.locks == c3.tx.locks[from := KeyShare];
    assert last.tx.locks == c4.tx.locks[to := KeyShare];
    assert from !in c3.tx.locks && to !in c4.tx.locks;
    Check(cfg, s, c, c2, user, c3);
    Check(cfg, s, c, c3, from, c4);
    Check(cfg, s, c, c4, to, last);
    hide Step, With, Unhindered, Poised;
    LeadsHere(cfg, s);
    LeadsOn(cfg, s, s, Arrive(c, op));
    LeadsOn(cfg, s, With(s, c, c0), Begin(c, 0));
    LeadsOn(cfg, s, With(s, c, c1), Insert(c));
    LeadsOn(cfg, s, With(s, c, c2), CheckForeign(c, user));
    LeadsOn(cfg, s, With(s, c, c3), CheckForeign(c, from));
    LeadsOn(cfg, s, With(s, c, c4), CheckForeign(c, to));
  }

  // ---------------------------------------------------------------------------
  // Two opposite transfers
  // ---------------------------------------------------------------------------

  /** Two acceptable requests over the same two wallets, one each way, under different keys. */
  ghost predicate Opposite(cfg: Config, s: State, c: nat, d: nat, r: Request, q: Request) {
    && c != d && KeyOf(r) != KeyOf(q)
    && Unhindered(cfg, s, c, r) && Unhindered(cfg, s, d, q)
    && From(cfg, r) == To(cfg, q) && To(cfg, r) == From(cfg, q)
  }

  function BothPoised(cfg: Config, s: State, c: nat, d: nat, r: Request, q: Request): State {
    With(With(s, c, Poised(cfg, c, r)), d, Poised(cfg, d, q))
  }

  lemma SecondIsUnhindered(cfg: Config, s: State, c: nat, d: nat, r: Request, q: Request)
    requires Opposite(cfg, s, c, d, r, q)
    ensures Unhindered(cfg, With(s, c, Poised(cfg, c, r)), d, q)
  {
    hide Taken;
    var s1 := With(s, c, Poised(cfg, c, r));
    assert Unclaimed(s1, d, TransferKey(KeyOf(q)));
    forall row | row in ForeignRows(cfg, Transferring(q))
      ensures Free(s1, d, row, KeyShare)
    {
      assert Free(s, d, row, KeyShare);
    }
  }

  lemma LeadsTogether(cfg: Config, s: State, mid: State, s': State)
    requires Leads(cfg, s, mid) && Leads(cfg, mid, s')
    ensures Leads(cfg, s, s')
  {
    hide Step;
    var first :| Exec(cfg, s, first) == Some(mid);
    var second :| Exec(cfg, mid, second) == Some(s');
    ExecAppends(cfg, s, first, second);
  }

  lemma GetBothPoised(cfg: Config, s: State, c: nat, d: nat, r: Request, q: Request)
    requires Opposite(cfg, s, c, d, r, q)
    ensures Leads(cfg, s, BothPoised(cfg, s, c, d, r, q))
  {
    hide Unhindered, Leads, Poised;
    GetPoised(cfg, s, c, r);
    SecondIsUnhindered(cfg, s, c, d, r, q);
    GetPoised(cfg, With(s, c, Poised(cfg, c, r)), d, q);
    LeadsTogether(cfg, s, With(s, c, Poised(cfg, c, r)), BothPoised(cfg, s, c, d, r, q));
  }

  /** The call has no statement of its own that it can run. */
  ghost predicate Halted(cfg: Config, s: State, c: nat) {
    forall l: Label | l.c == c && Proper(l) :: Step(cfg, s, l).None?
  }

  /** A cycle of two, neither of which can move. */
  ghost predicate Deadlocked(cfg: Config, s: State, c: nat, d: nat) {
    WaitsFor(cfg, s, c, d) && WaitsFor(cfg, s, d, c) && Halted(cfg, s, c) && Halted(cfg, s, d)
  }

  /** A call at a row lock that another holds against it waits for it, and can do nothing else. */
  lemma LockBlocks(cfg: Config, s: State, c: nat, d: nat, w: nat)
    requires c in s.calls && d in s.calls && c != d && s.calls[c].op.Transferring? && w in s.db.wallets
    requires (s.calls[c].pc == LockFirst && w == Lo(cfg, s.calls[c].op.req))
          || (s.calls[c].pc == LockSecond && w == Hi(cfg, s.calls[c].op.req))
    requires OfWallet(w) in s.calls[d].tx.locks && Conflicts(s.calls[d].tx.locks[OfWallet(w)], cfg.mode)
    ensures WaitsFor(cfg, s, c, d) && Halted(cfg, s, c)
  {
    hide Lo, Hi, ForeignRows, Taken, Unclaimed, WriteBalance;
    assert WaitsOnRow(cfg, s.db, s.calls[c], s.calls[d], OfWallet(w));
    assert !Free(s, c, OfWallet(w), cfg.mode);
  }

  /**
   FOR UPDATE deadlocks, sorted or not: each transfer already shares both rows for its foreign keys, so
   neither can upgrade its first lock past the other.
   */
  lemma ForUpdateDeadlocks(cfg: Config, s: State, c: nat, d: nat, r: Request, q: Request) returns (s': State)
    requires cfg.mode == Update && Opposite(cfg, s, c, d, r, q)
    ensures Leads(cfg, s, s') && Deadlocked(cfg, s', c, d)
  {
    GetBothPoised(cfg, s, c, d, r, q);
    s' := BothPoised(cfg, s, c, d, r, q);
    assert Lo(cfg, r) in s.db.wallets && Lo(cfg, q) in s.db.wallets by { hide Taken, Free, Unclaimed; }
    hide Leads, Unhindered, Halted, WaitsFor, Step;
    LockBlocks(cfg, s', c, d, Lo(cfg, r));
    LockBlocks(cfg, s', d, c, Lo(cfg, q));
  }

  /** The call after its first wallet lock. */
  function Gripping(cfg: Config, db: Tables, c: nat, req: Request): Call {
    var p := Poised(cfg, c, req);
    var w := Lo(cfg, req);
    p.(pc := LockSecond, tx := p.tx.(locks := p.tx.locks[OfWallet(w) := cfg.mode], read := map[cfg.canon(w) := Balance(db, w)]))
  }

  lemma Grip(cfg: Config, s: State, c: nat, req: Request)
    requires cfg.mode == NoKeyUpdate && c in s.calls && s.calls[c] == Poised(cfg, c, req)
    requires Lo(cfg, req) in s.db.wallets && Free(s, c, OfWallet(Lo(cfg, req)), NoKeyUpdate)
    ensures Step(cfg, s, LockWallet(c)) == Some(With(s, c, Gripping(cfg, s.db, c, req)))
  {
    assert map[][cfg.canon(Lo(cfg, req)) := Balance(s.db, Lo(cfg, req))] == map[cfg.canon(Lo(cfg, req)) := Balance(s.db, Lo(cfg, req))];
  }

  /** Nobody but `c` and `d` is at work on the two wallets. */
  ghost predicate Idle(s: State, c: nat, row: Row) {
    Free(s, c, row, NoKeyUpdate)
  }

  /** Two more calls are at work than before, on these two requests, and nobody else has changed. */
  predicate JoinedBy(s: State, s': State, c: nat, d: nat, r: Request, q: Request) {
    && s'.calls.Keys == s.calls.Keys + {c, d}
    && s'.calls[c].op == Transferring(r) && s'.calls[d].op == Transferring(q)
    && forall x | x in s.calls && x != c && x != d :: s'.calls[x] == s.calls[x]
  }

  /** NO KEY UPDATE deadlocks as soon as two transfers lock the same two wallets in opposite orders. */
  lemma OppositeOrdersDeadlock(cfg: Config, s: State, c: nat, d: nat, r: Request, q: Request) returns (s': State)
    requires cfg.mode == NoKeyUpdate && Opposite(cfg, s, c, d, r, q)
    requires Lo(cfg, r) == Hi(cfg, q) && Hi(cfg, r) == Lo(cfg, q) && Lo(cfg, r) != Lo(cfg, q)
    requires Idle(s, c, OfWallet(Lo(cfg, r))) && Idle(s, d, OfWallet(Lo(cfg, q)))
    ensures Leads(cfg, s, s') && Deadlocked(cfg, s', c, d) && JoinedBy(s, s', c, d, r, q)
  {
    hide Leads, Step, Unhindered, Free, Poised, Halted, WaitsFor, JoinedBy, Gripping;
    GetBothPoised(cfg, s, c, d, r, q);
    var s1 := BothPoised(cfg, s, c, d, r, q);
    GripsBoth(cfg, s, c, d, r, q);
    var s2 := With(s1, c, Gripping(cfg, s.db, c, r));
    s' := With(s2, d, Gripping(cfg, s.db, d, q));
    GrippedAreJoined(cfg, s, c, d, r, q);
    LeadsOn(cfg, s, s1, LockWallet(c));
    LeadsOn(cfg, s, s2, LockWallet(d));
    CrossedGripsWait(cfg, s', c, d, r, q);
    CrossedGripsWait(cfg, s', d, c, q, r);
  }

  lemma GrippedAreJoined(cfg: Config, s: State, c: nat, d: nat, r: Request, q: Request)
    requires c != d
    ensures var s2 := With(BothPoised(cfg, s, c, d, r, q), c, Gripping(cfg, s.db, c, r));
      JoinedBy(s, With(s2, d, Gripping(cfg, s.db, d, q)), c, d, r, q)
  {
  }

  /** A transfer that wants its second row is stopped by the one that gripped that row first. */
  lemma CrossedGripsWait(cfg: Config, s: State, c: nat, d: nat, r: Request, q: Request)
    requires cfg.mode == NoKeyUpdate && c != d && c in s.calls && d in s.calls
    requires s.calls[c] == Gripping(cfg, s.db, c, r) && s.calls[d] == Gripping(cfg, s.db, d, q)
    requires Hi(cfg, r) == Lo(cfg, q) && Hi(cfg, r) in s.db.wallets
    ensures WaitsFor(cfg, s, c, d) && Halted(cfg, s, c)
  {
    hide Lo, Hi, Halted, WaitsFor;
    LockBlocks(cfg, s, c, d, Hi(cfg, r));
  }

  lemma GripsBoth(cfg: Config, s: State, c: nat, d: nat, r: Request, q: Request)
    requires cfg.mode == NoKeyUpdate && Opposite(cfg, s, c, d, r, q)
    requires Lo(cfg, r) == Hi(cfg, q) && Hi(cfg, r) == Lo(cfg, q) && Lo(cfg, r) != Lo(cfg, q)
    requires Idle(s, c, OfWallet(Lo(cfg, r))) && Idle(s, d, OfWallet(Lo(cfg, q)))
    ensures var s1 := BothPoised(cfg, s, c, d, r, q);
      var s2 := With(s1, c, Gripping(cfg, s.db, c, r));
      && Lo(cfg, r) in s.db.wallets && Lo(cfg, q) in s.db.wallets
      && Step(cfg, s1, LockWallet(c)) == Some(s2)
      && Step(cfg, s2, LockWallet(d)) == Some(With(s2, d, Gripping(cfg, s.db, d, q)))
  {
    hide Taken, Unclaimed, PendingRow, Step;
    var s1 := BothPoised(cfg, s, c, d, r, q);
    var s2 := With(s1, c, Gripping(cfg, s.db, c, r));
    assert Lo(cfg, r) in s.db.wallets && Lo(cfg, q) in s.db.wallets by { hide Taken, Free, Unclaimed; }
    hide Unhindered;
    assert Free(s1, c, OfWallet(Lo(cfg, r)), NoKeyUpdate);
    assert Free(s2, d, OfWallet(Lo(cfg, q)), NoKeyUpdate);
    hide Free;
    Grip(cfg, s1, c, r);
    Grip(cfg, s2, d, q);
  }

  /** Dropping the ascending order deadlocks A to B against B to A. */
  lemma UnsortedDeadlocks(cfg: Config, s: State, c: nat, d: nat, r: Request, q: Request) returns (s': State)
    requires cfg.mode == NoKeyUpdate && !cfg.sorted && Opposite(cfg, s, c, d, r, q)
    requires Idle(s, c, OfWallet(From(cfg, r))) && Idle(s, d, OfWallet(From(cfg, q)))
    ensures Leads(cfg, s, s') && Deadlocked(cfg, s', c, d)
  {
    hide Leads, Deadlocked;
    s' := OppositeOrdersDeadlock(cfg, s, c, d, r, q);
  }

  /**
   The shipped section itself deadlocks when two opposite requests are spelled so that both ascend, or both
   descend: the order is taken on the request's text, the locks on the server's rows.
   */
  lemma SpellingDeadlocks(cfg: Config, s: State, c: nat, d: nat, r: Request, q: Request) returns (s': State)
    requires AsShipped(cfg) && Opposite(cfg, s, c, d, r, q)
    requires Less(r.from, r.to) <==> Less(q.from, q.to)
    requires Idle(s, c, OfWallet(Lo(cfg, r))) && Idle(s, d, OfWallet(Lo(cfg, q)))
    ensures Leads(cfg, s, s') && Deadlocked(cfg, s', c, d) && JoinedBy(s, s', c, d, r, q)
  {
    LessEitherWay(r.from, r.to);
    LessEitherWay(q.from, q.to);
    hide Leads, Deadlocked, JoinedBy;
    s' := OppositeOrdersDeadlock(cfg, s, c, d, r, q);
  }

  lemma LessEitherWay(a: string, b: string)
    requires a != b
    ensures Less(a, b) <==> !Less(b, a)
  {
    LessIsTotal(a, b);
    if Less(a, b) && Less(b, a) {
      LessIsTransitive(a, b, a);
      LessIsIrreflexive(a);
    }
  }
}
