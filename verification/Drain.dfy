/** Many transfers racing for one wallet: exactly as many succeed as its balance can fund. */
module Drain {
  import opened Tables
  import opened Text
  import opened Protocol
  import opened Invariant
  import opened Landing
  import opened CommitStep
  import opened History
  import opened Guarantees

  // ---------------------------------------------------------------------------
  // What one commit does to the transfers and balances
  // ---------------------------------------------------------------------------

  predicate Touches(cfg: Config, op: Op, w: nat) {
    match op
    case Transferring(req) => cfg.parse(req.from) == Some(w) || cfg.parse(req.to) == Some(w)
    case Minting(wallet, _, _) => cfg.parse(wallet) == Some(w)
    case _ => false
  }

  /** The committed row of a transfer decides by the committed source balance, and moves money only if it succeeds. */
  lemma TransferCommitEffect(cfg: Config, db: Tables, c: nat, call: Call, w: nat)
    requires Lawful(cfg) && CallInv(cfg, db, c, call) && call.pc.Committing? && call.op.Transferring?
    ensures var db' := Apply(db, c, call.tx.writes);
      var req := call.op.req;
      && ValidRequest(cfg, req)
      && c !in db.transfers && c in db'.transfers && db'.transfers == db.transfers[c := db'.transfers[c]]
      && db'.transfers[c].from == From(cfg, req)
      && db'.transfers[c].status == (if Payable(cfg, db, req) then Succeeded else Declined)
      && Balance(db', w) == Balance(db, w) + (
           if !Payable(cfg, db, req) then 0
           else if w == From(cfg, req) then -req.amount
           else if w == To(cfg, req) then req.amount
           else 0)
  {
    hide OutcomeInv, Provenance, Taken, TransferReads;
    var req, tx := call.op.req, call.tx;
    var from, to := From(cfg, req), To(cfg, req);
    assert OfWallet(from) in tx.locks && OfWallet(to) in tx.locks;
    assert Exists(db, OfWallet(from)) && Exists(db, OfWallet(to));
    if Moving(cfg, db, c, req, tx) {
      ApplyMoved(cfg, db, c, req, tx);
    } else {
      ApplyRow(db, c, tx.writes.transfer.value);
    }
  }

  lemma OtherCommitEffect(cfg: Config, db: Tables, c: nat, call: Call, w: nat)
    requires Lawful(cfg) && CallInv(cfg, db, c, call) && call.pc.Committing? && !call.op.Transferring?
    requires w in db.wallets && (call.op.Minting? ==> Id(cfg, call.op.wallet) != w)
    ensures Apply(db, c, call.tx.writes).transfers == db.transfers
    ensures Balance(Apply(db, c, call.tx.writes), w) == Balance(db, w)
  {
    hide OutcomeInv, Provenance, Taken;
    assert c !in db.wallets;
    if call.tx.writes == NO_WRITES {
      ApplyNothing(db, c);
    } else if call.op.Minting? {
      ApplyMint(cfg, db, c, call);
    }
  }

  // ---------------------------------------------------------------------------
  // The race
  // ---------------------------------------------------------------------------

  predicate Over(s: State, c: nat) {
    c in s.calls && s.calls[c].pc.Done?
  }

  /** Since `s0`, the only calls touching `w` are transfers of `a` out of it, naming it canonically. */
  ghost predicate OnlyDrains(cfg: Config, s0: State, s: State, w: nat, a: int) {
    forall c | c in s.calls && !Over(s0, c) && Touches(cfg, s.calls[c].op, w) :: Drains(cfg, s.calls[c].op, w, a)
  }

  predicate Drains(cfg: Config, op: Op, w: nat, a: int) {
    && op.Transferring?
    && cfg.parse(op.req.from) == Some(w) && op.req.from == cfg.canon(w)
    && cfg.parse(op.req.to) != Some(w)
    && op.req.amount == a
  }

  /** The transfers out of `w` committed since `s0` that ended this way. */
  function Since(s0: State, s: State, w: nat, status: Status): set<nat> {
    set t | t in s.db.transfers && t !in s0.db.transfers && s.db.transfers[t].from == w && s.db.transfers[t].status == status
  }

  ghost predicate Draining(s0: State, s: State, w: nat, a: int) {
    && w in s.db.wallets
    && s0.db.transfers.Keys <= s.db.transfers.Keys
    && Balance(s.db, w) == Balance(s0.db, w) - a * |Since(s0, s, w, Succeeded)|
    && (Since(s0, s, w, Declined) != {} ==> Balance(s.db, w) < a)
  }

  lemma SameTransfersSameRace(s0: State, s: State, s': State, w: nat, a: int)
    requires Draining(s0, s, w, a)
    requires s'.db.transfers == s.db.transfers && Balance(s'.db, w) == Balance(s.db, w) && w in s'.db.wallets
    ensures Draining(s0, s', w, a)
  {
    assert Since(s0, s', w, Succeeded) == Since(s0, s, w, Succeeded);
    assert Since(s0, s', w, Declined) == Since(s0, s, w, Declined);
  }

  lemma RowJoinsRace(s0: State, s: State, s': State, c: nat, w: nat, status: Status)
    requires c !in s.db.transfers && c in s'.db.transfers && s'.db.transfers == s.db.transfers[c := s'.db.transfers[c]]
    requires s0.db.transfers.Keys <= s.db.transfers.Keys
    ensures Since(s0, s', w, status)
         == Since(s0, s, w, status) + if s'.db.transfers[c].from == w && s'.db.transfers[c].status == status then {c} else {}
    ensures c !in Since(s0, s, w, status)
  {
  }

  lemma TransferKeepsRace(cfg: Config, s0: State, s: State, s': State, c: nat, w: nat, a: int)
    requires Lawful(cfg) && c in s.calls && CallInv(cfg, s.db, c, s.calls[c])
    requires s.calls[c].pc.Committing? && s.calls[c].op.Transferring?
    requires Draining(s0, s, w, a) && a > 0
    requires Touches(cfg, s.calls[c].op, w) ==> Drains(cfg, s.calls[c].op, w, a)
    requires s'.db == Apply(s.db, c, s.calls[c].tx.writes) && w in s'.db.wallets
    ensures Draining(s0, s', w, a)
  {
    hide CallInv;
    TransferCommitEffect(cfg, s.db, c, s.calls[c], w);
    RowJoinsRace(s0, s, s', c, w, Succeeded);
    RowJoinsRace(s0, s, s', c, w, Declined);
    hide Since, Apply;
    var req := s.calls[c].op.req;
    assert w == From(cfg, req) ==> (Payable(cfg, s.db, req) <==> Balance(s.db, w) >= a) && req.amount == a;
    assert w != To(cfg, req);
    RaceArithmetic(s0, s, s', c, w, a, w == From(cfg, req), Payable(cfg, s.db, req));
  }

  lemma RaceArithmetic(s0: State, s: State, s': State, c: nat, w: nat, a: int, ours: bool, paid: bool)
    requires Draining(s0, s, w, a) && a > 0 && w in s'.db.wallets && s0.db.transfers.Keys <= s'.db.transfers.Keys
    requires c !in Since(s0, s, w, Succeeded)
    requires Since(s0, s', w, Succeeded) == Since(s0, s, w, Succeeded) + if ours && paid then {c} else {}
    requires Since(s0, s', w, Declined) == Since(s0, s, w, Declined) + if ours && !paid then {c} else {}
    requires Balance(s'.db, w) == Balance(s.db, w) - if ours && paid then a else 0
    requires ours ==> (paid <==> Balance(s.db, w) >= a)
    ensures Draining(s0, s', w, a)
  {
    hide Since, Balance;
    var n := |Since(s0, s, w, Succeeded)|;
    assert a * (n + 1) == a * n + a;
    if ours && paid {
      assert |Since(s0, s', w, Succeeded)| == n + 1;
    } else {
      assert Since(s0, s', w, Succeeded) == Since(s0, s, w, Succeeded);
    }
  }

  lemma StepKeepsRace(cfg: Config, s0: State, s: State, l: Label, w: nat, a: int)
    requires Lawful(cfg) && Inv(cfg, s) && Step(cfg, s, l).Some?
    requires Draining(s0, s, w, a) && a > 0
    requires OnlyDrains(cfg, s0, s, w, a) && Remembers(s0, s)
    ensures Draining(s0, Step(cfg, s, l).value, w, a)
  {
    hide Sound, Authored, Apart, Draining, CallInv, Touches, Drains, Apply, Lawful, Move;
    var s' := Step(cfg, s, l).value;
    StepRemembers(cfg, s, l);
    DrainingWallet(s0, s, w, a);
    if Lands(l) {
      LandsFromCommitting(cfg, s, l);
      assert !Over(s0, l.c);
      hide Remembers, Inv;
      LandKeepsRace(cfg, s0, s, s', l.c, w, a);
    } else {
      SameTransfersSameRace(s0, s, s', w, a);
    }
  }

  lemma LandsFromCommitting(cfg: Config, s: State, l: Label)
    requires Step(cfg, s, l).Some? && Lands(l)
    ensures l.c in s.calls && s.calls[l.c].pc.Committing?
  {
    hide Apply;
  }

  lemma LandKeepsRace(cfg: Config, s0: State, s: State, s': State, c: nat, w: nat, a: int)
    requires Lawful(cfg) && c in s.calls && CallInv(cfg, s.db, c, s.calls[c]) && s.calls[c].pc.Committing?
    requires Draining(s0, s, w, a) && a > 0 && w in s.db.wallets && w in s'.db.wallets
    requires Touches(cfg, s.calls[c].op, w) ==> Drains(cfg, s.calls[c].op, w, a)
    requires s'.db == Apply(s.db, c, s.calls[c].tx.writes)
    ensures Draining(s0, s', w, a)
  {
    hide CallInv, Draining, Apply, Lawful;
    var call := s.calls[c];
    if call.op.Transferring? {
      TransferKeepsRace(cfg, s0, s, s', c, w, a);
    } else {
      MintsElsewhere(cfg, call, c, s.db, w, a);
      OtherCommitEffect(cfg, s.db, c, call, w);
      SameTransfersSameRace(s0, s, s', w, a);
    }
  }

  lemma DrainingWallet(s0: State, s: State, w: nat, a: int)
    requires Draining(s0, s, w, a)
    ensures w in s.db.wallets
  {
  }

  lemma MintsElsewhere(cfg: Config, call: Call, c: nat, db: Tables, w: nat, a: int)
    requires CallInv(cfg, db, c, call) && call.pc.Committing? && w in db.wallets
    requires Touches(cfg, call.op, w) ==> Drains(cfg, call.op, w, a)
    ensures call.op.Minting? ==> Id(cfg, call.op.wallet) != w
  {
  }

  lemma {:induction false} RunKeepsRace(cfg: Config, s0: State, run: seq<Label>, w: nat, a: int)
    requires Lawful(cfg) && Inv(cfg, s0) && w in s0.db.wallets && a > 0
    requires Exec(cfg, s0, run).Some? && OnlyDrains(cfg, s0, Exec(cfg, s0, run).value, w, a)
    ensures Draining(s0, Exec(cfg, s0, run).value, w, a)
  {
    hide Inv, Step, Draining, OnlyDrains;
    if run == [] {
      StartOfRace(s0, w, a);
    } else {
      var before := run[..|run| - 1];
      var mid := Exec(cfg, s0, before).value;
      RunKeeps(cfg, s0, before);
      StepRemembers(cfg, mid, run[|run| - 1]);
      FewerCallsDrainToo(cfg, s0, mid, Exec(cfg, s0, run).value, w, a);
      RunKeepsRace(cfg, s0, before, w, a);
      RunRemembers(cfg, s0, before);
      StepKeepsRace(cfg, s0, mid, run[|run| - 1], w, a);
    }
  }

  lemma StartOfRace(s0: State, w: nat, a: int)
    requires w in s0.db.wallets
    ensures Draining(s0, s0, w, a)
  {
    assert Since(s0, s0, w, Succeeded) == {} && Since(s0, s0, w, Declined) == {};
  }

  lemma FewerCallsDrainToo(cfg: Config, s0: State, s: State, s': State, w: nat, a: int)
    requires Remembers(s, s') && OnlyDrains(cfg, s0, s', w, a)
    ensures OnlyDrains(cfg, s0, s, w, a)
  {
    hide Touches, Drains;
  }

  /** Calls of the race: those that started or went on after `s0` and touch `w`. */
  ghost predicate IsBatch(cfg: Config, s0: State, s: State, w: nat, batch: set<nat>) {
    forall c :: c in batch <==> c in s.calls && !Over(s0, c) && Touches(cfg, s.calls[c].op, w)
  }

  /** Call `c` was told that it did the work itself, with this result. */
  predicate ToldFresh(s: State, c: nat, status: Status) {
    Over(s, c) && s.calls[c].pc.outcome.TransferOk? && !s.calls[c].pc.outcome.replay
    && s.calls[c].pc.outcome.doc.status == status
  }

  /**
   From a source balance B, n transfers of `a` out of that wallet and nothing else on it, all completing
   without error in whatever interleaving: exactly min(n, B / a) succeed, the rest are declined, and the
   balance that remains is B less what was paid.
   */
  lemma ExactlyTheFundable(cfg: Config, s0: State, run: seq<Label>, s: State, w: nat, a: int, batch: set<nat>)
    returns (won: set<nat>)
    requires Lawful(cfg) && Reachable(cfg, s0) && Exec(cfg, s0, run) == Some(s) && Reachable(cfg, s)
    requires w in s0.db.wallets && a > 0
    requires OnlyDrains(cfg, s0, s, w, a) && IsBatch(cfg, s0, s, w, batch)
    requires forall c | c in batch :: ToldFresh(s, c, Succeeded) || ToldFresh(s, c, Declined)
    ensures won == set c | c in batch && ToldFresh(s, c, Succeeded)
    ensures forall c | c in batch - won :: ToldFresh(s, c, Declined)
    ensures var n, most := |batch|, Balance(s0.db, w) / a; |won| == if n < most then n else most
    ensures Balance(s.db, w) == Balance(s0.db, w) - a * |won|
  {
    RaceResult(cfg, s0, run, s, w, a);
    won := Since(s0, s, w, Succeeded);
    var lost := Since(s0, s, w, Declined);
    hide Exec, Reachable, Since, Lawful;
    RaceMembers(cfg, s0, s, w, a, batch);
    hide OnlyDrains, IsBatch, Balance, Remembers;
    Tally(Balance(s0.db, w), a, batch, won, lost, Balance(s.db, w));
  }

  lemma Tally(b: int, a: int, batch: set<nat>, won: set<nat>, lost: set<nat>, rest: int)
    requires a > 0 && rest >= 0 && rest == b - a * |won| && (|lost| > 0 ==> rest < a)
    requires won !! lost && forall c :: c in batch <==> c in won || c in lost
    ensures var n, most := |batch|, b / a; |won| == if n < most then n else most
  {
    assert batch == won + lost;
    Division(b, a, |won|, |lost|, rest);
  }

  lemma RaceResult(cfg: Config, s0: State, run: seq<Label>, s: State, w: nat, a: int)
    requires Lawful(cfg) && Reachable(cfg, s0) && Exec(cfg, s0, run) == Some(s) && Reachable(cfg, s)
    requires w in s0.db.wallets && a > 0 && OnlyDrains(cfg, s0, s, w, a)
    ensures Remembers(s0, s) && Balance(s.db, w) >= 0
    ensures Balance(s.db, w) == Balance(s0.db, w) - a * |Since(s0, s, w, Succeeded)|
    ensures |Since(s0, s, w, Declined)| > 0 ==> Balance(s.db, w) < a
  {
    ReachableKeeps(cfg, s0);
    ReachableKeeps(cfg, s);
    assert Balance(s.db, w) >= 0 by { hide CallInv, Unique, References, DoubleEntry, Apart, Authored; }
    hide Inv, Reachable, OnlyDrains, Lawful;
    RunKeepsRace(cfg, s0, run, w, a);
    RunRemembers(cfg, s0, run);
    hide Exec, Since, Balance, Remembers;
  }

  lemma RaceMembers(cfg: Config, s0: State, s: State, w: nat, a: int, batch: set<nat>)
    requires Lawful(cfg) && Reachable(cfg, s) && Remembers(s0, s) && Reachable(cfg, s0)
    requires OnlyDrains(cfg, s0, s, w, a) && IsBatch(cfg, s0, s, w, batch)
    requires forall d | d in batch :: ToldFresh(s, d, Succeeded) || ToldFresh(s, d, Declined)
    ensures Since(s0, s, w, Succeeded) == set c | c in batch && ToldFresh(s, c, Succeeded)
    ensures Since(s0, s, w, Declined) == set c | c in batch && ToldFresh(s, c, Declined)
    ensures Since(s0, s, w, Succeeded) !! Since(s0, s, w, Declined)
  {
    forall c: nat
      ensures c in Since(s0, s, w, Succeeded) <==> c in batch && ToldFresh(s, c, Succeeded)
      ensures c in Since(s0, s, w, Declined) <==> c in batch && ToldFresh(s, c, Declined)
    {
      RacersAreRows(cfg, s0, s, w, a, batch, c);
    }
    hide Reachable, Remembers, OnlyDrains, IsBatch, Lawful;
  }

  /** The batch and the new rows out of `w` are the same set, told as the rows say. */
  lemma RacersAreRows(cfg: Config, s0: State, s: State, w: nat, a: int, batch: set<nat>, c: nat)
    requires Lawful(cfg) && Reachable(cfg, s) && Remembers(s0, s)
    requires Reachable(cfg, s0)
    requires OnlyDrains(cfg, s0, s, w, a) && IsBatch(cfg, s0, s, w, batch)
    requires forall d | d in batch :: ToldFresh(s, d, Succeeded) || ToldFresh(s, d, Declined)
    ensures c in Since(s0, s, w, Succeeded) <==> c in batch && ToldFresh(s, c, Succeeded)
    ensures c in Since(s0, s, w, Declined) <==> c in batch && ToldFresh(s, c, Declined)
  {
    hide Reachable, Fingerprint;
    if c in batch {
      assert Drains(cfg, s.calls[c].op, w, a);
      TransferAnswer(cfg, s, c, s.calls[c].op.req, s.calls[c].pc.outcome.doc, false);
      if c in s0.db.transfers {
        AuthorHolds(cfg, s0, c);
      }
    }
    if c in s.db.transfers && c !in s0.db.transfers && s.db.transfers[c].from == w {
      CommittedTransfer(cfg, s, c);
      assert !Over(s0, c);
    }
  }

  lemma Division(b: int, a: int, won: nat, lost: nat, rest: int)
    requires a > 0 && rest >= 0 && rest == b - a * won && (lost > 0 ==> rest < a)
    ensures won == if won + lost < b / a then won + lost else b / a
  {
    assert b == a * won + rest;
    Quotient(a, won, rest);
  }

  lemma Quotient(a: int, q: nat, r: int)
    requires a > 0 && r >= 0
    ensures (a * q + r) / a >= q && (r < a ==> (a * q + r) / a == q)
  {
    var total := a * q + r;
    var k, m := total / a, total % a;
    assert total == a * k + m && 0 <= m < a;
    var d := k - q;
    Distribute(a, k, q);
    if d <= -1 {
      Scale(a, d, -1);
    } else if d >= 1 {
      Scale(a, 1, d);
    }
  }

  lemma Distribute(a: int, k: int, q: int)
    ensures a * (k - q) == a * k - a * q
  {
  }

  lemma Scale(a: int, x: int, y: int)
    requires a > 0 && x <= y
    ensures a * x <= a * y
  {
  }
}
