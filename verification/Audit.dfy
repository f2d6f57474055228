/** `CheckInvariants`: the live audit, and why it can never report a violation. */
module Audit {
  import opened Tables
  import opened Protocol
  import opened Invariant
  import opened CommitStep
  import opened History
  import opened Sums

  // ---------------------------------------------------------------------------
  // The aggregate queries
  // ---------------------------------------------------------------------------

  function Minted(mints: seq<Mint>): int {
    if mints == [] then 0 else Minted(mints[..|mints| - 1]) + mints[|mints| - 1].amount
  }

  function LedgerSum(ledger: seq<Entry>): int {
    if ledger == [] then 0 else LedgerSum(ledger[..|ledger| - 1]) + ledger[|ledger| - 1].delta
  }

  function WithStatus(db: Tables, status: Status): set<nat> {
    set t | t in db.transfers && db.transfers[t].status == status
  }

  function Negative(db: Tables): set<nat> {
    set w | w in db.wallets && db.wallets[w].balance < 0
  }

  datatype Report = Report(
    wallets: nat, totalBalance: int, totalMinted: int, ledgerSum: int,
    negative: nat, succeeded: nat, declined: nat, pending: nat)
  {
    predicate Conservation() { totalBalance == totalMinted && ledgerSum == 0 }
    predicate NoOverdraft() { negative == 0 }
    predicate AllHold() { Conservation() && NoOverdraft() && pending == 0 }
  }

  predicate IsInt64(n: int) { -INT64_MAX - 1 <= n <= INT64_MAX }

  /** The eight sub-selects; `sum` yields a numeric, and the scan fails if it does not fit an int64. */
  ghost function CheckInvariants(db: Tables): Option<Report> {
    var r := Report(
      |db.wallets|, Total(Balances(db)), Minted(db.mints), LedgerSum(db.ledger),
      |Negative(db)|, |WithStatus(db, Succeeded)|, |WithStatus(db, Declined)|, |WithStatus(db, Pending)|);
    if IsInt64(r.totalBalance) && IsInt64(r.totalMinted) && IsInt64(r.ledgerSum) then Some(r) else None
  }

  // ---------------------------------------------------------------------------
  // Summing the per-wallet and per-transfer facts
  // ---------------------------------------------------------------------------

  function FundedBy(wallets: set<nat>, mints: seq<Mint>): map<nat, int> {
    map w | w in wallets :: Funded(mints, w)
  }

  function MovedBy(wallets: set<nat>, ledger: seq<Entry>): map<nat, int> {
    map w | w in wallets :: Moved(ledger, w)
  }

  function SumsBy(transfers: set<nat>, ledger: seq<Entry>): map<nat, int> {
    map t | t in transfers :: LedgerSum(EntriesOf(ledger, t))
  }

  lemma {:induction false} MintsSplitByWallet(wallets: set<nat>, mints: seq<Mint>)
    requires forall i | 0 <= i < |mints| :: mints[i].wallet in wallets
    ensures Total(FundedBy(wallets, mints)) == Minted(mints)
  {
    if mints == [] {
      TotalOfZeros(FundedBy(wallets, mints));
    } else {
      var before, m := mints[..|mints| - 1], mints[|mints| - 1];
      MintsSplitByWallet(wallets, before);
      TotalUpdate(FundedBy(wallets, before), m.wallet, Funded(before, m.wallet) + m.amount);
      assert FundedBy(wallets, mints) == FundedBy(wallets, before)[m.wallet := Funded(before, m.wallet) + m.amount];
    }
  }

  lemma {:induction false} LedgerSplitsByWallet(wallets: set<nat>, ledger: seq<Entry>)
    requires forall i | 0 <= i < |ledger| :: ledger[i].wallet in wallets
    ensures Total(MovedBy(wallets, ledger)) == LedgerSum(ledger)
  {
    if ledger == [] {
      TotalOfZeros(MovedBy(wallets, ledger));
    } else {
      var before, e := ledger[..|ledger| - 1], ledger[|ledger| - 1];
      LedgerSplitsByWallet(wallets, before);
      TotalUpdate(MovedBy(wallets, before), e.wallet, Moved(before, e.wallet) + e.delta);
      assert MovedBy(wallets, ledger) == MovedBy(wallets, before)[e.wallet := Moved(before, e.wallet) + e.delta];
    }
  }

  lemma EntrySumAppend(ledger: seq<Entry>, e: Entry, t: nat)
    ensures LedgerSum(EntriesOf(ledger + [e], t)) == LedgerSum(EntriesOf(ledger, t)) + if e.transfer == t then e.delta else 0
  {
    EntriesAppend(ledger, e, t);
    var own := EntriesOf(ledger, t);
    assert (own + [e])[..|own|] == own;
    assert own + [] == own;
  }

  lemma {:induction false} LedgerSplitsByTransfer(transfers: set<nat>, ledger: seq<Entry>)
    requires forall i | 0 <= i < |ledger| :: ledger[i].transfer in transfers
    ensures Total(SumsBy(transfers, ledger)) == LedgerSum(ledger)
  {
    if ledger == [] {
      TotalOfZeros(SumsBy(transfers, ledger));
    } else {
      var before, e := ledger[..|ledger| - 1], ledger[|ledger| - 1];
      LedgerSplitsByTransfer(transfers, before);
      var sums := SumsBy(transfers, before);
      assert ledger == before + [e];
      hide EntriesOf;
      forall t | t in transfers
        ensures LedgerSum(EntriesOf(ledger, t)) == sums[t] + if e.transfer == t then e.delta else 0
      {
        EntrySumAppend(before, e, t);
      }
      TotalUpdate(sums, e.transfer, sums[e.transfer] + e.delta);
      assert SumsBy(transfers, ledger) == sums[e.transfer := sums[e.transfer] + e.delta];
    }
  }

  /** The total of a pointwise sum is the sum of the totals. */
  lemma {:induction false} TotalAdds(a: map<nat, int>, b: map<nat, int>, c: map<nat, int>)
    requires a.Keys == b.Keys == c.Keys && forall k | k in c :: c[k] == a[k] + b[k]
    ensures Total(c) == Total(a) + Total(b)
    decreases |c|
  {
    if c != map[] {
      var k :| k in c;
      TotalPick(a, k);
      TotalPick(b, k);
      TotalPick(c, k);
      TotalAdds(a - {k}, b - {k}, c - {k});
    }
  }

  /** A double-entry ledger nets to zero: every row belongs to a transfer whose two rows cancel. */
  lemma LedgerNetsToZero(db: Tables)
    requires References(db) && DoubleEntry(db)
    ensures LedgerSum(db.ledger) == 0
  {
    var sums := SumsBy(db.transfers.Keys, db.ledger);
    forall t | t in db.transfers
      ensures sums[t] == 0
    {
      var row := db.transfers[t];
      PairCancels(t, row.from, row.to, row.amount);
    }
    LedgerSplitsByTransfer(db.transfers.Keys, db.ledger);
    TotalOfZeros(sums);
  }

  lemma PairCancels(t: nat, from: nat, to: nat, amount: int)
    ensures LedgerSum(Pair(t, from, to, amount)) == 0
  {
    var pair := Pair(t, from, to, amount);
    assert pair[..1] == [pair[0]] && [pair[0]][..0] == [];
    assert LedgerSum([pair[0]]) == pair[0].delta;
  }

  /** Conservation in total follows from each wallet being explained by its own history. */
  lemma Conserved(db: Tables)
    requires References(db) && DoubleEntry(db) && Explained(db)
    ensures Total(Balances(db)) == Minted(db.mints)
  {
    var wallets := db.wallets.Keys;
    MintsSplitByWallet(wallets, db.mints);
    LedgerSplitsByWallet(wallets, db.ledger);
    LedgerNetsToZero(db);
    hide References, DoubleEntry;
    TotalAdds(FundedBy(wallets, db.mints), MovedBy(wallets, db.ledger), Balances(db));
  }

  // ---------------------------------------------------------------------------
  // The audit of a reachable state
  // ---------------------------------------------------------------------------

  /** In every reachable state each wallet's balance is exactly its mints plus its ledger deltas, and not negative. */
  lemma EveryBalanceIsExplained(cfg: Config, s: State, w: nat)
    requires Lawful(cfg) && Reachable(cfg, s) && w in s.db.wallets
    ensures s.db.wallets[w].balance == Funded(s.db.mints, w) + Moved(s.db.ledger, w)
    ensures 0 <= s.db.wallets[w].balance <= 0x7fff_ffff_ffff_ffff
  {
    ReachableKeeps(cfg, s);
    hide CallInv, Apart, Authored, Unique, References, DoubleEntry;
  }

  /**
   The audit never reports a violation, in any committed state of any run. It fails to answer exactly when
   more money has been minted than an int64 can count.
   */
  lemma AuditAlwaysHolds(cfg: Config, s: State)
    requires Lawful(cfg) && Reachable(cfg, s)
    ensures CheckInvariants(s.db).None? <==> Minted(s.db.mints) > 0x7fff_ffff_ffff_ffff
    ensures CheckInvariants(s.db).Some? ==> CheckInvariants(s.db).value.AllHold()
  {
    hide Reachable, Lawful, Sound, CallInv, Apart, Authored, CheckInvariants;
    ReachableKeeps(cfg, s);
    AuditOfSound(s.db);
  }

  /**
   What the report says of any tables, sound or not: it fails to answer exactly when one of its sums does not fit an
   int64, and otherwise all hold exactly when the balances total what was minted, the ledger nets to zero, no
   balance is negative and no row is pending.
   */
  lemma ReportReadsTheTables(db: Tables)
    ensures CheckInvariants(db).Some? <==>
      && -0x8000_0000_0000_0000 <= Total(Balances(db)) <= 0x7fff_ffff_ffff_ffff
      && -0x8000_0000_0000_0000 <= Minted(db.mints) <= 0x7fff_ffff_ffff_ffff
      && -0x8000_0000_0000_0000 <= LedgerSum(db.ledger) <= 0x7fff_ffff_ffff_ffff
    ensures CheckInvariants(db).Some? ==>
      var r := CheckInvariants(db).value;
      && r.totalBalance == Total(Balances(db)) && r.totalMinted == Minted(db.mints) && r.ledgerSum == LedgerSum(db.ledger)
      && (r.Conservation() <==> Total(Balances(db)) == Minted(db.mints) && LedgerSum(db.ledger) == 0)
      && (r.NoOverdraft() <==> forall w | w in db.wallets :: db.wallets[w].balance >= 0)
      && (r.AllHold() <==>
            && Total(Balances(db)) == Minted(db.mints) && LedgerSum(db.ledger) == 0
            && (forall w | w in db.wallets :: db.wallets[w].balance >= 0)
            && (forall t | t in db.transfers :: db.transfers[t].status != Pending))
  {
    hide Total, Minted, LedgerSum;
    NoneIsEmpty(Negative(db));
    NoneIsEmpty(WithStatus(db, Pending));
    assert forall w | w in db.wallets && db.wallets[w].balance < 0 :: w in Negative(db);
    assert forall t | t in db.transfers && db.transfers[t].status == Pending :: t in WithStatus(db, Pending);
  }

  lemma NoneIsEmpty(s: set<nat>)
    ensures |s| == 0 <==> s == {}
  {
  }

  /** The counts: every wallet, and every transfer as succeeded, with two ledger rows, or as declined, with none. */
  lemma AuditCounts(cfg: Config, s: State, r: Report)
    requires Lawful(cfg) && Reachable(cfg, s) && CheckInvariants(s.db) == Some(r)
    ensures r.wallets == |s.db.wallets|
    ensures r.succeeded + r.declined == |s.db.transfers| && r.pending == 0 && r.negative == 0
    ensures 2 * r.succeeded == |s.db.ledger|
  {
    hide Reachable, Lawful, Sound, CallInv, Apart, Authored;
    ReachableKeeps(cfg, s);
    CountsOfSound(s.db);
    hide Total, Minted, LedgerSum;
  }

  lemma CountsOfSound(db: Tables)
    requires Sound(db)
    ensures |WithStatus(db, Succeeded)| + |WithStatus(db, Declined)| == |db.transfers|
    ensures 2 * |WithStatus(db, Succeeded)| == |db.ledger|
    ensures Negative(db) == {} && WithStatus(db, Pending) == {}
  {
    hide Unique, References, DoubleEntry, Explained, Terminal, WithStatus, Negative;
    NothingNegativeOrPending(db);
    PaidOrRefused(db);
    TwoRowsEach(db);
  }

  lemma PaidOrRefused(db: Tables)
    requires forall t | t in db.transfers :: Terminal(db.transfers[t])
    ensures |WithStatus(db, Succeeded)| + |WithStatus(db, Declined)| == |db.transfers|
  {
    var paid, refused := WithStatus(db, Succeeded), WithStatus(db, Declined);
    assert db.transfers.Keys == paid + refused && paid !! refused;
    assert |paid + refused| == |paid| + |refused| && |db.transfers.Keys| == |db.transfers|;
  }

  lemma TwoRowsEach(db: Tables)
    requires References(db) && DoubleEntry(db)
    ensures 2 * |WithStatus(db, Succeeded)| == |db.ledger|
  {
    EntriesSplitByTransfer(db.transfers.Keys, db.ledger);
    var paid, counts := WithStatus(db, Succeeded), CountsBy(db.transfers.Keys, db.ledger);
    assert forall t | t in counts :: counts[t] == if t in paid then 2 else 0;
    hide References, DoubleEntry, WithStatus, CountsBy;
    assert paid <= counts.Keys by { PaidAreCounted(db); }
    TotalOfTwos(counts, paid);
  }

  lemma PaidAreCounted(db: Tables)
    ensures WithStatus(db, Succeeded) <= CountsBy(db.transfers.Keys, db.ledger).Keys
  {
  }

  function CountsBy(transfers: set<nat>, ledger: seq<Entry>): map<nat, int> {
    map t | t in transfers :: |EntriesOf(ledger, t)|
  }

  lemma {:induction false} EntriesSplitByTransfer(transfers: set<nat>, ledger: seq<Entry>)
    requires forall i | 0 <= i < |ledger| :: ledger[i].transfer in transfers
    ensures Total(CountsBy(transfers, ledger)) == |ledger|
  {
    if ledger == [] {
      TotalOfZeros(CountsBy(transfers, ledger));
    } else {
      var before, e := ledger[..|ledger| - 1], ledger[|ledger| - 1];
      EntriesSplitByTransfer(transfers, before);
      var counts := CountsBy(transfers, before);
      assert ledger == before + [e];
      hide EntriesOf;
      forall t | t in transfers
        ensures |EntriesOf(ledger, t)| == counts[t] + if e.transfer == t then 1 else 0
      {
        EntriesAppend(before, e, t);
      }
      TotalUpdate(counts, e.transfer, counts[e.transfer] + 1);
      assert CountsBy(transfers, ledger) == counts[e.transfer := counts[e.transfer] + 1];
    }
  }

  lemma {:induction false} TotalOfTwos(m: map<nat, int>, twos: set<nat>)
    requires twos <= m.Keys && forall k | k in m :: m[k] == if k in twos then 2 else 0
    ensures Total(m) == 2 * |twos|
    decreases |m|
  {
    if m == map[] {
      assert twos == {};
    } else {
      var k :| k in m;
      TotalPick(m, k);
      TotalOfTwos(m - {k}, twos - {k});
      assert k !in twos ==> twos - {k} == twos;
    }
  }

  lemma AuditOfSound(db: Tables)
    requires Sound(db)
    ensures CheckInvariants(db).None? <==> Minted(db.mints) > INT64_MAX
    ensures CheckInvariants(db).Some? ==> CheckInvariants(db).value.AllHold()
  {
    hide Unique, References, DoubleEntry, Explained, Terminal, Total, Minted, LedgerSum, Balances, Negative, WithStatus;
    Conserved(db);
    LedgerNetsToZero(db);
    NothingNegativeOrPending(db);
    TotalIsNonNegative(Balances(db));
  }

  lemma NothingNegativeOrPending(db: Tables)
    requires Sound(db)
    ensures Negative(db) == {} && WithStatus(db, Pending) == {}
    ensures forall w | w in Balances(db) :: Balances(db)[w] >= 0
  {
    hide References, DoubleEntry, Unique, Funded, Moved;
  }

  // ---------------------------------------------------------------------------
  // Overflow
  // ---------------------------------------------------------------------------

  lemma {:induction false} MintedGrows(mints: seq<Mint>, more: seq<Mint>)
    requires mints <= more && forall i | 0 <= i < |more| :: more[i].amount > 0
    ensures Minted(mints) <= Minted(more)
    decreases |more|
  {
    if |mints| < |more| {
      MintedGrows(mints, more[..|more| - 1]);
    } else {
      assert mints == more;
    }
  }

  /** No wallet pair can hold more than was minted. */
  lemma PairWithinMinted(db: Tables, w: nat, v: nat)
    requires References(db) && DoubleEntry(db) && Explained(db) && w in db.wallets && v in db.wallets && w != v
    ensures Balance(db, w) + Balance(db, v) <= Minted(db.mints)
  {
    Conserved(db);
    hide References, DoubleEntry;
    TotalAtLeastTwo(Balances(db), w, v);
  }

  predicate Overflowed(s: State, c: nat) {
    c in s.calls && s.calls[c].op.Transferring? && s.calls[c].pc == Done(Failed(Overflow))
  }

  lemma OverflowComesFromTheBatch(cfg: Config, s: State, c: nat, l: Label, call: Call)
    requires c in s.calls && s.calls[c].op.Transferring? && Move(cfg, s, c, l) == Some(call)
    requires call.pc == Done(Failed(Overflow))
    ensures l.Debit? || l.Credit? || l.Commit?
  {
  }

  lemma CommitNeverOverflows(cfg: Config, s: State, c: nat, how: CommitResult, call: Call)
    requires c in s.calls && s.calls[c].op.Transferring? && CallInv(cfg, s.db, c, s.calls[c])
    requires MoveCommit(s.calls[c], how) == Some(call)
    ensures call.pc != Done(Failed(Overflow))
  {
    hide OutcomeInv, Provenance, Effect, Taken;
  }

  lemma DebitNeverOverflows(cfg: Config, s: State, c: nat, call: Call)
    requires c in s.calls && s.calls[c].op.Transferring? && CallInv(cfg, s.db, c, s.calls[c])
    requires forall w: nat :: Balance(s.db, w) <= INT64_MAX
    requires MoveDebit(cfg, s, c, s.calls[c]) == Some(call)
    ensures call.pc != Done(Failed(Overflow))
  {
    hide OutcomeInv, Provenance, Effect, Taken;
  }

  lemma CreditOverflow(cfg: Config, s: State, c: nat, call: Call)
    requires c in s.calls && s.calls[c].op.Transferring? && CallInv(cfg, s.db, c, s.calls[c])
    requires MoveCredit(cfg, s, c, s.calls[c]) == Some(call) && call.pc == Done(Failed(Overflow))
    ensures var from, to := From(cfg, s.calls[c].op.req), To(cfg, s.calls[c].op.req);
      && from in s.db.wallets && to in s.db.wallets && from != to
      && Balance(s.db, from) + Balance(s.db, to) > INT64_MAX
  {
    hide OutcomeInv, Provenance, Effect, Taken;
    var from, to := From(cfg, s.calls[c].op.req), To(cfg, s.calls[c].op.req);
    assert OfWallet(from) in s.calls[c].tx.locks && OfWallet(to) in s.calls[c].tx.locks;
    assert Exists(s.db, OfWallet(from)) && Exists(s.db, OfWallet(to));
  }

  /** A transfer can overflow only when more than an int64 has already been minted. */
  lemma OverflowNeedsTooMuchMoney(cfg: Config, s: State, l: Label)
    requires Lawful(cfg) && Inv(cfg, s) && Step(cfg, s, l).Some?
    requires l.c in s.calls && s.calls[l.c].op.Transferring?
    requires Step(cfg, s, l).value.calls[l.c].pc == Done(Failed(Overflow))
    ensures Minted(s.db.mints) > INT64_MAX
  {
    var c, call := l.c, Step(cfg, s, l).value.calls[l.c];
    assert forall w: nat :: Balance(s.db, w) <= INT64_MAX by { hide CallInv, References, DoubleEntry, Unique; }
    hide CallInv, Unique, References, DoubleEntry, Explained, Authored, Apart;
    hide MoveInsertTransfer, MoveLockWallet, MoveDecide, MoveDebit, MoveCredit, MoveBook, MoveComplete, MoveInspect,
      MoveCheckForeign, MoveReplay, MoveBegin, MoveAbort, MoveCommit, Apply;
    OverflowComesFromTheBatch(cfg, s, c, l, call);
    match l
    case Commit(_, how) => CommitNeverOverflows(cfg, s, c, how, call);
    case Debit(_) => DebitNeverOverflows(cfg, s, c, call);
    case Credit(_) =>
      CreditOverflow(cfg, s, c, call);
      PairWithinMinted(s.db, From(cfg, s.calls[c].op.req), To(cfg, s.calls[c].op.req));
  }

  ghost predicate OverflowInv(s: State) {
    forall c | Overflowed(s, c) :: Minted(s.db.mints) > INT64_MAX
  }

  lemma StepKeepsOverflow(cfg: Config, s: State, l: Label)
    requires Lawful(cfg) && Inv(cfg, s) && Step(cfg, s, l).Some? && OverflowInv(s)
    ensures OverflowInv(Step(cfg, s, l).value)
  {
    var s' := Step(cfg, s, l).value;
    StepRemembers(cfg, s, l);
    StepKeeps(cfg, s, l);
    assert Minted(s.db.mints) <= Minted(s'.db.mints) by {
      hide Step, CallInv, Unique, References, DoubleEntry, Authored, Apart;
      MintedGrows(s.db.mints, s'.db.mints);
    }
    hide Inv, Remembers;
    forall c | Overflowed(s', c)
      ensures Minted(s'.db.mints) > INT64_MAX
    {
      if c == l.c && c in s.calls {
        StepOfOp(cfg, s, l);
        OverflowNeedsTooMuchMoney(cfg, s, l);
      } else {
        StepOnlyMoves(cfg, s, l, c);
        assert Overflowed(s, c);
      }
    }
  }

  lemma StepOfOp(cfg: Config, s: State, l: Label)
    requires Step(cfg, s, l).Some? && l.c in s.calls
    ensures Step(cfg, s, l).value.calls[l.c].op == s.calls[l.c].op
  {
    MoveKeepsOp(cfg, s, l.c, l, Step(cfg, s, l).value.calls[l.c]);
  }

  lemma StepOnlyMoves(cfg: Config, s: State, l: Label, c: nat)
    requires Step(cfg, s, l).Some? && c in Step(cfg, s, l).value.calls && (c != l.c || c !in s.calls)
    ensures if c in s.calls then Step(cfg, s, l).value.calls[c] == s.calls[c] else Step(cfg, s, l).value.calls[c].pc == Start
  {
    hide Move;
  }

  lemma {:induction false} RunKeepsOverflow(cfg: Config, run: seq<Label>)
    requires Lawful(cfg) && Exec(cfg, INIT, run).Some?
    ensures OverflowInv(Exec(cfg, INIT, run).value)
  {
    hide Inv, Step, OverflowInv;
    if run == [] {
      assert OverflowInv(INIT) by { NothingOverflowedYet(); }
    } else {
      var before := run[..|run| - 1];
      RunKeepsOverflow(cfg, before);
      InitHolds(cfg);
      RunKeeps(cfg, INIT, before);
      StepKeepsOverflow(cfg, Exec(cfg, INIT, before).value, run[|run| - 1]);
    }
  }

  lemma NothingOverflowedYet()
    ensures OverflowInv(INIT)
  {
  }

  /** While the money ever minted fits in an int64, no transfer of any run fails for overflow. */
  lemma NoTransferOverflows(cfg: Config, s: State, c: nat)
    requires Lawful(cfg) && Reachable(cfg, s) && Minted(s.db.mints) <= 0x7fff_ffff_ffff_ffff
    ensures !Overflowed(s, c)
  {
    var run :| Exec(cfg, INIT, run) == Some(s);
    RunKeepsOverflow(cfg, run);
  }
}
