/** A commit keeps the tables sound, the author's outcome true, and every other call's assertions intact. */
module Landing {
  import opened Tables
  import opened Text
  import opened Protocol
  import opened Invariant

  // ---------------------------------------------------------------------------
  // The tables
  // ---------------------------------------------------------------------------

  lemma ApplyNothing(db: Tables, c: nat)
    ensures Apply(db, c, NO_WRITES) == db
  {
    assert Overlay(db.wallets, map[]) == db.wallets;
    assert db.ledger + [] == db.ledger && db.mints + [] == db.mints;
  }

  lemma ApplyRow(db: Tables, c: nat, row: Transfer)
    ensures Apply(db, c, OnlyRow(row)) == db.(transfers := db.transfers[c := row])
  {
    ApplyNothing(db, c);
  }

  ghost predicate FreshKey(db: Tables, c: nat, row: Transfer) {
    && c !in db.transfers
    && !Taken(db, TransferKey(row.key))
    && row.key.requester in db.users && row.from in db.wallets && row.to in db.wallets
    && Terminal(row)
  }

  lemma NoEntriesYet(db: Tables, c: nat)
    requires Sound(db) && c !in db.transfers
    ensures EntriesOf(db.ledger, c) == []
  {
  }

  lemma DeclineIsSound(db: Tables, c: nat, row: Transfer)
    requires Sound(db) && FreshKey(db, c, row) && row.status == Declined
    ensures Sound(db.(transfers := db.transfers[c := row]))
  {
    var db' := db.(transfers := db.transfers[c := row]);
    NewRowIsUnique(db, db', c, row);
    NewRowReferences(db, db', c, row);
    NoEntriesYet(db, c);
    DeclineIsDoubleEntry(db, c, row);
    SameBalancesExplained(db, db');
  }

  lemma DeclineIsDoubleEntry(db: Tables, c: nat, row: Transfer)
    requires DoubleEntry(db) && c !in db.transfers && row.status == Declined
    ensures DoubleEntry(db.(transfers := db.transfers[c := row]))
  {
    var db' := db.(transfers := db.transfers[c := row]);
    forall t: nat
      ensures EntriesOf(db'.ledger, t) ==
        if t in db'.transfers && db'.transfers[t].status == Succeeded
        then Pair(t, db'.transfers[t].from, db'.transfers[t].to, db'.transfers[t].amount)
        else []
    {
      assert EntriesOf(db.ledger, t) == EntriesOf(db'.ledger, t);
    }
  }

  lemma SameBalancesExplained(db: Tables, db': Tables)
    requires Explained(db)
    requires db'.wallets == db.wallets && db'.ledger == db.ledger && db'.mints == db.mints
    ensures Explained(db')
  {
  }

  lemma NewRowIsUnique(db: Tables, db': Tables, c: nat, row: Transfer)
    requires Unique(db) && !Taken(db, TransferKey(row.key))
    requires db'.transfers == db.transfers[c := row] && db'.users == db.users && db'.mints == db.mints
    requires db'.wallets.Keys == db.wallets.Keys && forall w | w in db.wallets :: db'.wallets[w].owner == db.wallets[w].owner
    ensures Unique(db')
  {
  }

  lemma NewRowReferences(db: Tables, db': Tables, c: nat, row: Transfer)
    requires References(db)
    requires row.key.requester in db.users && row.from in db.wallets && row.to in db.wallets
    requires db'.transfers == db.transfers[c := row] && db'.users == db.users && db'.mints == db.mints
    requires db'.wallets.Keys == db.wallets.Keys && forall w | w in db.wallets :: db'.wallets[w].owner == db.wallets[w].owner
    requires db'.ledger == db.ledger || db'.ledger == db.ledger + Pair(c, row.from, row.to, row.amount)
    ensures References(db')
  {
  }

  /** The tables after a transfer that moved money. */
  function Settle(db: Tables, c: nat, row: Transfer): Tables
    requires row.from in db.wallets && row.to in db.wallets
  {
    db.(transfers := db.transfers[c := row],
        wallets := db.wallets[row.from := db.wallets[row.from].(balance := db.wallets[row.from].balance - row.amount)]
                             [row.to := db.wallets[row.to].(balance := db.wallets[row.to].balance + row.amount)],
        ledger := db.ledger + Pair(c, row.from, row.to, row.amount))
  }

  lemma PairMoves(ledger: seq<Entry>, c: nat, from: nat, to: nat, amount: int, w: nat)
    requires from != to
    ensures Moved(ledger + Pair(c, from, to, amount), w)
         == Moved(ledger, w) + if w == from then -amount else if w == to then amount else 0
  {
    var pair := Pair(c, from, to, amount);
    assert ledger + pair == (ledger + [pair[0]]) + [pair[1]];
    MovedAppend(ledger, pair[0], w);
    MovedAppend(ledger + [pair[0]], pair[1], w);
  }

  lemma PairEntries(ledger: seq<Entry>, c: nat, from: nat, to: nat, amount: int, t: nat)
    ensures EntriesOf(ledger + Pair(c, from, to, amount), t)
         == EntriesOf(ledger, t) + if t == c then Pair(c, from, to, amount) else []
  {
    var pair := Pair(c, from, to, amount);
    assert ledger + pair == (ledger + [pair[0]]) + [pair[1]];
    EntriesAppend(ledger, pair[0], t);
    EntriesAppend(ledger + [pair[0]], pair[1], t);
  }

  lemma SettleIsSound(db: Tables, c: nat, row: Transfer)
    requires Sound(db) && FreshKey(db, c, row) && row.status == Succeeded
    requires db.wallets[row.from].balance >= row.amount
    requires db.wallets[row.to].balance + row.amount <= INT64_MAX
    ensures Sound(Settle(db, c, row))
  {
    var db' := Settle(db, c, row);
    NewRowIsUnique(db, db', c, row);
    NewRowReferences(db, db', c, row);
    SettleIsDoubleEntry(db, c, row);
    SettleIsExplained(db, c, row);
    hide Unique, References, DoubleEntry, Explained, Taken;
  }

  lemma SettleIsDoubleEntry(db: Tables, c: nat, row: Transfer)
    requires DoubleEntry(db) && c !in db.transfers && row.status == Succeeded
    requires row.from in db.wallets && row.to in db.wallets
    ensures DoubleEntry(Settle(db, c, row))
  {
    var db' := Settle(db, c, row);
    forall t: nat
      ensures EntriesOf(db'.ledger, t) ==
        if t in db'.transfers && db'.transfers[t].status == Succeeded
        then Pair(t, db'.transfers[t].from, db'.transfers[t].to, db'.transfers[t].amount)
        else []
    {
      PairEntries(db.ledger, c, row.from, row.to, row.amount, t);
    }
  }

  lemma SettleIsExplained(db: Tables, c: nat, row: Transfer)
    requires Explained(db) && row.from != row.to && row.amount > 0
    requires row.from in db.wallets && row.to in db.wallets
    requires db.wallets[row.from].balance >= row.amount
    requires db.wallets[row.to].balance + row.amount <= INT64_MAX
    ensures Explained(Settle(db, c, row))
  {
    forall w: nat {
      PairMoves(db.ledger, c, row.from, row.to, row.amount, w);
    }
  }

  lemma ApplyMoved(cfg: Config, db: Tables, c: nat, req: Request, tx: Tx)
    requires Moving(cfg, db, c, req, tx) && From(cfg, req) != To(cfg, req)
    requires From(cfg, req) in db.wallets && To(cfg, req) in db.wallets
    ensures Apply(db, c, tx.writes) == Settle(db, c, SucceededRow(cfg, req, tx.now))
  {
    var row := SucceededRow(cfg, req, tx.now);
    assert Overlay(db.wallets, tx.writes.balances) == Settle(db, c, row).wallets;
    assert db.mints + [] == db.mints;
  }

  /** The tables after an applied mint. */
  function Endow(db: Tables, m: Mint): Tables
    requires m.wallet in db.wallets
  {
    db.(wallets := db.wallets[m.wallet := db.wallets[m.wallet].(balance := db.wallets[m.wallet].balance + m.amount)],
        mints := db.mints + [m])
  }

  lemma EndowIsSound(db: Tables, m: Mint)
    requires Sound(db) && m.wallet in db.wallets && m.amount > 0
    requires !Taken(db, MintKey(m.key))
    requires db.wallets[m.wallet].balance + m.amount <= INT64_MAX
    ensures Sound(Endow(db, m))
  {
    var db' := Endow(db, m);
    NewMintIsUnique(db, m);
    NewMintReferences(db, m);
    NewMintIsExplained(db, m);
    SameEntries(db, db');
    hide Unique, References, DoubleEntry, Explained, Taken;
  }

  lemma SameEntries(db: Tables, db': Tables)
    requires DoubleEntry(db)
    requires db'.ledger == db.ledger && db'.transfers == db.transfers
    ensures DoubleEntry(db')
  {
  }

  lemma NewMintIsUnique(db: Tables, m: Mint)
    requires Unique(db) && m.wallet in db.wallets && !Taken(db, MintKey(m.key))
    ensures Unique(Endow(db, m))
  {
  }

  lemma NewMintReferences(db: Tables, m: Mint)
    requires References(db) && m.wallet in db.wallets
    ensures References(Endow(db, m))
  {
  }

  lemma NewMintIsExplained(db: Tables, m: Mint)
    requires Explained(db) && m.wallet in db.wallets && m.amount > 0
    requires db.wallets[m.wallet].balance + m.amount <= INT64_MAX
    ensures Explained(Endow(db, m))
  {
    forall w: nat {
      FundedAppend(db.mints, m, w);
    }
  }

  lemma ApplyMint(cfg: Config, db: Tables, c: nat, call: Call)
    requires call.op.Minting? && MintApplied(cfg, db, c, call)
    ensures Apply(db, c, call.tx.writes) == Endow(db, Mint(c, call.op.idem, Id(cfg, call.op.wallet), call.op.amount))
  {
    var m := Mint(c, call.op.idem, Id(cfg, call.op.wallet), call.op.amount);
    assert Overlay(db.wallets, call.tx.writes.balances) == Endow(db, m).wallets;
    assert db.ledger + [] == db.ledger;
  }

  lemma ApplyNewUser(db: Tables, c: nat, token: string)
    ensures Apply(db, c, NO_WRITES.(user := Some(token))) == db.(users := db.users[c := token])
  {
    ApplyNothing(db, c);
  }

  lemma NewUserIsSound(db: Tables, c: nat, token: string)
    requires Sound(db) && c !in db.users && !Taken(db, TokenKey(token))
    ensures Sound(db.(users := db.users[c := token]))
  {
    var db' := db.(users := db.users[c := token]);
    NewUserIsUnique(db, c, token);
    NewUserReferences(db, c, token);
    SameBalancesExplained(db, db');
    SameEntries(db, db');
    hide Taken, Unique, References, DoubleEntry, Explained;
  }

  lemma NewUserReferences(db: Tables, c: nat, token: string)
    requires References(db)
    ensures References(db.(users := db.users[c := token]))
  {
  }

  lemma NewUserIsUnique(db: Tables, c: nat, token: string)
    requires Unique(db) && !Taken(db, TokenKey(token))
    ensures Unique(db.(users := db.users[c := token]))
  {
  }

  /** A wallet that does not exist yet has no history. */
  lemma NoHistory(db: Tables, w: nat)
    requires References(db) && w !in db.wallets
    ensures Funded(db.mints, w) == 0 && Moved(db.ledger, w) == 0
  {
    NoMints(db.mints, w);
    NoMoves(db.ledger, w);
  }

  lemma {:induction false} NoMints(mints: seq<Mint>, w: nat)
    requires forall i | 0 <= i < |mints| :: mints[i].wallet != w
    ensures Funded(mints, w) == 0
  {
    if mints != [] {
      NoMints(mints[..|mints| - 1], w);
    }
  }

  lemma {:induction false} NoMoves(ledger: seq<Entry>, w: nat)
    requires forall i | 0 <= i < |ledger| :: ledger[i].wallet != w
    ensures Moved(ledger, w) == 0
  {
    if ledger != [] {
      NoMoves(ledger[..|ledger| - 1], w);
    }
  }

  lemma ApplyNewWallet(db: Tables, c: nat, row: Wallet)
    ensures Apply(db, c, NO_WRITES.(wallet := Some(row))) == db.(wallets := db.wallets[c := row])
  {
    ApplyNothing(db.(wallets := db.wallets[c := row]), c);
  }

  lemma NewWalletIsSound(db: Tables, c: nat, row: Wallet)
    requires Sound(db) && c !in db.wallets && row.owner in db.users && row.balance == 0
    requires !Taken(db, OwnerKey(row.owner))
    ensures Sound(db.(wallets := db.wallets[c := row]))
  {
    var db' := db.(wallets := db.wallets[c := row]);
    NewWalletIsUnique(db, c, row);
    NoHistory(db, c);
    NewWalletReferences(db, c, row);
    NewWalletIsExplained(db, c, row);
    SameEntries(db, db');
    hide Unique, References, DoubleEntry, Explained, Taken;
  }

  lemma NewWalletReferences(db: Tables, c: nat, row: Wallet)
    requires References(db) && row.owner in db.users
    ensures References(db.(wallets := db.wallets[c := row]))
  {
  }

  lemma NewWalletIsExplained(db: Tables, c: nat, row: Wallet)
    requires Explained(db) && row.balance == 0
    requires Funded(db.mints, c) == 0 && Moved(db.ledger, c) == 0
    ensures Explained(db.(wallets := db.wallets[c := row]))
  {
  }

  lemma NewWalletIsUnique(db: Tables, c: nat, row: Wallet)
    requires Unique(db) && !Taken(db, OwnerKey(row.owner))
    ensures Unique(db.(wallets := db.wallets[c := row]))
  {
  }

  // ---------------------------------------------------------------------------
  // The other calls
  // ---------------------------------------------------------------------------

  /** Committed rows never go away, and only a wallet's balance may change. */
  ghost predicate Grows(db: Tables, db': Tables) {
    && (forall u | u in db.users :: u in db'.users && db'.users[u] == db.users[u])
    && (forall w | w in db.wallets :: w in db'.wallets && db'.wallets[w] == db.wallets[w].(balance := db'.wallets[w].balance))
    && (forall t | t in db.transfers :: t in db'.transfers && db'.transfers[t] == db.transfers[t])
    && db.ledger <= db'.ledger
    && db.mints <= db'.mints
  }

  /** From the point of view of another transaction `tx` of call `d`, nothing it relies on has moved. */
  ghost predicate Untouched(db: Tables, db': Tables, d: nat, tx: Tx) {
    && Grows(db, db')
    && (forall w | Holds(tx, w) :: Balance(db', w) == Balance(db, w))
    && (tx.claim.Some? && !Taken(db, tx.claim.value) ==> !Taken(db', tx.claim.value))
    && (Effect(db', d) <==> Effect(db, d))
    && (d in db'.transfers ==> d in db.transfers)
    && (d in db'.users ==> d in db.users)
    && (d in db'.wallets ==> d in db.wallets)
    && (forall i | |db.mints| <= i < |db'.mints| :: db'.mints[i].id != d)
  }

  lemma TakenStays(db: Tables, db': Tables, k: Claim)
    requires Grows(db, db') && Taken(db, k)
    ensures Taken(db', k)
  {
    match k
    case TransferKey(key) =>
      var t :| t in db.transfers && db.transfers[t].key == key;
      assert t in db'.transfers;
    case MintKey(idem) =>
      var i :| 0 <= i < |db.mints| && db.mints[i].key == idem;
      assert db'.mints[i] == db.mints[i];
    case TokenKey(token) =>
      var u :| u in db.users && db.users[u] == token;
      assert u in db'.users;
    case OwnerKey(owner) =>
      var w :| w in db.wallets && db.wallets[w].owner == owner;
      assert w in db'.wallets;
  }

  lemma OutcomeStays(cfg: Config, db: Tables, db': Tables, d: nat, op: Op, outcome: Outcome)
    requires Grows(db, db') && (Effect(db', d) <==> Effect(db, d))
    requires OutcomeInv(cfg, db, d, op, outcome)
    ensures OutcomeInv(cfg, db', d, op, outcome)
  {
    hide Effect;
    if outcome.Failed? && outcome.error.IdempotencyConflict? {
      var t :| t in db.transfers && db.transfers[t].key == KeyOf(op.req)
               && db.transfers[t].fingerprint != Fingerprint(op.req.from, op.req.to, op.req.amount);
      assert t in db'.transfers;
    }
  }

  lemma TransferStays(cfg: Config, db: Tables, db': Tables, d: nat, call: Call)
    requires Lawful(cfg) && call.op.Transferring?
    requires Untouched(db, db', d, call.tx) && TransferInv(cfg, db, d, call)
    ensures TransferInv(cfg, db', d, call)
  {
    hide Effect;
    if call.pc.Replaying? {
      TakenStays(db, db', TransferKey(KeyOf(call.op.req)));
    } else if !call.pc.Start? && !call.pc.Claiming? && !call.pc.Done? {
      hide Taken;
      TransferActiveStays(cfg, db, db', d, call);
    }
  }

  lemma TransferActiveStays(cfg: Config, db: Tables, db': Tables, d: nat, call: Call)
    requires Lawful(cfg) && call.op.Transferring?
    requires Untouched(db, db', d, call.tx) && TransferActive(cfg, db, d, call)
    ensures TransferActive(cfg, db', d, call)
  {
    hide Effect, Taken;
    var req := call.op.req;
    assert forall r | r in call.tx.locks :: Exists(db', r);
    if !call.pc.Sharing? && !call.pc.LockFirst? {
      assert OfWallet(Lo(cfg, req)) in call.tx.locks;
      assert Balance(db', Lo(cfg, req)) == Balance(db, Lo(cfg, req));
      if !call.pc.LockSecond? {
        assert Balance(db', Hi(cfg, req)) == Balance(db, Hi(cfg, req));
      }
    }
  }

  lemma MintStays(cfg: Config, db: Tables, db': Tables, d: nat, call: Call)
    requires call.op.Minting?
    requires Untouched(db, db', d, call.tx) && MintInv(cfg, db, d, call)
    ensures MintInv(cfg, db', d, call)
  {
    hide Effect, Taken;
    if Taken(db, MintKey(call.op.idem)) {
      TakenStays(db, db', MintKey(call.op.idem));
    }
    var w := Id(cfg, call.op.wallet);
    assert Holds(call.tx, w) ==> Balance(db', w) == Balance(db, w);
  }

  lemma UserStays(db: Tables, db': Tables, d: nat, call: Call)
    requires call.op.ResolvingUser?
    requires Untouched(db, db', d, call.tx) && UserInv(db, d, call)
    ensures UserInv(db', d, call)
  {
    hide Effect, Taken;
  }

  lemma WalletStays(db: Tables, db': Tables, d: nat, call: Call)
    requires call.op.OpeningWallet?
    requires Untouched(db, db', d, call.tx) && WalletInv(db, d, call)
    ensures WalletInv(db', d, call)
  {
    hide Effect, Taken;
    if call.pc.Committing? && !call.result.value.created {
      var w := call.result.value.wallet.id;
      assert Balance(db', w) == Balance(db, w) by { assert Holds(call.tx, w); }
    }
  }

  lemma ProvenanceStays(cfg: Config, db: Tables, db': Tables, d: nat, tx: Tx, op: Op)
    requires Untouched(db, db', d, tx) && Provenance(cfg, db, d, op)
    ensures Provenance(cfg, db', d, op)
  {
    hide Taken, Effect, Holds, Records;
    forall i | 0 <= i < |db'.mints| && db'.mints[i].id == d
      ensures op.Minting? && db'.mints[i] == Mint(d, op.idem, Id(cfg, op.wallet), op.amount)
    {
      assert db'.mints[i] == db.mints[i];
    }
  }

  lemma CallStays(cfg: Config, db: Tables, db': Tables, d: nat, call: Call)
    requires Lawful(cfg)
    requires Untouched(db, db', d, call.tx) && CallInv(cfg, db, d, call)
    ensures CallInv(cfg, db', d, call)
  {
    hide Effect, Taken, TransferInv, MintInv, UserInv, WalletInv, OutcomeInv, Holds, Provenance;
    ProvenanceStays(cfg, db, db', d, call.tx, call.op);
    if call.pc.Done? {
      OutcomeStays(cfg, db, db', d, call.op, call.pc.outcome);
    }
    match call.op
    case Transferring(_) => TransferStays(cfg, db, db', d, call);
    case Minting(_, _, _) => MintStays(cfg, db, db', d, call);
    case ResolvingUser(_) => UserStays(db, db', d, call);
    case OpeningWallet(_) => WalletStays(db, db', d, call);
  }
}
