/**
 The atomic bank the store is meant to be, and the proof that every interleaved run of the protocol is
 one of its sequential runs.
 */
module Bank {
  import opened Tables
  import opened Protocol
  import opened Landing

  // ---------------------------------------------------------------------------
  // The specification: one order at a time, each served at once
  // ---------------------------------------------------------------------------

  datatype Receipt = Receipt(id: nat, from: nat, to: nat, amount: int, paid: bool, seal: string, at: Time)

  datatype Bank = Bank(
    tokens: map<string, nat>, accountOf: map<nat, nat>, balances: map<nat, int>,
    receipts: map<Key, Receipt>, gifts: map<string, (nat, int)>)

  const EMPTY_BANK := Bank(map[], map[], map[], map[], map[])

  datatype Order =
    | Pay(key: Key, id: nat, from: nat, to: nat, amount: int, exact: bool, seal: string, at: Time)
    | Give(idem: string, wallet: nat, amount: int)
    | Register(token: string, user: nat)
    | Open(owner: nat, account: nat)

  datatype Answer =
    | Receipted(receipt: Receipt, again: bool)
    | Rejected
    | Given(wallet: nat, funded: Option<int>)   // a repeated gift reports no balance of its own
    | Registered(user: nat)
    | Opened(account: nat, balance: int, created: bool)

  function Held(b: Bank, w: nat): int {
    if w in b.balances then b.balances[w] else 0
  }

  /** The bank after a payment that went through. */
  function Paid(b: Bank, key: Key, r: Receipt): Bank {
    b.(receipts := b.receipts[key := r],
       balances := b.balances[r.from := Held(b, r.from) - r.amount][r.to := Held(b, r.to) + r.amount])
  }

  /** `exact` is whether the order names its source in the form the bank itself uses; otherwise it is declined. */
  function Serve(b: Bank, o: Order): (Bank, Answer) {
    match o
    case Pay(key, id, from, to, amount, exact, seal, at) =>
      if key in b.receipts then
        (b, if b.receipts[key].seal == seal then Receipted(b.receipts[key], true) else Rejected)
      else
        var paid := exact && Held(b, from) >= amount;
        var r := Receipt(id, from, to, amount, paid, seal, at);
        (if paid then Paid(b, key, r) else b.(receipts := b.receipts[key := r]), Receipted(r, false))
    case Give(idem, w, amount) =>
      if idem in b.gifts then (b, Given(w, None))
      else
        (b.(gifts := b.gifts[idem := (w, amount)], balances := b.balances[w := Held(b, w) + amount]),
         Given(w, Some(Held(b, w) + amount)))
    case Register(token, u) =>
      if token in b.tokens then (b, Registered(b.tokens[token]))
      else (b.(tokens := b.tokens[token := u]), Registered(u))
    case Open(owner, w) =>
      if owner in b.accountOf then (b, Opened(b.accountOf[owner], Held(b, b.accountOf[owner]), false))
      else (b.(accountOf := b.accountOf[owner := w], balances := b.balances[w := 0]), Opened(w, 0, true))
  }

  // ---------------------------------------------------------------------------
  // Abstraction
  // ---------------------------------------------------------------------------

  function ReceiptOf(id: nat, t: Transfer): Receipt {
    Receipt(id, t.from, t.to, t.amount, t.status == Succeeded, t.fingerprint, t.createdAt)
  }

  ghost predicate Injective<K>(keys: map<nat, K>) {
    forall i, j | i in keys && j in keys :: keys[i] == keys[j] ==> i == j
  }

  /** What a unique index makes of a table: its rows by key. */
  ghost function Index<K, V>(keys: map<nat, K>, rows: map<nat, V>): map<K, V>
    requires Injective(keys) && keys.Keys <= rows.Keys
  {
    map i | i in keys :: keys[i] := rows[i]
  }

  /** Inserting a row whose key is not in the index adds exactly that key. */
  lemma IndexExtends<K, V>(keys: map<nat, K>, rows: map<nat, V>, c: nat, k: K, v: V)
    requires Injective(keys) && keys.Keys <= rows.Keys
    requires c !in keys && forall i | i in keys :: keys[i] != k
    ensures Injective(keys[c := k]) && k !in Index(keys, rows)
    ensures Index(keys[c := k], rows[c := v]) == Index(keys, rows)[k := v]
  {
    var before, after := Index(keys, rows), Index(keys[c := k], rows[c := v]);
    assert keys[c := k][c] == k;
    forall x: K
      ensures x in after <==> x in before[k := v]
      ensures x in after ==> after[x] == before[k := v][x]
    {
      if i :| i in keys && keys[i] == x {
        assert keys[c := k][i] == x;
      }
    }
  }

  lemma IndexFinds<K, V>(keys: map<nat, K>, rows: map<nat, V>, i: nat)
    requires Injective(keys) && keys.Keys <= rows.Keys && i in keys
    ensures keys[i] in Index(keys, rows) && Index(keys, rows)[keys[i]] == rows[i]
  {
  }

  function Tokens(db: Tables): map<nat, string> { db.users }
  function Owners(db: Tables): map<nat, nat> { map w | w in db.wallets :: db.wallets[w].owner }
  function Keys(db: Tables): map<nat, Key> { map t | t in db.transfers :: db.transfers[t].key }
  function Receipts(db: Tables): map<nat, Receipt> { map t | t in db.transfers :: ReceiptOf(t, db.transfers[t]) }
  function GiftKeys(db: Tables): map<nat, string> { map i: nat | i < |db.mints| :: db.mints[i].key }
  function Gifts(db: Tables): map<nat, (nat, int)> {
    map i: nat | i < |db.mints| :: (db.mints[i].wallet, db.mints[i].amount)
  }
  function Same(ids: set<nat>): map<nat, nat> { map i | i in ids :: i }

  ghost predicate Indexed(db: Tables) {
    Injective(Tokens(db)) && Injective(Owners(db)) && Injective(Keys(db)) && Injective(GiftKeys(db))
  }

  lemma UniqueIsIndexed(db: Tables)
    requires Unique(db)
    ensures Indexed(db)
  {
  }

  ghost function Abs(db: Tables): Bank
    requires Indexed(db)
  {
    Bank(Index(Tokens(db), Same(db.users.Keys)), Index(Owners(db), Same(db.wallets.Keys)), Balances(db),
         Index(Keys(db), Receipts(db)), Index(GiftKeys(db), Gifts(db)))
  }

  /** The tables present as bank `b`. */
  ghost predicate Shows(db: Tables, b: Bank) {
    Indexed(db) && Abs(db) == b
  }

  lemma KnownReceipt(db: Tables, t: nat)
    requires Indexed(db) && t in db.transfers
    ensures db.transfers[t].key in Abs(db).receipts
    ensures Abs(db).receipts[db.transfers[t].key] == ReceiptOf(t, db.transfers[t])
  {
    hide Index, Injective;
    IndexFinds(Keys(db), Receipts(db), t);
  }

  lemma KnownGift(db: Tables, idem: string)
    requires Indexed(db) && Taken(db, MintKey(idem))
    ensures idem in Abs(db).gifts
  {
    hide Index, Injective;
    var i :| 0 <= i < |db.mints| && db.mints[i].key == idem;
    IndexFinds(GiftKeys(db), Gifts(db), i);
  }

  lemma KnownToken(db: Tables, u: nat)
    requires Indexed(db) && u in db.users
    ensures db.users[u] in Abs(db).tokens && Abs(db).tokens[db.users[u]] == u
  {
    hide Index, Injective;
    IndexFinds(Tokens(db), Same(db.users.Keys), u);
  }

  lemma KnownAccount(db: Tables, w: nat)
    requires Indexed(db) && w in db.wallets
    ensures db.wallets[w].owner in Abs(db).accountOf && Abs(db).accountOf[db.wallets[w].owner] == w
  {
    hide Index, Injective;
    IndexFinds(Owners(db), Same(db.wallets.Keys), w);
  }

  lemma ReceiptsAfter(db: Tables, db': Tables, c: nat, row: Transfer)
    requires Injective(Keys(db)) && c !in db.transfers && !Taken(db, TransferKey(row.key))
    requires db'.transfers == db.transfers[c := row]
    ensures Injective(Keys(db')) && row.key !in Index(Keys(db), Receipts(db))
    ensures Index(Keys(db'), Receipts(db')) == Index(Keys(db), Receipts(db))[row.key := ReceiptOf(c, row)]
  {
    hide Index, Injective;
    assert forall t | t in Keys(db) :: Keys(db)[t] != row.key;
    hide Taken;
    IndexExtends(Keys(db), Receipts(db), c, row.key, ReceiptOf(c, row));
    assert Keys(db') == Keys(db)[c := row.key];
    assert Receipts(db') == Receipts(db)[c := ReceiptOf(c, row)];
  }

  lemma GiftsAfter(db: Tables, db': Tables, m: Mint)
    requires Injective(GiftKeys(db)) && !Taken(db, MintKey(m.key))
    requires db'.mints == db.mints + [m]
    ensures Injective(GiftKeys(db')) && m.key !in Index(GiftKeys(db), Gifts(db))
    ensures Index(GiftKeys(db'), Gifts(db')) == Index(GiftKeys(db), Gifts(db))[m.key := (m.wallet, m.amount)]
  {
    var i := |db.mints|;
    hide Index, Injective;
    assert forall j | j in GiftKeys(db) :: GiftKeys(db)[j] != m.key;
    hide Taken;
    IndexExtends(GiftKeys(db), Gifts(db), i, m.key, (m.wallet, m.amount));
    assert GiftKeys(db') == GiftKeys(db)[i := m.key];
    assert Gifts(db') == Gifts(db)[i := (m.wallet, m.amount)];
  }

  lemma AccountsAfter(db: Tables, db': Tables, c: nat, row: Wallet)
    requires Injective(Owners(db)) && c !in db.wallets && !Taken(db, OwnerKey(row.owner))
    requires db'.wallets == db.wallets[c := row]
    ensures Injective(Owners(db')) && row.owner !in Index(Owners(db), Same(db.wallets.Keys))
    ensures Index(Owners(db'), Same(db'.wallets.Keys)) == Index(Owners(db), Same(db.wallets.Keys))[row.owner := c]
    ensures Balances(db') == Balances(db)[c := row.balance]
  {
    hide Index, Injective;
    assert forall w | w in Owners(db) :: Owners(db)[w] != row.owner;
    hide Taken;
    IndexExtends(Owners(db), Same(db.wallets.Keys), c, row.owner, c);
    assert Owners(db') == Owners(db)[c := row.owner];
    assert Same(db'.wallets.Keys) == Same(db.wallets.Keys)[c := c];
  }

  lemma AbsAfterRow(db: Tables, c: nat, row: Transfer)
    requires Indexed(db) && c !in db.transfers && !Taken(db, TransferKey(row.key))
    ensures row.key !in Abs(db).receipts
    ensures Shows(db.(transfers := db.transfers[c := row]),
                  Abs(db).(receipts := Abs(db).receipts[row.key := ReceiptOf(c, row)]))
  {
    hide Index, Taken, Injective;
    ReceiptsAfter(db, db.(transfers := db.transfers[c := row]), c, row);
  }

  lemma AbsAfterSettle(db: Tables, c: nat, row: Transfer)
    requires Indexed(db) && c !in db.transfers && !Taken(db, TransferKey(row.key))
    requires row.from in db.wallets && row.to in db.wallets && row.from != row.to
    ensures Shows(Settle(db, c, row), Paid(Abs(db), row.key, ReceiptOf(c, row)))
    ensures row.key !in Abs(db).receipts
  {
    hide Index, Taken, Injective, Owners, Balances, Settle;
    var db' := Settle(db, c, row);
    SettleKeepsTheRest(db, c, row);
    ReceiptsAfter(db, db', c, row);
    BalancesAfter(db, c, row);
    assert Held(Abs(db), row.from) == Balance(db, row.from) && Held(Abs(db), row.to) == Balance(db, row.to) by {
      HeldIsBalance(db, row.from);
      HeldIsBalance(db, row.to);
    }
  }

  lemma SettleKeepsTheRest(db: Tables, c: nat, row: Transfer)
    requires row.from in db.wallets && row.to in db.wallets && row.from != row.to
    ensures var db' := Settle(db, c, row);
      && Owners(db') == Owners(db) && db'.wallets.Keys == db.wallets.Keys
      && db'.users == db.users && db'.mints == db.mints && db'.transfers == db.transfers[c := row]
  {
  }

  lemma BalancesAfter(db: Tables, c: nat, row: Transfer)
    requires row.from in db.wallets && row.to in db.wallets && row.from != row.to
    ensures Balances(Settle(db, c, row)) ==
      Balances(db)[row.from := Balance(db, row.from) - row.amount][row.to := Balance(db, row.to) + row.amount]
  {
  }

  lemma HeldIsBalance(db: Tables, w: nat)
    requires Indexed(db)
    ensures Held(Abs(db), w) == Balance(db, w)
  {
    hide Index, Injective;
  }

  lemma AbsAfterEndow(db: Tables, m: Mint)
    requires Indexed(db) && m.wallet in db.wallets && !Taken(db, MintKey(m.key))
    ensures m.key !in Abs(db).gifts
    ensures Shows(Endow(db, m), Abs(db).(
      gifts := Abs(db).gifts[m.key := (m.wallet, m.amount)],
      balances := Abs(db).balances[m.wallet := Balance(db, m.wallet) + m.amount]))
  {
    hide Index, Taken, Injective;
    var db' := Endow(db, m);
    GiftsAfter(db, db', m);
    assert Owners(db') == Owners(db) && db'.wallets.Keys == db.wallets.Keys;
    assert Balances(db') == Balances(db)[m.wallet := Balance(db, m.wallet) + m.amount];
  }

  lemma AbsAfterUser(db: Tables, c: nat, token: string)
    requires Indexed(db) && c !in db.users && !Taken(db, TokenKey(token))
    ensures token !in Abs(db).tokens
    ensures Shows(db.(users := db.users[c := token]), Abs(db).(tokens := Abs(db).tokens[token := c]))
  {
    var db' := db.(users := db.users[c := token]);
    hide Index, Injective;
    assert forall u | u in db.users :: db.users[u] != token;
    hide Taken;
    IndexExtends(Tokens(db), Same(db.users.Keys), c, token, c);
    assert Same(db'.users.Keys) == Same(db.users.Keys)[c := c];
  }

  lemma AbsAfterWallet(db: Tables, c: nat, row: Wallet)
    requires Indexed(db) && c !in db.wallets && row.balance == 0 && !Taken(db, OwnerKey(row.owner))
    ensures row.owner !in Abs(db).accountOf
    ensures Shows(db.(wallets := db.wallets[c := row]), Abs(db).(
      accountOf := Abs(db).accountOf[row.owner := c], balances := Abs(db).balances[c := 0]))
  {
    hide Index, Taken, Injective;
    AccountsAfter(db, db.(wallets := db.wallets[c := row]), c, row);
  }
}
