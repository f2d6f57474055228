/**
 The five committed tables and the constraints the schema puts on them.

 A generated uuid is modelled by the number of the call whose statement inserted the row, so
 `gen_random_uuid()` is fresh by construction and every row names its author.
 */
module Tables {

  const INT64_MAX: int := 0x7fff_ffff_ffff_ffff

  type Time = int

  datatype Option<+T> = None | Some(value: T)

  /** The columns under `UNIQUE (requester_user_id, idempotency_key)`. */
  datatype Key = Key(requester: nat, idem: string)

  datatype Status = Pending | Succeeded | Declined

  const INSUFFICIENT_FUNDS := "insufficient_funds"

  datatype Transfer = Transfer(
    key: Key, from: nat, to: nat, amount: int, status: Status, reason: Option<string>,
    fingerprint: string, createdAt: Time, completedAt: Option<Time>)

  datatype Wallet = Wallet(owner: nat, balance: int, createdAt: Time)

  datatype Entry = Entry(transfer: nat, wallet: nat, delta: int)

  datatype Mint = Mint(id: nat, key: string, wallet: nat, amount: int)

  datatype Tables = Tables(
    users: map<nat, string>,
    wallets: map<nat, Wallet>,
    transfers: map<nat, Transfer>,
    ledger: seq<Entry>,
    mints: seq<Mint>)

  const EMPTY := Tables(map[], map[], map[], [], [])

  function Balance(db: Tables, w: nat): int {
    if w in db.wallets then db.wallets[w].balance else 0
  }

  function Balances(db: Tables): map<nat, int> {
    map w | w in db.wallets :: db.wallets[w].balance
  }

  /** Sum of the ledger deltas on wallet `w`. */
  function Moved(ledger: seq<Entry>, w: nat): int {
    if ledger == [] then 0
    else
      var e := ledger[|ledger| - 1];
      Moved(ledger[..|ledger| - 1], w) + if e.wallet == w then e.delta else 0
  }

  /** Sum of the mints into wallet `w`. */
  function Funded(mints: seq<Mint>, w: nat): int {
    if mints == [] then 0
    else
      var m := mints[|mints| - 1];
      Funded(mints[..|mints| - 1], w) + if m.wallet == w then m.amount else 0
  }

  /** The ledger rows of one transfer, in insertion order. */
  function EntriesOf(ledger: seq<Entry>, t: nat): seq<Entry> {
    if ledger == [] then []
    else
      var e := ledger[|ledger| - 1];
      EntriesOf(ledger[..|ledger| - 1], t) + if e.transfer == t then [e] else []
  }

  lemma MovedAppend(ledger: seq<Entry>, e: Entry, w: nat)
    ensures Moved(ledger + [e], w) == Moved(ledger, w) + if e.wallet == w then e.delta else 0
  {
    assert (ledger + [e])[..|ledger|] == ledger;
  }

  lemma FundedAppend(mints: seq<Mint>, m: Mint, w: nat)
    ensures Funded(mints + [m], w) == Funded(mints, w) + if m.wallet == w then m.amount else 0
  {
    assert (mints + [m])[..|mints|] == mints;
  }

  lemma EntriesAppend(ledger: seq<Entry>, e: Entry, t: nat)
    ensures EntriesOf(ledger + [e], t) == EntriesOf(ledger, t) + if e.transfer == t then [e] else []
  {
    assert (ledger + [e])[..|ledger|] == ledger;
  }

  /** The two ledger rows of a transfer that moved money. */
  function Pair(t: nat, from: nat, to: nat, amount: int): seq<Entry> {
    [Entry(t, from, -amount), Entry(t, to, amount)]
  }

  // ---------------------------------------------------------------------------
  // What the schema demands of committed tables
  // ---------------------------------------------------------------------------

  ghost predicate Unique(db: Tables) {
    && (forall i, j | i in db.transfers && j in db.transfers :: db.transfers[i].key == db.transfers[j].key ==> i == j)
    && (forall i, j | i in db.users && j in db.users :: db.users[i] == db.users[j] ==> i == j)
    && (forall i, j | i in db.wallets && j in db.wallets :: db.wallets[i].owner == db.wallets[j].owner ==> i == j)
    && (forall i, j | 0 <= i < |db.mints| && 0 <= j < |db.mints| :: db.mints[i].key == db.mints[j].key ==> i == j)
  }

  ghost predicate References(db: Tables) {
    && (forall w | w in db.wallets :: db.wallets[w].owner in db.users)
    && (forall t | t in db.transfers ::
          && db.transfers[t].key.requester in db.users
          && db.transfers[t].from in db.wallets
          && db.transfers[t].to in db.wallets)
    && (forall i | 0 <= i < |db.ledger| :: db.ledger[i].transfer in db.transfers && db.ledger[i].wallet in db.wallets)
    && (forall i | 0 <= i < |db.mints| :: db.mints[i].wallet in db.wallets)
  }

  /** A committed transfer row: the table's CHECKs, and never `pending`. */
  predicate Terminal(t: Transfer) {
    && t.amount > 0
    && t.from != t.to
    && t.completedAt == Some(t.createdAt)
    && match t.status
       case Pending => false
       case Succeeded => t.reason == None
       case Declined => t.reason == Some(INSUFFICIENT_FUNDS)
  }

  /** Succeeded rows own exactly their debit and credit; nothing else owns a ledger row. */
  ghost predicate DoubleEntry(db: Tables) {
    forall t: nat :: EntriesOf(db.ledger, t) ==
      if t in db.transfers && db.transfers[t].status == Succeeded
      then Pair(t, db.transfers[t].from, db.transfers[t].to, db.transfers[t].amount)
      else []
  }

  /** Each balance is explained by its own mints and its own ledger rows, and is an int64 that is not negative. */
  ghost predicate Explained(db: Tables) {
    && (forall w | w in db.wallets ::
          && db.wallets[w].balance == Funded(db.mints, w) + Moved(db.ledger, w)
          && 0 <= db.wallets[w].balance <= INT64_MAX)
    && (forall i | 0 <= i < |db.mints| :: db.mints[i].amount > 0)
  }

  ghost predicate Sound(db: Tables) {
    && Unique(db)
    && References(db)
    && (forall t | t in db.transfers :: Terminal(db.transfers[t]))
    && DoubleEntry(db)
    && Explained(db)
  }
}
