/**
 Every call of the store as a process over shared tables, one statement per step.

 The environment is PostgreSQL at READ COMMITTED: committed rows are visible, row locks follow the
 compatibility table of section 13.3.2 of its manual, a unique index makes an insert wait for an
 uncommitted rival, and `now()` is fixed for a transaction. A label carries every choice the
 environment makes, so `Step` is a partial function and a run is a sequence of labels.
 */
module Protocol {
  import opened Tables
  import opened Text

  // ---------------------------------------------------------------------------
  // Configuration
  // ---------------------------------------------------------------------------

  /** Row-lock modes, weakest first. */
  datatype Mode = KeyShare | Share | NoKeyUpdate | Update

  predicate Conflicts(a: Mode, b: Mode) {
    match a
    case KeyShare => b.Update?
    case Share => b.NoKeyUpdate? || b.Update?
    case NoKeyUpdate => !b.KeyShare?
    case Update => true
  }

  /** The table's shape: with the modes numbered from weakest to strongest, two conflict when together they reach five. */
  function Strength(m: Mode): nat {
    match m
    case KeyShare => 1
    case Share => 2
    case NoKeyUpdate => 3
    case Update => 4
  }

  lemma ConflictsByStrength(a: Mode, b: Mode)
    ensures Conflicts(a, b) <==> Strength(a) + Strength(b) >= 5
  {
  }

  /**
   `parse` is the server's reading of a wallet id and `canon` the text it returns. `mode` and `sorted`
   are the two design choices of the locking section: the strength of its SELECT and whether it
   goes in ascending text order. The service runs with `NoKeyUpdate` and `true`.
   */
  datatype Config = Config(parse: string -> Option<nat>, canon: nat -> string, mode: Mode, sorted: bool)

  ghost predicate Lawful(cfg: Config) {
    && (forall w: nat {:trigger cfg.canon(w)} :: cfg.parse(cfg.canon(w)) == Some(w))
    && (forall t: string {:trigger cfg.parse(t)} :: cfg.parse(t).Some? ==> '|' !in t)
    && (cfg.mode.NoKeyUpdate? || cfg.mode.Update?)
  }

  // ---------------------------------------------------------------------------
  // Calls
  // ---------------------------------------------------------------------------

  datatype Request = Request(requester: nat, from: string, to: string, amount: int, idem: string)

  datatype Op =
    | Transferring(req: Request)
    | Minting(wallet: string, idem: string, amount: int)
    | ResolvingUser(token: string)
    | OpeningWallet(user: nat)

  /** The JSON document of a transfer. */
  datatype Doc = Doc(
    id: nat, status: Status, reason: Option<string>, from: string, to: string, amount: int, idem: string,
    createdAt: Time, completedAt: Option<Time>)

  datatype WalletDoc = WalletDoc(id: nat, owner: nat, balance: int, createdAt: Time)

  datatype Error =
    | SameWallet | WalletNotFound | TransferNotFound | IdempotencyConflict
    | CheckViolation | Overflow | DebitLost
    | RetriesExhausted
    | CommitUnknown   // the commit call failed without a transient code: it may or may not have landed
    | Other

  datatype Outcome =
    | TransferOk(doc: Doc, replay: bool)
    | MintOk(minted: WalletDoc, applied: bool)
    | UserOk(user: nat)
    | WalletOk(wallet: WalletDoc, created: bool)
    | Failed(error: Error)

  datatype PC =
    | Start                               // inTx is about to begin an attempt
    | Claiming                            // the first INSERT
    | Sharing                             // its foreign-key checks
    | LockFirst | LockSecond              // SELECT ... FOR NO KEY UPDATE, twice
    | Deciding
    | Debiting | Crediting | Booking | Completing | Inspecting   // the apply batch and its results
    | Funding | ReadingBack               // Mint after its savepoint
    | Committing
    | Replaying                           // the fresh read after a lost key race
    | Done(outcome: Outcome)

  datatype Row = OfUser(user: nat) | OfWallet(wallet: nat)

  /** A pending entry in a unique index. */
  datatype Claim = TransferKey(key: Key) | MintKey(idem: string) | TokenKey(token: string) | OwnerKey(owner: nat)

  /** Uncommitted writes; only their own transaction sees them. */
  datatype Writes = Writes(
    transfer: Option<Transfer>, balances: map<nat, int>, ledger: seq<Entry>, mints: seq<Mint>,
    user: Option<string>, wallet: Option<Wallet>)

  const NO_WRITES := Writes(None, map[], [], [], None, None)

  datatype Tx = Tx(
    now: Time, claim: Option<Claim>, locks: map<Row, Mode>, writes: Writes,
    read: map<string, int>,   // Go's `balances`, keyed by the text the server returned
    savepoint: Writes,
    debited: nat, credited: nat)

  function FreshTx(now: Time): Tx {
    Tx(now, None, map[], NO_WRITES, map[], NO_WRITES, 0, 0)
  }

  const NO_TX := FreshTx(0)

  /** `result` is what the transaction body has stored for the caller so far. */
  datatype Call = Call(op: Op, attempt: nat, pc: PC, tx: Tx, result: Option<Outcome>)

  datatype State = State(db: Tables, calls: map<nat, Call>)

  const INIT := State(EMPTY, map[])

  // ---------------------------------------------------------------------------
  // Locks and unique indexes
  // ---------------------------------------------------------------------------

  predicate Free(s: State, c: nat, row: Row, mode: Mode) {
    forall d | d in s.calls && d != c && row in s.calls[d].tx.locks :: !Conflicts(s.calls[d].tx.locks[row], mode)
  }

  predicate Unclaimed(s: State, c: nat, k: Claim) {
    forall d | d in s.calls && d != c :: s.calls[d].tx.claim != Some(k)
  }

  predicate Taken(db: Tables, k: Claim) {
    match k
    case TransferKey(key) => exists t | t in db.transfers :: db.transfers[t].key == key
    case MintKey(idem) => exists i | 0 <= i < |db.mints| :: db.mints[i].key == idem
    case TokenKey(token) => exists u | u in db.users :: db.users[u] == token
    case OwnerKey(owner) => exists w | w in db.wallets :: db.wallets[w].owner == owner
  }

  predicate Exists(db: Tables, row: Row) {
    match row
    case OfUser(u) => u in db.users
    case OfWallet(w) => w in db.wallets
  }

  /** A lock already held at this strength or more is kept as it is. */
  function Acquire(locks: map<Row, Mode>, row: Row, mode: Mode): map<Row, Mode> {
    if row in locks && (locks[row] == Update || locks[row] == mode) then locks else locks[row := mode]
  }

  // ---------------------------------------------------------------------------
  // Requests against the configuration
  // ---------------------------------------------------------------------------

  function Id(cfg: Config, text: string): nat {
    match cfg.parse(text)
    case Some(w) => w
    case None => 0
  }

  predicate Canonical(cfg: Config, text: string) {
    cfg.parse(text).Some? && cfg.canon(Id(cfg, text)) == text
  }

  function From(cfg: Config, req: Request): nat { Id(cfg, req.from) }
  function To(cfg: Config, req: Request): nat { Id(cfg, req.to) }

  function LoText(cfg: Config, req: Request): string {
    if cfg.sorted && Less(req.to, req.from) then req.to else req.from
  }

  function HiText(cfg: Config, req: Request): string {
    if cfg.sorted && Less(req.to, req.from) then req.from else req.to
  }

  function Lo(cfg: Config, req: Request): nat { Id(cfg, LoText(cfg, req)) }
  function Hi(cfg: Config, req: Request): nat { Id(cfg, HiText(cfg, req)) }

  function KeyOf(req: Request): Key { Key(req.requester, req.idem) }

  /** The rows a first INSERT checks its foreign keys against. */
  function ForeignRows(cfg: Config, op: Op): set<Row> {
    match op
    case Transferring(req) => {OfUser(req.requester), OfWallet(From(cfg, req)), OfWallet(To(cfg, req))}
    case Minting(wallet, _, _) => {OfWallet(Id(cfg, wallet))}
    case ResolvingUser(_) => {}
    case OpeningWallet(user) => {OfUser(user)}
  }

  function PendingRow(cfg: Config, req: Request, now: Time): Transfer {
    Transfer(KeyOf(req), From(cfg, req), To(cfg, req), req.amount, Pending, None,
             Fingerprint(req.from, req.to, req.amount), now, None)
  }

  /** The document of a call that did the work itself: it echoes the request's own text. */
  function OwnDoc(c: nat, req: Request, t: Transfer): Doc {
    Doc(c, t.status, t.reason, req.from, req.to, req.amount, req.idem, t.createdAt, t.completedAt)
  }

  /** The document a replay reads back from the table. */
  function StoredDoc(cfg: Config, id: nat, t: Transfer): Doc {
    Doc(id, t.status, t.reason, cfg.canon(t.from), cfg.canon(t.to), t.amount, t.key.idem, t.createdAt, t.completedAt)
  }

  function Show(w: nat, row: Wallet): WalletDoc {
    WalletDoc(w, row.owner, row.balance, row.createdAt)
  }

  /** Go's map lookup: a missing key reads as zero. */
  function Lookup(m: map<string, int>, k: string): int {
    if k in m then m[k] else 0
  }

  /** A balance as the transaction sees it. */
  function Current(db: Tables, tx: Tx, w: nat): int {
    if w in tx.writes.balances then tx.writes.balances[w] else Balance(db, w)
  }

  // ---------------------------------------------------------------------------
  // Steps
  // ---------------------------------------------------------------------------

  datatype CommitResult =
    | Acked               // committed, and the client knows
    | Lost                // committed, but the client gets an error
    | Refused             // not committed, and the client gets an error it cannot tell from Lost
    | RefusedTransient    // not committed, with a code that says so

  datatype Label =
    | Arrive(c: nat, op: Op)
    | Begin(c: nat, now: Time)
    | Insert(c: nat)
    | Upsert(c: nat, found: Option<nat>)
    | CheckForeign(c: nat, row: Row)
    | LockWallet(c: nat)
    | Decide(c: nat)
    | Debit(c: nat)
    | Credit(c: nat)
    | Book(c: nat)
    | Complete(c: nat)
    | Inspect(c: nat)
    | Fund(c: nat)
    | ReadBack(c: nat)
    | Commit(c: nat, how: CommitResult)
    | Replay(c: nat, found: Option<nat>)
    | Abort(c: nat, transient: bool)   // any statement, or BeginTx, may fail for reasons of its own

  const MAX_TX_ATTEMPTS := 5

  function Fail(call: Call, e: Error): Call {
    call.(pc := Done(Failed(e)), tx := NO_TX, result := None)
  }

  /** `inTx` after a transient error; the one-statement upserts do not run under `inTx`. */
  function Retry(call: Call): Call {
    if call.op.ResolvingUser? || call.op.OpeningWallet? then Fail(call, Other)
    else if call.attempt + 1 < MAX_TX_ATTEMPTS then
      call.(attempt := call.attempt + 1, pc := Start, tx := NO_TX, result := None)
    else Fail(call, RetriesExhausted)
  }

  function MoveBegin(call: Call, now: Time): Option<Call> {
    if call.pc != Start then None
    else if call.op.Transferring? && call.op.req.from == call.op.req.to then Some(Fail(call, SameWallet))
    else Some(call.(pc := Claiming, tx := FreshTx(now), result := None))
  }

  /** INSERT INTO transfers: parsing and CHECKs, then the unique index. */
  function MoveInsertTransfer(cfg: Config, s: State, c: nat, call: Call): Option<Call>
    requires call.op.Transferring?
  {
    var req := call.op.req;
    var claim := TransferKey(KeyOf(req));
    if cfg.parse(req.from).None? || cfg.parse(req.to).None? then Some(Fail(call, WalletNotFound))
    else if req.amount <= 0 || From(cfg, req) == To(cfg, req) then Some(Fail(call, CheckViolation))
    else if Taken(s.db, claim) then Some(call.(pc := Replaying, tx := NO_TX))
    else if !Unclaimed(s, c, claim) then None
    else
      var writes := NO_WRITES.(transfer := Some(PendingRow(cfg, req, call.tx.now)));
      Some(call.(pc := Sharing, tx := call.tx.(claim := Some(claim), writes := writes)))
  }

  /** INSERT INTO mints behind its savepoint: a duplicate key rolls back to it and goes on. */
  function MoveInsertMint(cfg: Config, s: State, c: nat, call: Call): Option<Call>
    requires call.op.Minting?
  {
    var claim := MintKey(call.op.idem);
    if cfg.parse(call.op.wallet).None? then Some(Fail(call, WalletNotFound))
    else if call.op.amount <= 0 then Some(Fail(call, CheckViolation))
    else if Taken(s.db, claim) then
      Some(call.(pc := ReadingBack, tx := call.tx.(writes := call.tx.savepoint)))
    else if !Unclaimed(s, c, claim) then None
    else
      var row := Mint(c, call.op.idem, Id(cfg, call.op.wallet), call.op.amount);
      Some(call.(pc := Sharing, tx := call.tx.(claim := Some(claim), writes := call.tx.writes.(mints := [row]))))
  }

  /** INSERT INTO users ... ON CONFLICT (token_hash) DO UPDATE; `found` is the committed row, if any. */
  function MoveUpsertUser(s: State, c: nat, call: Call, found: Option<nat>): Option<Call>
    requires call.op.ResolvingUser?
  {
    var claim := TokenKey(call.op.token);
    match found
    case Some(u) =>
      if u in s.db.users && s.db.users[u] == call.op.token && Free(s, c, OfUser(u), Update) then
        Some(call.(pc := Committing, tx := call.tx.(locks := map[OfUser(u) := Update]), result := Some(UserOk(u))))
      else None
    case None =>
      if Taken(s.db, claim) || !Unclaimed(s, c, claim) then None
      else
        var writes := NO_WRITES.(user := Some(call.op.token));
        Some(call.(pc := Committing, tx := call.tx.(claim := Some(claim), writes := writes), result := Some(UserOk(c))))
  }

  /** INSERT INTO wallets ... ON CONFLICT (user_id) DO UPDATE. */
  function MoveUpsertWallet(s: State, c: nat, call: Call, found: Option<nat>): Option<Call>
    requires call.op.OpeningWallet?
  {
    var claim := OwnerKey(call.op.user);
    match found
    case Some(w) =>
      if w in s.db.wallets && s.db.wallets[w].owner == call.op.user && Free(s, c, OfWallet(w), Update) then
        Some(call.(pc := Committing, tx := call.tx.(locks := map[OfWallet(w) := Update]),
                   result := Some(WalletOk(Show(w, s.db.wallets[w]), false))))
      else None
    case None =>
      if Taken(s.db, claim) || !Unclaimed(s, c, claim) then None
      else
        var row := Wallet(call.op.user, 0, call.tx.now);
        var writes := NO_WRITES.(wallet := Some(row));
        Some(call.(pc := Sharing, tx := call.tx.(claim := Some(claim), writes := writes),
                   result := Some(WalletOk(Show(c, row), true))))
  }

  /** One foreign-key check: FOR KEY SHARE on the referenced row, in whatever order the server picks. */
  function MoveCheckForeign(cfg: Config, s: State, c: nat, call: Call, row: Row): Option<Call> {
    var rows := ForeignRows(cfg, call.op);
    if call.pc != Sharing || row !in rows || row in call.tx.locks then None
    else if !Exists(s.db, row) then
      Some(Fail(call, if call.op.OpeningWallet? then Other else WalletNotFound))
    else if !Free(s, c, row, KeyShare) then None
    else
      var locks := call.tx.locks[row := KeyShare];
      var next := match call.op
        case Transferring(_) => LockFirst
        case Minting(_, _, _) => Funding
        case _ => Committing;
      Some(call.(pc := if rows <= locks.Keys then next else Sharing, tx := call.tx.(locks := locks)))
  }

  /** SELECT id, balance_paise ... FOR NO KEY UPDATE on the lower, then the higher, id. */
  function MoveLockWallet(cfg: Config, s: State, c: nat, call: Call): Option<Call>
    requires call.op.Transferring?
  {
    if call.pc != LockFirst && call.pc != LockSecond then None
    else
      var w := if call.pc == LockFirst then Lo(cfg, call.op.req) else Hi(cfg, call.op.req);
      if w !in s.db.wallets then Some(Fail(call, WalletNotFound))
      else if !Free(s, c, OfWallet(w), cfg.mode) then None
      else
        Some(call.(pc := if call.pc == LockFirst then LockSecond else Deciding,
                   tx := call.tx.(locks := Acquire(call.tx.locks, OfWallet(w), cfg.mode),
                                  read := call.tx.read[cfg.canon(w) := s.db.wallets[w].balance])))
  }

  function MoveDecide(call: Call, c: nat): Option<Call>
    requires call.op.Transferring?
  {
    if call.pc != Deciding || call.tx.writes.transfer.None? then None
    else if Lookup(call.tx.read, call.op.req.from) < call.op.req.amount then
      var row := call.tx.writes.transfer.value.(
        status := Declined, reason := Some(INSUFFICIENT_FUNDS), completedAt := Some(call.tx.now));
      Some(call.(pc := Committing, tx := call.tx.(writes := call.tx.writes.(transfer := Some(row))),
                 result := Some(TransferOk(OwnDoc(c, call.op.req, row), false))))
    else Some(call.(pc := Debiting))
  }

  /** UPDATE wallets SET balance_paise = balance_paise + delta: its own row lock, the CHECK, and bigint range. */
  function WriteBalance(s: State, c: nat, call: Call, w: nat, delta: int, next: PC): Option<Call> {
    var v := Current(s.db, call.tx, w) + delta;
    if !Free(s, c, OfWallet(w), NoKeyUpdate) then None
    else if v > INT64_MAX then Some(Fail(call, Overflow))
    else if v < 0 then Some(Fail(call, CheckViolation))
    else Some(call.(pc := next, tx := call.tx.(locks := Acquire(call.tx.locks, OfWallet(w), NoKeyUpdate),
                                               writes := call.tx.writes.(balances := call.tx.writes.balances[w := v]))))
  }

  /** The debit matches no row when its `balance_paise >= amount` predicate is false; the batch goes on regardless. */
  function MoveDebit(cfg: Config, s: State, c: nat, call: Call): Option<Call>
    requires call.op.Transferring?
  {
    var w := From(cfg, call.op.req);
    if call.pc != Debiting then None
    else if w !in s.db.wallets || Current(s.db, call.tx, w) < call.op.req.amount then
      Some(call.(pc := Crediting, tx := call.tx.(debited := 0)))
    else WriteBalance(s, c, call.(tx := call.tx.(debited := 1)), w, -call.op.req.amount, Crediting)
  }

  function MoveCredit(cfg: Config, s: State, c: nat, call: Call): Option<Call>
    requires call.op.Transferring?
  {
    var w := To(cfg, call.op.req);
    if call.pc != Crediting then None
    else if w !in s.db.wallets then Some(call.(pc := Booking, tx := call.tx.(credited := 0)))
    else WriteBalance(s, c, call.(tx := call.tx.(credited := 1)), w, call.op.req.amount, Booking)
  }

  function MoveBook(cfg: Config, c: nat, call: Call): Option<Call>
    requires call.op.Transferring?
  {
    if call.pc != Booking then None
    else
      var pair := Pair(c, From(cfg, call.op.req), To(cfg, call.op.req), call.op.req.amount);
      Some(call.(pc := Completing, tx := call.tx.(writes := call.tx.writes.(ledger := call.tx.writes.ledger + pair))))
  }

  function MoveComplete(call: Call): Option<Call> {
    if call.pc != Completing || call.tx.writes.transfer.None? then None
    else
      var row := call.tx.writes.transfer.value.(status := Succeeded, completedAt := Some(call.tx.now));
      Some(call.(pc := Inspecting, tx := call.tx.(writes := call.tx.writes.(transfer := Some(row)))))
  }

  /** The client looks at the batch results, and sets `completed_at` from `created_at`. */
  function MoveInspect(call: Call, c: nat): Option<Call>
    requires call.op.Transferring?
  {
    if call.pc != Inspecting || call.tx.writes.transfer.None? then None
    else if call.tx.debited != 1 then Some(Fail(call, DebitLost))
    else if call.tx.credited != 1 then Some(Fail(call, WalletNotFound))
    else
      var created := call.tx.writes.transfer.value.createdAt;
      var req := call.op.req;
      var doc := Doc(c, Succeeded, None, req.from, req.to, req.amount, req.idem, created, Some(created));
      Some(call.(pc := Committing, result := Some(TransferOk(doc, false))))
  }

  function MoveFund(cfg: Config, s: State, c: nat, call: Call): Option<Call>
    requires call.op.Minting?
  {
    var w := Id(cfg, call.op.wallet);
    if call.pc != Funding then None
    else if w !in s.db.wallets then Some(call.(pc := ReadingBack))
    else WriteBalance(s, c, call, w, call.op.amount, ReadingBack)
  }

  function MoveReadBack(cfg: Config, s: State, call: Call): Option<Call>
    requires call.op.Minting?
  {
    var w := Id(cfg, call.op.wallet);
    if call.pc != ReadingBack then None
    else if w !in s.db.wallets then Some(Fail(call, WalletNotFound))
    else
      var doc := Show(w, s.db.wallets[w].(balance := Current(s.db, call.tx, w)));
      Some(call.(pc := Committing, result := Some(MintOk(doc, call.tx.writes.mints != []))))
  }

  function MoveCommit(call: Call, how: CommitResult): Option<Call> {
    if call.pc != Committing || call.result.None? then None
    else
      match how
      case Acked => Some(call.(pc := Done(call.result.value), tx := NO_TX, result := None))
      case Lost => Some(Fail(call, CommitUnknown))
      case Refused => Some(Fail(call, CommitUnknown))
      case RefusedTransient => Some(Retry(call))
  }

  /** transferByKey on a fresh read, then the fingerprint comparison. */
  function MoveReplay(cfg: Config, s: State, call: Call, found: Option<nat>): Option<Call>
    requires call.op.Transferring?
  {
    var req := call.op.req;
    if call.pc != Replaying then None
    else
      match found
      case None => if Taken(s.db, TransferKey(KeyOf(req))) then None else Some(Fail(call, TransferNotFound))
      case Some(t) =>
        if t !in s.db.transfers || s.db.transfers[t].key != KeyOf(req) then None
        else if s.db.transfers[t].fingerprint != Fingerprint(req.from, req.to, req.amount) then
          Some(Fail(call, IdempotencyConflict))
        else Some(call.(pc := Done(TransferOk(StoredDoc(cfg, t, s.db.transfers[t]), true))))
  }

  function MoveAbort(call: Call, transient: bool): Option<Call> {
    if call.pc.Done? then None
    else if transient && call.pc != Replaying then Some(Retry(call))
    else Some(Fail(call, Other))
  }

  /** What the label does to its own call; `None` means it is not enabled, that is, the statement waits. */
  function Move(cfg: Config, s: State, c: nat, l: Label): Option<Call>
    requires c in s.calls
  {
    var call := s.calls[c];
    match l
    case Arrive(_, _) => None
    case Begin(_, now) => MoveBegin(call, now)
    case Insert(_) =>
      if call.pc != Claiming then None
      else if call.op.Transferring? then MoveInsertTransfer(cfg, s, c, call)
      else if call.op.Minting? then MoveInsertMint(cfg, s, c, call)
      else None
    case Upsert(_, found) =>
      if call.pc != Claiming then None
      else if call.op.ResolvingUser? then MoveUpsertUser(s, c, call, found)
      else if call.op.OpeningWallet? then MoveUpsertWallet(s, c, call, found)
      else None
    case CheckForeign(_, row) => MoveCheckForeign(cfg, s, c, call, row)
    case LockWallet(_) => if call.op.Transferring? then MoveLockWallet(cfg, s, c, call) else None
    case Decide(_) => if call.op.Transferring? then MoveDecide(call, c) else None
    case Debit(_) => if call.op.Transferring? then MoveDebit(cfg, s, c, call) else None
    case Credit(_) => if call.op.Transferring? then MoveCredit(cfg, s, c, call) else None
    case Book(_) => if call.op.Transferring? then MoveBook(cfg, c, call) else None
    case Complete(_) => if call.op.Transferring? then MoveComplete(call) else None
    case Inspect(_) => if call.op.Transferring? then MoveInspect(call, c) else None
    case Fund(_) => if call.op.Minting? then MoveFund(cfg, s, c, call) else None
    case ReadBack(_) => if call.op.Minting? then MoveReadBack(cfg, s, call) else None
    case Commit(_, how) => MoveCommit(call, how)
    case Replay(_, found) => if call.op.Transferring? then MoveReplay(cfg, s, call, found) else None
    case Abort(_, transient) => MoveAbort(call, transient)
  }

  predicate Lands(l: Label) {
    l.Commit? && (l.how.Acked? || l.how.Lost?)
  }

  function Overlay(wallets: map<nat, Wallet>, balances: map<nat, int>): map<nat, Wallet> {
    map w | w in wallets :: if w in balances then wallets[w].(balance := balances[w]) else wallets[w]
  }

  /** The tables after transaction `c` commits its writes. */
  function Apply(db: Tables, c: nat, w: Writes): Tables {
    Tables(
      if w.user.Some? then db.users[c := w.user.value] else db.users,
      Overlay(if w.wallet.Some? then db.wallets[c := w.wallet.value] else db.wallets, w.balances),
      if w.transfer.Some? then db.transfers[c := w.transfer.value] else db.transfers,
      db.ledger + w.ledger,
      db.mints + w.mints)
  }

  function Step(cfg: Config, s: State, l: Label): Option<State> {
    if l.Arrive? then
      if l.c in s.calls then None
      else Some(s.(calls := s.calls[l.c := Call(l.op, 0, Start, NO_TX, None)]))
    else if l.c !in s.calls then None
    else
      match Move(cfg, s, l.c, l)
      case None => None
      case Some(call) =>
        var db := if Lands(l) then Apply(s.db, l.c, s.calls[l.c].tx.writes) else s.db;
        Some(State(db, s.calls[l.c := call]))
  }

  /** A run: the state after all labels, if each was enabled in turn. */
  function Exec(cfg: Config, s: State, run: seq<Label>): Option<State> {
    if run == [] then Some(s)
    else
      match Exec(cfg, s, run[..|run| - 1])
      case None => None
      case Some(mid) => Step(cfg, mid, run[|run| - 1])
  }

  ghost predicate Reachable(cfg: Config, s: State) {
    exists run :: Exec(cfg, INIT, run) == Some(s)
  }
}
