/** What every reachable state satisfies, for any number of calls in any interleaving. */
module Invariant {
  import opened Tables
  import opened Text
  import opened Protocol

  // ---------------------------------------------------------------------------
  // Local assertions: what a call knows at each program point
  // ---------------------------------------------------------------------------

  predicate Writing(mode: Mode) { mode.NoKeyUpdate? || mode.Update? }

  /** The call's transaction holds the row against every other writer. */
  predicate Holds(tx: Tx, w: nat) {
    OfWallet(w) in tx.locks && Writing(tx.locks[OfWallet(w)])
  }

  /** Some committed row was written by call `c`. */
  ghost predicate Effect(db: Tables, c: nat) {
    || c in db.users
    || c in db.wallets
    || c in db.transfers
    || (exists i | 0 <= i < |db.mints| :: db.mints[i].id == c)
  }

  predicate ValidRequest(cfg: Config, req: Request) {
    && cfg.parse(req.from).Some?
    && cfg.parse(req.to).Some?
    && req.amount > 0
    && From(cfg, req) != To(cfg, req)
  }

  /** The decision the locked section takes, as a property of the committed tables alone. */
  predicate Payable(cfg: Config, db: Tables, req: Request) {
    Canonical(cfg, req.from) && Balance(db, From(cfg, req)) >= req.amount
  }

  function OnlyRow(row: Transfer): Writes { NO_WRITES.(transfer := Some(row)) }

  function DeclinedRow(cfg: Config, req: Request, now: Time): Transfer {
    PendingRow(cfg, req, now).(status := Declined, reason := Some(INSUFFICIENT_FUNDS), completedAt := Some(now))
  }

  function SucceededRow(cfg: Config, req: Request, now: Time): Transfer {
    PendingRow(cfg, req, now).(status := Succeeded, completedAt := Some(now))
  }

  function DebitedBalances(cfg: Config, db: Tables, req: Request): map<nat, int> {
    map[From(cfg, req) := Balance(db, From(cfg, req)) - req.amount]
  }

  function MovedBalances(cfg: Config, db: Tables, req: Request): map<nat, int> {
    DebitedBalances(cfg, db, req)[To(cfg, req) := Balance(db, To(cfg, req)) + req.amount]
  }

  /** The uncommitted writes of a transfer at each point of its body, given the committed tables. */
  ghost predicate TransferWrites(cfg: Config, db: Tables, c: nat, req: Request, pc: PC, tx: Tx) {
    var pending := OnlyRow(PendingRow(cfg, req, tx.now));
    var pair := Pair(c, From(cfg, req), To(cfg, req), req.amount);
    match pc
    case Debiting => tx.writes == pending && Payable(cfg, db, req)
    case Crediting =>
      && tx.writes == pending.(balances := DebitedBalances(cfg, db, req))
      && Payable(cfg, db, req)
      && tx.debited == 1
    case Booking =>
      && tx.writes == pending.(balances := MovedBalances(cfg, db, req))
      && Moves(cfg, db, req)
      && tx.debited == 1 && tx.credited == 1
    case Completing =>
      && tx.writes == pending.(balances := MovedBalances(cfg, db, req), ledger := pair)
      && Moves(cfg, db, req)
      && tx.debited == 1 && tx.credited == 1
    case Inspecting => Moving(cfg, db, c, req, tx) && tx.debited == 1 && tx.credited == 1
    case Committing => Moving(cfg, db, c, req, tx) || Declining(cfg, db, req, tx)
    case _ => tx.writes == pending
  }

  predicate Moves(cfg: Config, db: Tables, req: Request) {
    Payable(cfg, db, req) && Balance(db, To(cfg, req)) + req.amount <= INT64_MAX
  }

  predicate Moving(cfg: Config, db: Tables, c: nat, req: Request, tx: Tx) {
    && tx.writes == OnlyRow(SucceededRow(cfg, req, tx.now)).(
                      balances := MovedBalances(cfg, db, req),
                      ledger := Pair(c, From(cfg, req), To(cfg, req), req.amount))
    && Moves(cfg, db, req)
  }

  predicate Declining(cfg: Config, db: Tables, req: Request, tx: Tx) {
    && tx.writes == OnlyRow(DeclinedRow(cfg, req, tx.now))
    && !Payable(cfg, db, req)
  }

  /** The row locks of a transfer at each point. */
  predicate TransferLocks(cfg: Config, req: Request, pc: PC, locks: map<Row, Mode>) {
    var rows := ForeignRows(cfg, Transferring(req));
    match pc
    case Sharing => locks.Keys < rows && forall r | r in locks :: locks[r] == KeyShare
    case LockFirst => locks.Keys == rows && forall r | r in locks :: locks[r] == KeyShare
    case LockSecond =>
      && locks.Keys == rows
      && forall r | r in locks :: locks[r] == if r == OfWallet(Lo(cfg, req)) then cfg.mode else KeyShare
    case _ =>
      && locks.Keys == rows
      && forall r | r in locks :: locks[r] == if r.OfWallet? then cfg.mode else KeyShare
  }

  ghost predicate TransferReads(cfg: Config, db: Tables, req: Request, pc: PC, tx: Tx) {
    match pc
    case Sharing => tx.read == map[]
    case LockFirst => tx.read == map[]
    case LockSecond => tx.read == map[cfg.canon(Lo(cfg, req)) := Balance(db, Lo(cfg, req))]
    case Deciding => tx.read == map[cfg.canon(Lo(cfg, req)) := Balance(db, Lo(cfg, req))][
                                    cfg.canon(Hi(cfg, req)) := Balance(db, Hi(cfg, req))]
    case _ => true
  }

  /** A transfer between its claim and its commit. */
  ghost predicate TransferActive(cfg: Config, db: Tables, c: nat, call: Call)
    requires call.op.Transferring?
  {
    var req := call.op.req;
    && ValidRequest(cfg, req)
    && call.tx.claim == Some(TransferKey(KeyOf(req)))
    && (forall r | r in call.tx.locks :: Exists(db, r))
    && TransferLocks(cfg, req, call.pc, call.tx.locks)
    && TransferReads(cfg, db, req, call.pc, call.tx)
    && TransferWrites(cfg, db, c, req, call.pc, call.tx)
    && (call.pc.Committing? ==> call.result == Some(TransferOk(OwnDoc(c, req, call.tx.writes.transfer.value), false)))
  }

  ghost predicate TransferInv(cfg: Config, db: Tables, c: nat, call: Call)
    requires call.op.Transferring?
  {
    match call.pc
    case Start => true
    case Claiming => call.op.req.from != call.op.req.to
    case Replaying => ValidRequest(cfg, call.op.req) && Taken(db, TransferKey(KeyOf(call.op.req)))
    case Funding => false
    case ReadingBack => false
    case Done(_) => true
    case _ => TransferActive(cfg, db, c, call)
  }

  ghost predicate MintInv(cfg: Config, db: Tables, c: nat, call: Call)
    requires call.op.Minting?
  {
    var w := Id(cfg, call.op.wallet);
    var row := Mint(c, call.op.idem, w, call.op.amount);
    var inserted := NO_WRITES.(mints := [row]);
    var tx := call.tx;
    (call.pc.Start? || call.pc.Claiming? || call.pc.Done? || (cfg.parse(call.op.wallet).Some? && call.op.amount > 0)) &&
    match call.pc
    case Start => true
    case Claiming => true
    case Sharing =>
      && tx.claim == Some(MintKey(call.op.idem)) && call.op.amount > 0
      && tx.locks == map[] && tx.writes == inserted
    case Funding =>
      && tx.claim == Some(MintKey(call.op.idem)) && call.op.amount > 0
      && w in db.wallets && tx.locks == map[OfWallet(w) := KeyShare] && tx.writes == inserted
    case ReadingBack =>
      (if tx.writes == NO_WRITES then MintRepeated(db, call) else MintApplied(cfg, db, c, call))
    case Committing =>
      && w in db.wallets
      && (if tx.writes == NO_WRITES then MintRepeated(db, call) else MintApplied(cfg, db, c, call))
      && call.result.Some? && call.result.value.MintOk?
      && call.result.value.applied == (tx.writes != NO_WRITES)
      && call.result.value.minted.id == w
      && call.result.value.minted.owner == db.wallets[w].owner
      && call.result.value.minted.createdAt == db.wallets[w].createdAt
      && (tx.writes != NO_WRITES ==> call.result.value.minted.balance == Balance(db, w) + call.op.amount)
    case Done(_) => true
    case _ => false
  }

  ghost predicate MintRepeated(db: Tables, call: Call)
    requires call.op.Minting?
  {
    call.tx.claim == None && call.tx.locks == map[] && Taken(db, MintKey(call.op.idem))
  }

  ghost predicate MintApplied(cfg: Config, db: Tables, c: nat, call: Call)
    requires call.op.Minting?
  {
    var w := Id(cfg, call.op.wallet);
    && call.tx.claim == Some(MintKey(call.op.idem)) && call.op.amount > 0
    && w in db.wallets
    && call.tx.locks == map[OfWallet(w) := NoKeyUpdate]
    && call.tx.writes == NO_WRITES.(mints := [Mint(c, call.op.idem, w, call.op.amount)],
                                    balances := map[w := Balance(db, w) + call.op.amount])
    && Balance(db, w) + call.op.amount <= INT64_MAX
  }

  ghost predicate UserInv(db: Tables, c: nat, call: Call)
    requires call.op.ResolvingUser?
  {
    match call.pc
    case Start => true
    case Claiming => true
    case Committing =>
      && call.result.Some? && call.result.value.UserOk?
      && var u := call.result.value.user;
      if call.tx.claim == None then
        && u in db.users && db.users[u] == call.op.token
        && call.tx.locks == map[OfUser(u) := Update] && call.tx.writes == NO_WRITES
      else
        && call.tx.claim == Some(TokenKey(call.op.token)) && u == c
        && call.tx.locks == map[] && call.tx.writes == NO_WRITES.(user := Some(call.op.token))
    case Done(_) => true
    case _ => false
  }

  ghost predicate WalletInv(db: Tables, c: nat, call: Call)
    requires call.op.OpeningWallet?
  {
    var row := Wallet(call.op.user, 0, call.tx.now);
    match call.pc
    case Start => true
    case Claiming => true
    case Sharing =>
      && call.tx.claim == Some(OwnerKey(call.op.user)) && call.tx.locks == map[]
      && call.tx.writes == NO_WRITES.(wallet := Some(row))
      && call.result == Some(WalletOk(Show(c, row), true))
    case Committing =>
      && call.result.Some? && call.result.value.WalletOk?
      && var doc := call.result.value.wallet;
      if call.result.value.created then
        && call.tx.claim == Some(OwnerKey(call.op.user))
        && call.op.user in db.users && call.tx.locks == map[OfUser(call.op.user) := KeyShare]
        && call.tx.writes == NO_WRITES.(wallet := Some(row))
        && doc == Show(c, row)
      else
        && call.tx.claim == None && call.tx.writes == NO_WRITES
        && doc.id in db.wallets && doc == Show(doc.id, db.wallets[doc.id]) && doc.owner == call.op.user
        && call.tx.locks == map[OfWallet(doc.id) := Update]
    case Done(_) => true
    case _ => false
  }

  // ---------------------------------------------------------------------------
  // What a returned outcome says about the tables, now and for ever
  // ---------------------------------------------------------------------------

  /** The row was written for this request. */
  predicate Records(cfg: Config, req: Request, t: Transfer) {
    && ValidRequest(cfg, req)
    && t.key == KeyOf(req) && t.from == From(cfg, req) && t.to == To(cfg, req) && t.amount == req.amount
    && t.fingerprint == Fingerprint(req.from, req.to, req.amount)
  }

  /** Whatever rows call `c` has committed are the rows it asked for. */
  ghost predicate Provenance(cfg: Config, db: Tables, c: nat, op: Op) {
    && (c in db.transfers ==> op.Transferring? && Records(cfg, op.req, db.transfers[c]))
    && (c in db.users ==> op == ResolvingUser(db.users[c]))
    && (c in db.wallets ==> op == OpeningWallet(db.wallets[c].owner))
    && (forall i | 0 <= i < |db.mints| && db.mints[i].id == c ::
          op.Minting? && db.mints[i] == Mint(c, op.idem, Id(cfg, op.wallet), op.amount))
  }

  ghost predicate OutcomeInv(cfg: Config, db: Tables, c: nat, op: Op, outcome: Outcome) {
    match outcome
    case TransferOk(doc, replay) =>
      && op.Transferring?
      && ValidRequest(cfg, op.req)
      && doc.id in db.transfers
      && (if replay then
            && !Effect(db, c)
            && db.transfers[doc.id].key == KeyOf(op.req)
            && db.transfers[doc.id].fingerprint == Fingerprint(op.req.from, op.req.to, op.req.amount)
            && doc == StoredDoc(cfg, doc.id, db.transfers[doc.id])
          else doc.id == c && doc == OwnDoc(c, op.req, db.transfers[c]))
    case MintOk(doc, applied) =>
      && op.Minting?
      && doc.id == Id(cfg, op.wallet) && doc.id in db.wallets && doc.owner == db.wallets[doc.id].owner
      && doc.createdAt == db.wallets[doc.id].createdAt
      && (applied <==> Effect(db, c))
    case UserOk(u) => op.ResolvingUser? && u in db.users && db.users[u] == op.token
    case WalletOk(doc, created) =>
      && op.OpeningWallet?
      && doc.id in db.wallets && db.wallets[doc.id].owner == op.user == doc.owner
      && doc.createdAt == db.wallets[doc.id].createdAt
      && (created <==> doc.id == c) && (created <==> Effect(db, c))
    case Failed(e) =>
      && (e != CommitUnknown ==> !Effect(db, c))
      && !e.TransferNotFound? && !e.DebitLost?
      && (op.ResolvingUser? || op.OpeningWallet? ==> e.Other? || e.CommitUnknown?)
      && (e.CheckViolation? ==>
            || (op.Minting? && op.amount <= 0)
            || (op.Transferring? && !ValidRequest(cfg, op.req)))
      && (e.IdempotencyConflict? ==>
            && op.Transferring?
            && exists t | t in db.transfers ::
                 && db.transfers[t].key == KeyOf(op.req)
                 && db.transfers[t].fingerprint != Fingerprint(op.req.from, op.req.to, op.req.amount))
  }

  ghost predicate CallInv(cfg: Config, db: Tables, c: nat, call: Call) {
    && call.attempt < MAX_TX_ATTEMPTS
    && (call.op.ResolvingUser? || call.op.OpeningWallet? ==> call.attempt == 0)
    && (!call.pc.Done? ==> !Effect(db, c))
    && (call.pc.Start? || call.pc.Replaying? || call.pc.Done? ==> call.tx == NO_TX)
    && (call.pc.Claiming? ==> call.tx == FreshTx(call.tx.now))
    && (call.tx.claim.Some? ==> !Taken(db, call.tx.claim.value))
    && (forall w | w in call.tx.writes.balances :: Holds(call.tx, w))
    && (call.pc.Done? ==> OutcomeInv(cfg, db, c, call.op, call.pc.outcome))
    && Provenance(cfg, db, c, call.op)
    && match call.op
       case Transferring(_) => TransferInv(cfg, db, c, call)
       case Minting(_, _, _) => MintInv(cfg, db, c, call)
       case ResolvingUser(_) => UserInv(db, c, call)
       case OpeningWallet(_) => WalletInv(db, c, call)
  }

  /** Two live transactions never claim one key and never hold conflicting locks. */
  predicate Apart(a: Tx, b: Tx) {
    && (a.claim.Some? ==> a.claim != b.claim)
    && (forall r | r in a.locks && r in b.locks :: !Conflicts(a.locks[r], b.locks[r]))
  }

  /** Every row's author is a call of this run. */
  ghost predicate Authored(s: State) {
    forall c | Effect(s.db, c) :: c in s.calls
  }

  ghost predicate Inv(cfg: Config, s: State) {
    && Sound(s.db)
    && Authored(s)
    && (forall c | c in s.calls :: CallInv(cfg, s.db, c, s.calls[c]))
    && (forall c, d | c in s.calls && d in s.calls && c != d :: Apart(s.calls[c].tx, s.calls[d].tx))
  }
}
