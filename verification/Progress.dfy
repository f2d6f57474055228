/**
 Why concurrent transfers cannot deadlock.

 Deadlock freedom is a property of the shipped locking section, NO KEY UPDATE in ascending order, and of
 requests whose id texts sort as the server's own texts of the same wallets do.
 */
module Progress {
  import opened Tables
  import opened Text
  import opened Protocol
  import opened Invariant
  import opened CommitStep

  predicate AsShipped(cfg: Config) {
    cfg.mode == NoKeyUpdate && cfg.sorted
  }

  predicate Tidy(cfg: Config, text: string) {
    cfg.parse(text).Some? ==> Canonical(cfg, text)
  }

  /** The two texts sort the way the server's texts of the two wallets do. */
  predicate Orderly(cfg: Config, from: string, to: string) {
    cfg.parse(from).Some? && cfg.parse(to).Some? && Id(cfg, from) != Id(cfg, to) ==>
      (Less(from, to) <==> Less(cfg.canon(Id(cfg, from)), cfg.canon(Id(cfg, to))))
  }

  predicate AllOrderly(cfg: Config, s: State) {
    forall c | c in s.calls && s.calls[c].op.Transferring? :: Orderly(cfg, s.calls[c].op.req.from, s.calls[c].op.req.to)
  }

  /** In particular, ids spelled as the server spells them are in order. */
  lemma TidyIsOrderly(cfg: Config, from: string, to: string)
    requires Tidy(cfg, from) && Tidy(cfg, to)
    ensures Orderly(cfg, from, to)
  {
  }

  /** A step of the call's own code, as opposed to a new call or a failure from outside. */
  predicate Proper(l: Label) {
    !l.Arrive? && !l.Abort?
  }

  // ---------------------------------------------------------------------------
  // Who waits for whom
  // ---------------------------------------------------------------------------

  function ClaimOf(op: Op): Claim {
    match op
    case Transferring(req) => TransferKey(KeyOf(req))
    case Minting(_, idem, _) => MintKey(idem)
    case ResolvingUser(token) => TokenKey(token)
    case OpeningWallet(user) => OwnerKey(user)
  }

  /** The row an upsert found committed, or one it would find. */
  predicate UpsertTarget(db: Tables, op: Op, row: Row) {
    match op
    case ResolvingUser(token) => row.OfUser? && row.user in db.users && db.users[row.user] == token
    case OpeningWallet(user) => row.OfWallet? && row.wallet in db.wallets && db.wallets[row.wallet].owner == user
    case _ => false
  }

  /** The call's next statement locks this row, or, for foreign keys, may be the one to lock it next. */
  predicate Wants(cfg: Config, db: Tables, call: Call, row: Row) {
    match call.pc
    case Claiming => UpsertTarget(db, call.op, row)
    case Sharing => row in ForeignRows(cfg, call.op) && row !in call.tx.locks
    case LockFirst => call.op.Transferring? && row == OfWallet(Lo(cfg, call.op.req))
    case LockSecond => call.op.Transferring? && row == OfWallet(Hi(cfg, call.op.req))
    case Debiting => call.op.Transferring? && row == OfWallet(From(cfg, call.op.req))
    case Crediting => call.op.Transferring? && row == OfWallet(To(cfg, call.op.req))
    case Funding => call.op.Minting? && row == OfWallet(Id(cfg, call.op.wallet))
    case _ => false
  }

  function WantedMode(cfg: Config, pc: PC): Mode {
    match pc
    case Claiming => Update
    case Sharing => KeyShare
    case LockFirst => cfg.mode
    case LockSecond => cfg.mode
    case _ => NoKeyUpdate
  }

  ghost predicate WaitsOnRow(cfg: Config, db: Tables, call: Call, other: Call, row: Row) {
    && row in other.tx.locks
    && Wants(cfg, db, call, row)
    && Conflicts(other.tx.locks[row], WantedMode(cfg, call.pc))
  }

  /** An edge of the waits-for graph: on a pending unique key, or on a row lock. */
  ghost predicate WaitsFor(cfg: Config, s: State, c: nat, d: nat) {
    && c in s.calls && d in s.calls && c != d
    && (|| (s.calls[c].pc == Claiming && s.calls[d].tx.claim == Some(ClaimOf(s.calls[c].op)))
        || (exists row :: WaitsOnRow(cfg, s.db, s.calls[c], s.calls[d], row)))
  }

  // ---------------------------------------------------------------------------
  // A rank that every edge climbs
  // ---------------------------------------------------------------------------

  datatype Rank = Rank(phase: nat, text: string)

  predicate Below(a: Rank, b: Rank) {
    a.phase < b.phase || (a.phase == b.phase && Less(a.text, b.text))
  }

  function RankOf(cfg: Config, call: Call): Rank {
    match call.pc
    case Claiming => Rank(0, "")
    case Sharing => Rank(1, "")
    case LockFirst => Rank(2, if call.op.Transferring? then cfg.canon(Lo(cfg, call.op.req)) else "")
    case LockSecond => Rank(2, if call.op.Transferring? then cfg.canon(Hi(cfg, call.op.req)) else "")
    case Funding => Rank(2, if call.op.Minting? then cfg.canon(Id(cfg, call.op.wallet)) else "")
    case _ => Rank(3, "")
  }

  lemma BelowIsTransitive(a: Rank, b: Rank, c: Rank)
    requires Below(a, b) && Below(b, c)
    ensures Below(a, c)
  {
    if a.phase == b.phase == c.phase {
      LessIsTransitive(a.text, b.text, c.text);
    }
  }

  lemma BelowIsIrreflexive(a: Rank)
    ensures !Below(a, a)
  {
    LessIsIrreflexive(a.text);
  }

  /** An orderly request takes its two locks in the order of the server's texts. */
  lemma AscendingOrder(cfg: Config, req: Request)
    requires Lawful(cfg) && AsShipped(cfg) && ValidRequest(cfg, req)
    requires Orderly(cfg, req.from, req.to)
    ensures Less(cfg.canon(Lo(cfg, req)), cfg.canon(Hi(cfg, req)))
  {
    var from, to := cfg.canon(From(cfg, req)), cfg.canon(To(cfg, req));
    assert cfg.parse(from) == Some(From(cfg, req)) && cfg.parse(to) == Some(To(cfg, req));
    LessIsTotal(req.from, req.to);
    LessIsTotal(from, to);
    if Less(req.to, req.from) && Less(req.from, req.to) {
      LessIsTransitive(req.from, req.to, req.from);
      LessIsIrreflexive(req.from);
    }
  }

  /** Where a call stands that holds a lock of a given strength. */
  lemma HolderStands(cfg: Config, db: Tables, d: nat, call: Call, row: Row)
    requires Lawful(cfg) && AsShipped(cfg) && CallInv(cfg, db, d, call) && row in call.tx.locks
    ensures RankOf(cfg, call).phase >= 1
    ensures call.tx.locks[row] == Update ==> RankOf(cfg, call).phase == 3
    ensures call.tx.locks[row] == NoKeyUpdate && row.OfWallet? ==>
      || RankOf(cfg, call).phase == 3
      || (call.op.Transferring? && call.pc == LockSecond && ValidRequest(cfg, call.op.req) && row == OfWallet(Lo(cfg, call.op.req)))
    ensures call.tx.locks[row] != Share
    ensures call.tx.locks[row] == NoKeyUpdate ==> row.OfWallet?
  {
    hide OutcomeInv, Provenance, Effect, Taken, TransferReads, TransferWrites;
  }

  lemma ClaimantStands(cfg: Config, db: Tables, d: nat, call: Call)
    requires CallInv(cfg, db, d, call) && call.tx.claim.Some?
    ensures RankOf(cfg, call).phase >= 1
  {
    hide OutcomeInv, Provenance, Effect, Taken, TransferReads, TransferWrites, TransferLocks;
  }

  lemma RowEdgeClimbs(cfg: Config, s: State, c: nat, d: nat, row: Row)
    requires Lawful(cfg) && AsShipped(cfg) && AllOrderly(cfg, s)
    requires c in s.calls && d in s.calls && c != d && CallInv(cfg, s.db, d, s.calls[d])
    requires Apart(s.calls[c].tx, s.calls[d].tx) && BatchIsLocked(cfg, s.calls[c])
    requires WaitsOnRow(cfg, s.db, s.calls[c], s.calls[d], row)
    ensures Below(RankOf(cfg, s.calls[c]), RankOf(cfg, s.calls[d]))
  {
    HolderStands(cfg, s.db, d, s.calls[d], row);
    if s.calls[d].pc == LockSecond && s.calls[d].op.Transferring? && row == OfWallet(Lo(cfg, s.calls[d].op.req)) && ValidRequest(cfg, s.calls[d].op.req) {
      AscendingOrder(cfg, s.calls[d].op.req);
    }
    hide CallInv, Less;
  }

  /** By the time of the batch both rows are locked, so its UPDATEs wait for nobody. */
  predicate BatchIsLocked(cfg: Config, call: Call) {
    (call.pc == Debiting || call.pc == Crediting) && call.op.Transferring? ==>
      Holds(call.tx, From(cfg, call.op.req)) && Holds(call.tx, To(cfg, call.op.req))
  }

  lemma BatchHolds(cfg: Config, db: Tables, c: nat, call: Call)
    requires Lawful(cfg) && CallInv(cfg, db, c, call)
    ensures BatchIsLocked(cfg, call)
  {
    hide OutcomeInv, Provenance, Effect, Taken, TransferReads, TransferWrites;
  }

  /** Every wait is for someone further along. */
  lemma EdgeClimbs(cfg: Config, s: State, c: nat, d: nat)
    requires Lawful(cfg) && AsShipped(cfg) && AllOrderly(cfg, s) && Inv(cfg, s)
    requires WaitsFor(cfg, s, c, d)
    ensures Below(RankOf(cfg, s.calls[c]), RankOf(cfg, s.calls[d]))
  {
    hide Sound, CallInv, Authored, Apart, AllOrderly, Lawful, Less;
    if s.calls[c].pc == Claiming && s.calls[d].tx.claim == Some(ClaimOf(s.calls[c].op)) {
      ClaimantStands(cfg, s.db, d, s.calls[d]);
    } else {
      var row :| WaitsOnRow(cfg, s.db, s.calls[c], s.calls[d], row);
      BatchHolds(cfg, s.db, c, s.calls[c]);
      RowEdgeClimbs(cfg, s, c, d, row);
    }
  }

  /** A chain of waits. */
  ghost predicate Chain(cfg: Config, s: State, path: seq<nat>) {
    |path| >= 2 && forall i | 0 <= i < |path| - 1 :: WaitsFor(cfg, s, path[i], path[i + 1])
  }

  lemma {:induction false} ChainClimbs(cfg: Config, s: State, path: seq<nat>)
    requires Lawful(cfg) && AsShipped(cfg) && AllOrderly(cfg, s) && Inv(cfg, s) && Chain(cfg, s, path)
    ensures path[0] in s.calls && path[|path| - 1] in s.calls
    ensures Below(RankOf(cfg, s.calls[path[0]]), RankOf(cfg, s.calls[path[|path| - 1]]))
    decreases |path|
  {
    hide Inv, RankOf, Below, AllOrderly, Lawful;
    assert WaitsFor(cfg, s, path[0], path[1]);
    EdgeClimbs(cfg, s, path[0], path[1]);
    if |path| > 2 {
      assert forall i | 0 <= i < |path[1..]| - 1 :: WaitsFor(cfg, s, path[1..][i], path[1..][i + 1]) by {
        forall i | 0 <= i < |path[1..]| - 1
          ensures WaitsFor(cfg, s, path[1..][i], path[1..][i + 1])
        {
          assert WaitsFor(cfg, s, path[i + 1], path[i + 2]);
        }
      }
      ChainClimbs(cfg, s, path[1..]);
      BelowIsTransitive(RankOf(cfg, s.calls[path[0]]), RankOf(cfg, s.calls[path[1]]), RankOf(cfg, s.calls[path[|path| - 1]]));
    }
  }

  /** The waits-for graph has no cycle in any reachable state, over keys, foreign-key locks, row locks, mints and upserts. */
  lemma NoDeadlock(cfg: Config, s: State, path: seq<nat>)
    requires Lawful(cfg) && AsShipped(cfg) && AllOrderly(cfg, s) && Reachable(cfg, s)
    requires Chain(cfg, s, path)
    ensures path[0] != path[|path| - 1]
  {
    ReachableKeeps(cfg, s);
    hide Inv, Reachable;
    ChainClimbs(cfg, s, path);
    BelowIsIrreflexive(RankOf(cfg, s.calls[path[0]]));
  }
}
