/** Every step of every call keeps the invariant. */
module Preservation {
  import opened Tables
  import opened Protocol
  import opened Invariant

  // ---------------------------------------------------------------------------
  // Locks and claims stay exclusive
  // ---------------------------------------------------------------------------

  ghost predicate ApartFromOthers(s: State, c: nat, tx: Tx) {
    forall d | d in s.calls && d != c :: Apart(tx, s.calls[d].tx)
  }

  lemma AcquireKeepsApart(s: State, c: nat, tx: Tx, tx': Tx, row: Row, mode: Mode)
    requires c in s.calls && ApartFromOthers(s, c, tx)
    requires Free(s, c, row, mode)
    requires tx'.claim == tx.claim
    requires tx'.locks == Acquire(tx.locks, row, mode) || tx'.locks == tx.locks[row := mode] || tx'.locks == map[row := mode]
    ensures ApartFromOthers(s, c, tx')
  {
  }

  lemma ClaimKeepsApart(s: State, c: nat, tx: Tx, tx': Tx, k: Claim)
    requires c in s.calls && ApartFromOthers(s, c, tx)
    requires Unclaimed(s, c, k)
    requires tx'.claim == Some(k) && tx'.locks == tx.locks
    ensures ApartFromOthers(s, c, tx')
  {
  }

  lemma WriteBalanceKeepsApart(s: State, c: nat, call: Call, w: nat, delta: int, next: PC, call': Call)
    requires c in s.calls && ApartFromOthers(s, c, call.tx)
    requires WriteBalance(s, c, call, w, delta, next) == Some(call')
    ensures ApartFromOthers(s, c, call'.tx)
  {
    NoTxIsApart(s, c);
    if call'.tx != NO_TX {
      AcquireKeepsApart(s, c, call.tx, call'.tx, OfWallet(w), NoKeyUpdate);
    }
  }

  lemma BatchKeepsApart(cfg: Config, s: State, c: nat, l: Label, call: Call)
    requires c in s.calls && l.c == c && ApartFromOthers(s, c, s.calls[c].tx)
    requires Move(cfg, s, c, l) == Some(call) && (l.Debit? || l.Credit? || l.Fund?)
    ensures ApartFromOthers(s, c, call.tx)
  {
    hide Apart, WriteBalance;
    var before := s.calls[c];
    SameLocksKeepApart(s, c, before.tx, before.tx.(debited := 0));
    SameLocksKeepApart(s, c, before.tx, before.tx.(debited := 1));
    SameLocksKeepApart(s, c, before.tx, before.tx.(credited := 0));
    SameLocksKeepApart(s, c, before.tx, before.tx.(credited := 1));
    match l
    case Debit(_) =>
      var w := From(cfg, before.op.req);
      if call.tx != before.tx.(debited := 0) {
        WriteBalanceKeepsApart(s, c, before.(tx := before.tx.(debited := 1)), w, -before.op.req.amount, Crediting, call);
      }
    case Credit(_) =>
      var w := To(cfg, before.op.req);
      if call.tx != before.tx.(credited := 0) {
        WriteBalanceKeepsApart(s, c, before.(tx := before.tx.(credited := 1)), w, before.op.req.amount, Booking, call);
      }
    case Fund(_) =>
      if call.tx != before.tx {
        WriteBalanceKeepsApart(s, c, before, Id(cfg, before.op.wallet), before.op.amount, ReadingBack, call);
      }
  }

  lemma MoveKeepsApart(cfg: Config, s: State, c: nat, l: Label, call: Call)
    requires c in s.calls && l.c == c && ApartFromOthers(s, c, s.calls[c].tx)
    requires Move(cfg, s, c, l) == Some(call)
    ensures ApartFromOthers(s, c, call.tx)
  {
    hide Apart, WriteBalance, MoveDebit, MoveCredit, MoveFund;
    var tx, tx' := s.calls[c].tx, call.tx;
    NoTxIsApart(s, c);
    if l.Debit? || l.Credit? || l.Fund? {
      BatchKeepsApart(cfg, s, c, l, call);
    } else if tx' != NO_TX {
      if tx'.claim == tx.claim && tx'.locks == tx.locks {
        SameLocksKeepApart(s, c, tx, tx');
      } else {
        AcquiringKeepsApart(cfg, s, c, l, call);
      }
    }
  }

  lemma AcquiringKeepsApart(cfg: Config, s: State, c: nat, l: Label, call: Call)
    requires c in s.calls && l.c == c && ApartFromOthers(s, c, s.calls[c].tx)
    requires Move(cfg, s, c, l) == Some(call) && !l.Debit? && !l.Credit? && !l.Fund?
    requires call.tx != NO_TX && (call.tx.claim != s.calls[c].tx.claim || call.tx.locks != s.calls[c].tx.locks)
    ensures ApartFromOthers(s, c, call.tx)
  {
    hide Apart, WriteBalance, MoveDebit, MoveCredit, MoveFund;
    var tx, tx' := s.calls[c].tx, call.tx;
    match l
    case Begin(_, now) => FreshTxIsApart(s, c, now);
    case Insert(_) => ClaimKeepsApart(s, c, tx, tx', tx'.claim.value);
    case Upsert(_, found) =>
      if found.None? {
        ClaimKeepsApart(s, c, tx, tx', tx'.claim.value);
      } else if s.calls[c].op.ResolvingUser? {
        AcquireKeepsApart(s, c, tx, tx', OfUser(found.value), Update);
      } else {
        AcquireKeepsApart(s, c, tx, tx', OfWallet(found.value), Update);
      }
    case CheckForeign(_, row) => AcquireKeepsApart(s, c, tx, tx', row, KeyShare);
    case LockWallet(_) =>
      var req := s.calls[c].op.req;
      var w := if s.calls[c].pc == LockFirst then Lo(cfg, req) else Hi(cfg, req);
      AcquireKeepsApart(s, c, tx, tx', OfWallet(w), cfg.mode);
  }

  lemma NoTxIsApart(s: State, c: nat)
    ensures ApartFromOthers(s, c, NO_TX)
  {
  }

  lemma FreshTxIsApart(s: State, c: nat, now: Time)
    ensures ApartFromOthers(s, c, FreshTx(now))
  {
  }

  lemma SameLocksKeepApart(s: State, c: nat, tx: Tx, tx': Tx)
    requires ApartFromOthers(s, c, tx) && tx'.claim == tx.claim && tx'.locks == tx.locks
    ensures ApartFromOthers(s, c, tx')
  {
  }

  // ---------------------------------------------------------------------------
  // Local assertions carry from one program point to the next
  // ---------------------------------------------------------------------------

  /** Between transactions a call needs no assertion about the tables beyond its outcome. */
  lemma IdleHolds(cfg: Config, db: Tables, c: nat, call: Call)
    requires call.attempt < MAX_TX_ATTEMPTS && call.tx == NO_TX && Provenance(cfg, db, c, call.op)
    requires call.op.ResolvingUser? || call.op.OpeningWallet? ==> call.attempt == 0
    requires if call.pc.Done? then OutcomeInv(cfg, db, c, call.op, call.pc.outcome) else call.pc.Start? && !Effect(db, c)
    ensures CallInv(cfg, db, c, call)
  {
    hide OutcomeInv, Effect, Provenance;
  }

  lemma FailKeeps(cfg: Config, db: Tables, c: nat, call: Call, e: Error)
    requires CallInv(cfg, db, c, call) && !call.pc.Done?
    requires OutcomeInv(cfg, db, c, call.op, Failed(e))
    ensures CallInv(cfg, db, c, Fail(call, e))
  {
    hide TransferInv, MintInv, UserInv, WalletInv, OutcomeInv, Taken, Provenance;
    IdleHolds(cfg, db, c, Fail(call, e));
  }

  lemma PlainFailKeeps(cfg: Config, db: Tables, c: nat, call: Call, e: Error)
    requires CallInv(cfg, db, c, call) && !call.pc.Done?
    requires e.Overflow? || e.CommitUnknown? || e.Other? || e.RetriesExhausted? || e.WalletNotFound? || e.SameWallet?
    requires call.op.ResolvingUser? || call.op.OpeningWallet? ==> e.CommitUnknown? || e.Other?
    ensures CallInv(cfg, db, c, Fail(call, e))
  {
    hide TransferInv, MintInv, UserInv, WalletInv, Taken, Provenance;
    FailKeeps(cfg, db, c, call, e);
  }

  lemma RetryKeeps(cfg: Config, db: Tables, c: nat, call: Call)
    requires CallInv(cfg, db, c, call) && !call.pc.Done?
    ensures CallInv(cfg, db, c, Retry(call))
  {
    PlainFailKeeps(cfg, db, c, call, Other);
    if call.op.Transferring? || call.op.Minting? {
      PlainFailKeeps(cfg, db, c, call, RetriesExhausted);
    }
    hide TransferInv, MintInv, UserInv, WalletInv, OutcomeInv, Taken, Provenance;
    if Retry(call).pc.Start? {
      IdleHolds(cfg, db, c, Retry(call));
    }
  }

  lemma InsertTransferKeeps(cfg: Config, s: State, c: nat, before: Call, call: Call)
    requires Lawful(cfg) && CallInv(cfg, s.db, c, before)
    requires before.pc == Claiming && before.op.Transferring?
    requires MoveInsertTransfer(cfg, s, c, before) == Some(call)
    ensures CallInv(cfg, s.db, c, call)
  {
    if call.pc.Done? {
      hide TransferInv, MintInv, UserInv, WalletInv, Taken, Provenance;
      FailKeeps(cfg, s.db, c, before, call.pc.outcome.error);
    } else {
      hide MintInv, UserInv, WalletInv, OutcomeInv;
    }
  }

  lemma InsertMintKeeps(cfg: Config, s: State, c: nat, before: Call, call: Call)
    requires Lawful(cfg) && CallInv(cfg, s.db, c, before)
    requires before.pc == Claiming && before.op.Minting?
    requires MoveInsertMint(cfg, s, c, before) == Some(call)
    ensures CallInv(cfg, s.db, c, call)
  {
    if call.pc.Done? {
      hide TransferInv, MintInv, UserInv, WalletInv, Taken, Provenance;
      FailKeeps(cfg, s.db, c, before, call.pc.outcome.error);
    } else {
      hide TransferInv, UserInv, WalletInv, OutcomeInv;
    }
  }

  lemma UpsertKeeps(cfg: Config, s: State, c: nat, found: Option<nat>, call: Call)
    requires Lawful(cfg) && c in s.calls && CallInv(cfg, s.db, c, s.calls[c])
    requires Move(cfg, s, c, Upsert(c, found)) == Some(call)
    ensures CallInv(cfg, s.db, c, call)
  {
  }

  lemma CheckForeignKeeps(cfg: Config, s: State, c: nat, before: Call, row: Row, call: Call)
    requires Lawful(cfg) && CallInv(cfg, s.db, c, before)
    requires MoveCheckForeign(cfg, s, c, before, row) == Some(call)
    ensures CallInv(cfg, s.db, c, call)
  {
    if call.pc.Done? {
      hide CallInv;
      PlainFailKeeps(cfg, s.db, c, before, call.pc.outcome.error);
    } else if before.op.Transferring? {
      hide CallInv;
      CheckForeignKeepsTransfer(cfg, s, c, before, row, call);
    } else {
      hide OutcomeInv, Taken, Effect, TransferInv;
    }
  }

  lemma CheckForeignKeepsTransfer(cfg: Config, s: State, c: nat, before: Call, row: Row, call: Call)
    requires Lawful(cfg) && CallInv(cfg, s.db, c, before) && before.op.Transferring?
    requires MoveCheckForeign(cfg, s, c, before, row) == Some(call) && !call.pc.Done?
    ensures CallInv(cfg, s.db, c, call)
  {
    hide OutcomeInv;
    assert call.tx.locks.Keys == before.tx.locks.Keys + {row};
  }

  lemma LockFirstKeeps(cfg: Config, db: Tables, c: nat, before: Call, call: Call)
    requires Lawful(cfg) && CallInv(cfg, db, c, before) && before.op.Transferring? && before.pc.LockFirst?
    requires var w := Lo(cfg, before.op.req);
      && w in db.wallets
      && call == before.(pc := LockSecond,
                         tx := before.tx.(locks := Acquire(before.tx.locks, OfWallet(w), cfg.mode),
                                          read := before.tx.read[cfg.canon(w) := db.wallets[w].balance]))
    ensures CallInv(cfg, db, c, call)
  {
    hide OutcomeInv, Taken, Effect, MintInv, UserInv, WalletInv;
    assert OfWallet(Lo(cfg, before.op.req)) in before.tx.locks;
    assert call.tx.locks.Keys == before.tx.locks.Keys;
  }

  lemma LockSecondKeeps(cfg: Config, db: Tables, c: nat, before: Call, call: Call)
    requires Lawful(cfg) && CallInv(cfg, db, c, before) && before.op.Transferring? && before.pc.LockSecond?
    requires var w := Hi(cfg, before.op.req);
      && w in db.wallets
      && call == before.(pc := Deciding,
                         tx := before.tx.(locks := Acquire(before.tx.locks, OfWallet(w), cfg.mode),
                                          read := before.tx.read[cfg.canon(w) := db.wallets[w].balance]))
    ensures CallInv(cfg, db, c, call)
  {
    hide OutcomeInv, Taken, Effect, MintInv, UserInv, WalletInv;
    assert OfWallet(Hi(cfg, before.op.req)) in before.tx.locks;
    assert call.tx.locks.Keys == before.tx.locks.Keys;
  }

  lemma LockWalletKeeps(cfg: Config, s: State, c: nat, before: Call, call: Call)
    requires Lawful(cfg) && CallInv(cfg, s.db, c, before) && before.op.Transferring?
    requires MoveLockWallet(cfg, s, c, before) == Some(call)
    ensures CallInv(cfg, s.db, c, call)
  {
    hide CallInv;
    if call.pc.Done? {
      PlainFailKeeps(cfg, s.db, c, before, WalletNotFound);
    } else {
      if before.pc.LockFirst? {
        LockFirstKeeps(cfg, s.db, c, before, call);
      } else {
        LockSecondKeeps(cfg, s.db, c, before, call);
      }
    }
  }

  /** Under the locks, the Go lookup succeeds exactly for canonical text and then reads the committed balance. */
  lemma LookupReadsTheBalance(cfg: Config, db: Tables, req: Request, tx: Tx)
    requires Lawful(cfg) && ValidRequest(cfg, req)
    requires TransferReads(cfg, db, req, Deciding, tx)
    ensures Lookup(tx.read, req.from) == if Canonical(cfg, req.from) then Balance(db, From(cfg, req)) else 0
  {
    assert cfg.parse(cfg.canon(From(cfg, req))) == Some(From(cfg, req));
    assert cfg.parse(cfg.canon(To(cfg, req))) == Some(To(cfg, req));
  }

  lemma DecideKeeps(cfg: Config, s: State, c: nat, before: Call, call: Call)
    requires Lawful(cfg) && CallInv(cfg, s.db, c, before) && before.op.Transferring?
    requires MoveDecide(before, c) == Some(call)
    ensures CallInv(cfg, s.db, c, call)
  {
    var req := before.op.req;
    assert TransferActive(cfg, s.db, c, before) by {
      hide OutcomeInv, MintInv, UserInv, WalletInv, Taken, Effect, Provenance, TransferActive;
    }
    assert Lookup(before.tx.read, req.from) == if Canonical(cfg, req.from) then Balance(s.db, From(cfg, req)) else 0 by {
      LookupReadsTheBalance(cfg, s.db, req, before.tx);
    }
    hide TransferActive, Lookup, Canonical, Lawful;
    if call.pc == Debiting {
      ApplyBranchKeeps(cfg, s.db, c, before, call);
    } else {
      DeclineBranchKeeps(cfg, s.db, c, before, call);
    }
  }

  lemma ApplyBranchKeeps(cfg: Config, db: Tables, c: nat, before: Call, call: Call)
    requires CallInv(cfg, db, c, before) && before.op.Transferring? && before.pc == Deciding
    requires Payable(cfg, db, before.op.req) && call == before.(pc := Debiting)
    ensures CallInv(cfg, db, c, call)
  {
    hide OutcomeInv, MintInv, UserInv, WalletInv, Taken, Effect, Provenance, Payable, TransferLocks, ForeignRows;
    SameLocks(cfg, before.op.req, Deciding, Debiting, before.tx.locks);
  }

  lemma DeclineBranchKeeps(cfg: Config, db: Tables, c: nat, before: Call, call: Call)
    requires CallInv(cfg, db, c, before) && before.op.Transferring? && before.pc == Deciding
    requires !Payable(cfg, db, before.op.req) && MoveDecide(before, c) == Some(call) && call.pc == Committing
    ensures CallInv(cfg, db, c, call)
  {
    hide OutcomeInv, MintInv, UserInv, WalletInv, Taken, Effect, Provenance, Payable, TransferLocks, ForeignRows, Lookup, Moves;
    SameLocks(cfg, before.op.req, Deciding, Committing, before.tx.locks);
  }

  /** From the decision on, the row locks stay as they are. */
  lemma SameLocks(cfg: Config, req: Request, pc: PC, pc': PC, locks: map<Row, Mode>)
    requires pc.Deciding? && (pc'.Debiting? || pc'.Committing?)
    ensures TransferLocks(cfg, req, pc, locks) == TransferLocks(cfg, req, pc', locks)
  {
  }

  lemma DebitKeeps(cfg: Config, s: State, c: nat, before: Call, call: Call)
    requires Lawful(cfg) && CallInv(cfg, s.db, c, before) && before.op.Transferring?
    requires Sound(s.db)
    requires MoveDebit(cfg, s, c, before) == Some(call)
    ensures CallInv(cfg, s.db, c, call)
  {
    hide OutcomeInv, Sound, MintInv, UserInv, WalletInv, Taken, Effect, Provenance;
    assert 0 <= Balance(s.db, From(cfg, before.op.req)) <= INT64_MAX by { BalanceInRange(s.db, From(cfg, before.op.req)); }
  }

  lemma BalanceInRange(db: Tables, w: nat)
    requires Sound(db)
    ensures 0 <= Balance(db, w) <= INT64_MAX
  {
  }

  lemma CreditKeeps(cfg: Config, s: State, c: nat, before: Call, call: Call)
    requires Lawful(cfg) && CallInv(cfg, s.db, c, before) && before.op.Transferring?
    requires Balance(s.db, To(cfg, before.op.req)) >= 0
    requires MoveCredit(cfg, s, c, before) == Some(call)
    ensures CallInv(cfg, s.db, c, call)
  {
    hide OutcomeInv, UserInv, WalletInv, Taken, Effect;
    PlainFailKeeps(cfg, s.db, c, before, Overflow);
    assert OfWallet(To(cfg, before.op.req)) in before.tx.locks;
  }

  lemma BookKeeps(cfg: Config, db: Tables, c: nat, before: Call, call: Call)
    requires CallInv(cfg, db, c, before) && before.op.Transferring?
    requires MoveBook(cfg, c, before) == Some(call)
    ensures CallInv(cfg, db, c, call)
  {
    hide OutcomeInv, MintInv, UserInv, WalletInv, Taken, Effect, Provenance;
  }

  lemma CompleteKeeps(cfg: Config, db: Tables, c: nat, before: Call, call: Call)
    requires CallInv(cfg, db, c, before) && before.op.Transferring?
    requires MoveComplete(before) == Some(call)
    ensures CallInv(cfg, db, c, call)
  {
    hide OutcomeInv, MintInv, UserInv, WalletInv, Taken, Effect, Provenance;
  }

  lemma InspectKeeps(cfg: Config, db: Tables, c: nat, before: Call, call: Call)
    requires CallInv(cfg, db, c, before) && before.op.Transferring?
    requires MoveInspect(before, c) == Some(call)
    ensures CallInv(cfg, db, c, call)
  {
    hide OutcomeInv, MintInv, UserInv, WalletInv, Taken, Effect, Provenance;
  }

  lemma FundKeeps(cfg: Config, s: State, c: nat, before: Call, call: Call)
    requires Lawful(cfg) && CallInv(cfg, s.db, c, before) && before.op.Minting?
    requires Balance(s.db, Id(cfg, before.op.wallet)) >= 0
    requires MoveFund(cfg, s, c, before) == Some(call)
    ensures CallInv(cfg, s.db, c, call)
  {
    hide OutcomeInv, UserInv, WalletInv, Taken, Effect;
    PlainFailKeeps(cfg, s.db, c, before, Overflow);
  }

  lemma ReadBackKeeps(cfg: Config, s: State, c: nat, before: Call, call: Call)
    requires Lawful(cfg) && CallInv(cfg, s.db, c, before) && before.op.Minting?
    requires MoveReadBack(cfg, s, before) == Some(call)
    ensures CallInv(cfg, s.db, c, call)
  {
    if call.pc.Done? {
      hide CallInv;
      PlainFailKeeps(cfg, s.db, c, before, WalletNotFound);
    } else {
      hide OutcomeInv, TransferInv, UserInv, WalletInv;
    }
  }

  lemma ReplayKeeps(cfg: Config, s: State, c: nat, before: Call, found: Option<nat>, call: Call)
    requires Lawful(cfg) && CallInv(cfg, s.db, c, before) && before.op.Transferring?
    requires MoveReplay(cfg, s, before, found) == Some(call)
    ensures CallInv(cfg, s.db, c, call)
  {
  }

  lemma QuietMoveKeeps(cfg: Config, s: State, c: nat, l: Label, call: Call)
    requires Lawful(cfg) && Sound(s.db) && c in s.calls && l.c == c && CallInv(cfg, s.db, c, s.calls[c])
    requires Move(cfg, s, c, l) == Some(call) && !Lands(l)
    ensures CallInv(cfg, s.db, c, call)
  {
    hide CallInv, Sound, MoveInsertTransfer, MoveInsertMint, MoveCheckForeign, MoveLockWallet, MoveDecide,
      MoveDebit, MoveCredit, MoveFund, MoveReadBack, MoveReplay, MoveUpsertUser, MoveUpsertWallet,
      MoveBook, MoveComplete, MoveInspect, Retry;
    var before := s.calls[c];
    match l
    case Begin(_, now) => BeginKeeps(cfg, s.db, c, before, now, call);
    case Insert(_) =>
      if before.op.Transferring? {
        InsertTransferKeeps(cfg, s, c, before, call);
      } else {
        InsertMintKeeps(cfg, s, c, before, call);
      }
    case Upsert(_, found) => UpsertKeeps(cfg, s, c, found, call);
    case CheckForeign(_, row) => CheckForeignKeeps(cfg, s, c, before, row, call);
    case LockWallet(_) => LockWalletKeeps(cfg, s, c, before, call);
    case Decide(_) => DecideKeeps(cfg, s, c, before, call);
    case Debit(_) => DebitKeeps(cfg, s, c, before, call);
    case Credit(_) =>
      BalanceInRange(s.db, To(cfg, before.op.req));
      CreditKeeps(cfg, s, c, before, call);
    case Book(_) => BookKeeps(cfg, s.db, c, before, call);
    case Complete(_) => CompleteKeeps(cfg, s.db, c, before, call);
    case Inspect(_) => InspectKeeps(cfg, s.db, c, before, call);
    case Fund(_) =>
      BalanceInRange(s.db, Id(cfg, before.op.wallet));
      FundKeeps(cfg, s, c, before, call);
    case ReadBack(_) => ReadBackKeeps(cfg, s, c, before, call);
    case Replay(_, found) => ReplayKeeps(cfg, s, c, before, found, call);
    case Commit(_, how) => StopKeeps(cfg, s.db, c, before, call);
    case Abort(_, transient) => StopKeeps(cfg, s.db, c, before, call);
  }

  lemma BeginKeeps(cfg: Config, db: Tables, c: nat, before: Call, now: Time, call: Call)
    requires CallInv(cfg, db, c, before)
    requires MoveBegin(before, now) == Some(call)
    ensures CallInv(cfg, db, c, call)
  {
    if call.pc.Done? {
      PlainFailKeeps(cfg, db, c, before, SameWallet);
    } else {
      hide OutcomeInv, Taken, Effect, Provenance;
    }
  }

  lemma StopKeeps(cfg: Config, db: Tables, c: nat, before: Call, call: Call)
    requires CallInv(cfg, db, c, before) && !before.pc.Done?
    requires call == Retry(before) || call == Fail(before, Other) || call == Fail(before, CommitUnknown)
    ensures CallInv(cfg, db, c, call)
  {
    hide CallInv;
    RetryKeeps(cfg, db, c, before);
    PlainFailKeeps(cfg, db, c, before, Other);
    PlainFailKeeps(cfg, db, c, before, CommitUnknown);
  }

  // ---------------------------------------------------------------------------
  // Steps that change one call and no table
  // ---------------------------------------------------------------------------

  lemma QuietStepKeeps(cfg: Config, s: State, c: nat, call: Call)
    requires Inv(cfg, s) && c in s.calls
    requires CallInv(cfg, s.db, c, call) && ApartFromOthers(s, c, call.tx)
    ensures Inv(cfg, s.(calls := s.calls[c := call]))
  {
    hide CallInv, Sound, Effect;
    var s' := s.(calls := s.calls[c := call]);
    forall a, b | a in s'.calls && b in s'.calls && a != b
      ensures Apart(s'.calls[a].tx, s'.calls[b].tx)
    {
      if b == c {
        assert Apart(call.tx, s.calls[a].tx);
      }
    }
  }
}
