/** The commit step: the only one that changes the tables. */
module CommitStep {
  import opened Tables
  import opened Protocol
  import opened Invariant
  import opened Landing
  import opened Preservation

  /** Uncommitted rows belong to call `c` and stand behind its claim. */
  ghost predicate Covered(db: Tables, c: nat, tx: Tx) {
    && !Effect(db, c)
    && (forall w | w in tx.writes.balances :: Holds(tx, w))
    && (tx.writes.transfer.Some? ==> tx.claim == Some(TransferKey(tx.writes.transfer.value.key)))
    && (forall m | m in tx.writes.mints :: m.id == c && tx.claim == Some(MintKey(m.key)))
    && (tx.writes.user.Some? ==> tx.claim == Some(TokenKey(tx.writes.user.value)))
    && (tx.writes.wallet.Some? ==>
          tx.claim == Some(OwnerKey(tx.writes.wallet.value.owner)) && tx.writes.wallet.value.balance == 0
          && c !in tx.writes.balances)
  }

  lemma ApplyGrows(db: Tables, c: nat, tx: Tx)
    requires Covered(db, c, tx)
    ensures Grows(db, Apply(db, c, tx.writes))
  {
  }

  lemma ApplyTakesOwnClaim(db: Tables, c: nat, tx: Tx, k: Claim)
    requires Covered(db, c, tx) && !Taken(db, k) && tx.claim != Some(k)
    ensures !Taken(Apply(db, c, tx.writes), k)
  {
    var db' := Apply(db, c, tx.writes);
    hide Effect, Holds;
    match k
    case TransferKey(key) =>
      assert forall t | t in db'.transfers :: db'.transfers[t].key != key;
    case MintKey(idem) =>
      assert forall i | 0 <= i < |db'.mints| :: db'.mints[i].key != idem by {
        forall i | 0 <= i < |db'.mints|
          ensures db'.mints[i].key != idem
        {
          if i >= |db.mints| {
            assert db'.mints[i] in tx.writes.mints;
          }
        }
      }
    case TokenKey(token) =>
      assert forall u | u in db'.users :: db'.users[u] != token;
    case OwnerKey(owner) =>
      assert forall w | w in db'.wallets :: db'.wallets[w].owner != owner;
  }

  lemma ApplyHasNoOtherEffect(db: Tables, c: nat, tx: Tx, d: nat)
    requires Covered(db, c, tx) && d != c
    ensures Effect(Apply(db, c, tx.writes), d) <==> Effect(db, d)
    ensures var db' := Apply(db, c, tx.writes);
      && (d in db'.transfers ==> d in db.transfers) && (d in db'.users ==> d in db.users) && (d in db'.wallets ==> d in db.wallets)
      && (forall i | |db.mints| <= i < |db'.mints| :: db'.mints[i].id != d)
  {
    hide Taken, Holds;
    var db' := Apply(db, c, tx.writes);
    assert forall i | |db.mints| <= i < |db'.mints| :: db'.mints[i] in tx.writes.mints;
    if i :| 0 <= i < |db'.mints| && db'.mints[i].id == d {
      assert i < |db.mints| && db.mints[i].id == d;
    }
    if i :| 0 <= i < |db.mints| && db.mints[i].id == d {
      assert db'.mints[i] == db.mints[i];
    }
  }

  /** What one transaction has read under its locks, another's commit cannot move. */
  lemma ApplyUndisturbs(db: Tables, c: nat, tx: Tx, d: nat, other: Tx)
    requires Covered(db, c, tx) && d != c && Apart(tx, other)
    ensures Untouched(db, Apply(db, c, tx.writes), d, other)
  {
    var db' := Apply(db, c, tx.writes);
    ApplyGrows(db, c, tx);
    ApplyHasNoOtherEffect(db, c, tx, d);
    if other.claim.Some? && !Taken(db, other.claim.value) {
      ApplyTakesOwnClaim(db, c, tx, other.claim.value);
    }
    hide Effect, Taken;
    forall w | Holds(other, w)
      ensures Balance(db', w) == Balance(db, w)
    {
      assert w !in tx.writes.balances;
    }
  }

  /** The tables after a commit are sound, whatever the call was. */
  lemma CommitIsSound(cfg: Config, db: Tables, c: nat, call: Call)
    requires Lawful(cfg) && Sound(db) && CallInv(cfg, db, c, call) && call.pc.Committing?
    ensures Covered(db, c, call.tx)
    ensures Sound(Apply(db, c, call.tx.writes))
  {
    hide Sound;
    match call.op
    case Transferring(req) => TransferCommitIsSound(cfg, db, c, call);
    case Minting(_, _, _) => MintCommitIsSound(cfg, db, c, call);
    case ResolvingUser(_) => UserCommitIsSound(cfg, db, c, call);
    case OpeningWallet(_) => WalletCommitIsSound(cfg, db, c, call);
  }

  lemma TransferCommitIsSound(cfg: Config, db: Tables, c: nat, call: Call)
    requires Lawful(cfg) && Sound(db) && CallInv(cfg, db, c, call) && call.pc.Committing? && call.op.Transferring?
    ensures Covered(db, c, call.tx)
    ensures Sound(Apply(db, c, call.tx.writes))
  {
    hide Sound, OutcomeInv, Taken;
    var req, tx := call.op.req, call.tx;
    var from, to := From(cfg, req), To(cfg, req);
    assert OfUser(req.requester) in tx.locks && OfWallet(from) in tx.locks && OfWallet(to) in tx.locks;
    assert Exists(db, OfUser(req.requester)) && Exists(db, OfWallet(from)) && Exists(db, OfWallet(to));
    var row := tx.writes.transfer.value;
    assert FreshKey(db, c, row);
    if Moving(cfg, db, c, req, tx) {
      ApplyMoved(cfg, db, c, req, tx);
      SettleIsSound(db, c, row);
    } else {
      ApplyRow(db, c, row);
      DeclineIsSound(db, c, row);
    }
  }

  lemma MintCommitIsSound(cfg: Config, db: Tables, c: nat, call: Call)
    requires Sound(db) && CallInv(cfg, db, c, call) && call.pc.Committing? && call.op.Minting?
    ensures Covered(db, c, call.tx)
    ensures Sound(Apply(db, c, call.tx.writes))
  {
    hide Sound, OutcomeInv, Taken;
    if call.tx.writes == NO_WRITES {
      ApplyNothing(db, c);
    } else {
      ApplyMint(cfg, db, c, call);
      EndowIsSound(db, Mint(c, call.op.idem, Id(cfg, call.op.wallet), call.op.amount));
    }
  }

  lemma UserCommitIsSound(cfg: Config, db: Tables, c: nat, call: Call)
    requires Sound(db) && CallInv(cfg, db, c, call) && call.pc.Committing? && call.op.ResolvingUser?
    ensures Covered(db, c, call.tx)
    ensures Sound(Apply(db, c, call.tx.writes))
  {
    hide Sound, OutcomeInv, Taken;
    if call.tx.writes == NO_WRITES {
      ApplyNothing(db, c);
    } else {
      ApplyNewUser(db, c, call.op.token);
      NewUserIsSound(db, c, call.op.token);
    }
  }

  lemma WalletCommitIsSound(cfg: Config, db: Tables, c: nat, call: Call)
    requires Sound(db) && CallInv(cfg, db, c, call) && call.pc.Committing? && call.op.OpeningWallet?
    ensures Covered(db, c, call.tx)
    ensures Sound(Apply(db, c, call.tx.writes))
  {
    hide Sound, OutcomeInv, Taken;
    if call.tx.writes == NO_WRITES {
      ApplyNothing(db, c);
    } else {
      var row := call.tx.writes.wallet.value;
      ApplyNewWallet(db, c, row);
      NewWalletIsSound(db, c, row);
    }
  }

  /** The author's own outcome is true of the tables it leaves, acknowledged or not. */
  lemma CommitOutcome(cfg: Config, db: Tables, c: nat, call: Call)
    requires Lawful(cfg) && Sound(db) && CallInv(cfg, db, c, call) && call.pc.Committing?
    ensures call.result.Some? && !call.result.value.Failed?
    ensures OutcomeInv(cfg, Apply(db, c, call.tx.writes), c, call.op, call.result.value)
  {
    hide Sound, Taken;
    var db' := Apply(db, c, call.tx.writes);
    match call.op
    case Transferring(req) =>
      var tx := call.tx;
      assert c in db'.transfers && db'.transfers[c] == tx.writes.transfer.value;
    case Minting(_, _, _) =>
      if call.tx.writes == NO_WRITES {
        ApplyNothing(db, c);
      } else {
        assert db'.mints[|db.mints|].id == c;
      }
    case ResolvingUser(_) =>
    case OpeningWallet(_) =>
      if call.tx.writes == NO_WRITES {
        ApplyNothing(db, c);
        assert call.result.value.wallet.id in db.wallets && c !in db.wallets;
      }
  }

  lemma CommitProvenance(cfg: Config, db: Tables, c: nat, call: Call)
    requires Lawful(cfg) && CallInv(cfg, db, c, call) && call.pc.Committing?
    ensures Provenance(cfg, Apply(db, c, call.tx.writes), c, call.op)
  {
    hide OutcomeInv, Taken, TransferLocks, TransferReads, Holds;
    var db' := Apply(db, c, call.tx.writes);
    assert forall i | 0 <= i < |db.mints| :: db'.mints[i] == db.mints[i];
    assert forall i | |db.mints| <= i < |db'.mints| :: db'.mints[i] == call.tx.writes.mints[i - |db.mints|];
  }

  lemma LandKeepsApart(s: State, c: nat, call': Call)
    requires c in s.calls && call'.tx == NO_TX
    requires forall a, b | a in s.calls && b in s.calls && a != b :: Apart(s.calls[a].tx, s.calls[b].tx)
    ensures var calls := s.calls[c := call'];
            forall a, b | a in calls && b in calls && a != b :: Apart(calls[a].tx, calls[b].tx)
  {
    var calls := s.calls[c := call'];
    forall a, b | a in calls && b in calls && a != b
      ensures Apart(calls[a].tx, calls[b].tx)
    {
      if a != c && b != c {
        assert Apart(s.calls[a].tx, s.calls[b].tx);
      }
    }
  }

  lemma LandKeepsOthers(cfg: Config, s: State, c: nat)
    requires Lawful(cfg) && Inv(cfg, s) && c in s.calls && Covered(s.db, c, s.calls[c].tx)
    ensures forall d | d in s.calls && d != c :: CallInv(cfg, Apply(s.db, c, s.calls[c].tx.writes), d, s.calls[d])
  {
    hide CallInv, Sound, Effect, Covered, Untouched, Apart;
    var tx := s.calls[c].tx;
    forall d | d in s.calls && d != c
      ensures CallInv(cfg, Apply(s.db, c, tx.writes), d, s.calls[d])
    {
      ApplyUndisturbs(s.db, c, tx, d, s.calls[d].tx);
      CallStays(cfg, s.db, Apply(s.db, c, tx.writes), d, s.calls[d]);
    }
  }

  lemma LandKeepsAuthored(s: State, c: nat, call': Call)
    requires c in s.calls && Authored(s) && Covered(s.db, c, s.calls[c].tx)
    ensures Authored(State(Apply(s.db, c, s.calls[c].tx.writes), s.calls[c := call']))
  {
    hide Effect, Covered;
    var s' := State(Apply(s.db, c, s.calls[c].tx.writes), s.calls[c := call']);
    forall d | Effect(s'.db, d)
      ensures d in s'.calls
    {
      if d != c {
        ApplyHasNoOtherEffect(s.db, c, s.calls[c].tx, d);
      }
    }
  }

  lemma LandKeeps(cfg: Config, s: State, c: nat, how: CommitResult)
    requires Lawful(cfg) && Inv(cfg, s)
    requires Step(cfg, s, Commit(c, how)).Some? && Lands(Commit(c, how))
    ensures Inv(cfg, Step(cfg, s, Commit(c, how)).value)
  {
    hide CallInv, Sound, Covered, Provenance, Authored, Apart, Apply, OutcomeInv;
    var call := s.calls[c];
    var s' := Step(cfg, s, Commit(c, how)).value;
    var call' := s'.calls[c];
    CommitIsSound(cfg, s.db, c, call);
    CommitOutcome(cfg, s.db, c, call);
    CommitProvenance(cfg, s.db, c, call);
    LandedCall(cfg, s, c, how, call');
    LandKeepsOthers(cfg, s, c);
    LandKeepsApart(s, c, call');
    LandKeepsAuthored(s, c, call');
  }

  lemma LandedCall(cfg: Config, s: State, c: nat, how: CommitResult, call': Call)
    requires c in s.calls && MoveCommit(s.calls[c], how) == Some(call') && Lands(Commit(c, how))
    requires CallInv(cfg, s.db, c, s.calls[c])
    requires s.calls[c].result.Some?
    requires OutcomeInv(cfg, Apply(s.db, c, s.calls[c].tx.writes), c, s.calls[c].op, s.calls[c].result.value)
    requires Provenance(cfg, Apply(s.db, c, s.calls[c].tx.writes), c, s.calls[c].op)
    ensures CallInv(cfg, Apply(s.db, c, s.calls[c].tx.writes), c, call')
  {
    hide OutcomeInv, Taken, Effect, Provenance;
    LostOutcome(cfg, Apply(s.db, c, s.calls[c].tx.writes), c, s.calls[c].op);
  }

  lemma LostOutcome(cfg: Config, db: Tables, c: nat, op: Op)
    ensures OutcomeInv(cfg, db, c, op, Failed(CommitUnknown))
  {
  }

  // ---------------------------------------------------------------------------
  // Every step, every run
  // ---------------------------------------------------------------------------

  lemma ArriveKeeps(cfg: Config, s: State, c: nat, op: Op)
    requires Inv(cfg, s) && c !in s.calls
    ensures Inv(cfg, Step(cfg, s, Arrive(c, op)).value)
  {
    var s' := Step(cfg, s, Arrive(c, op)).value;
    var call := s'.calls[c];
    assert !Effect(s.db, c);
    assert CallInv(cfg, s.db, c, call);
    hide CallInv, Sound, Effect;
    NoTxIsApart(s, c);
    forall a, b | a in s'.calls && b in s'.calls && a != b
      ensures Apart(s'.calls[a].tx, s'.calls[b].tx)
    {
    }
  }

  lemma StepKeeps(cfg: Config, s: State, l: Label)
    requires Lawful(cfg) && Inv(cfg, s) && Step(cfg, s, l).Some?
    ensures Inv(cfg, Step(cfg, s, l).value)
  {
    if l.Arrive? {
      ArriveKeeps(cfg, s, l.c, l.op);
    } else if Lands(l) {
      LandKeeps(cfg, s, l.c, l.how);
    } else {
      hide Sound, CallInv, Authored, Apart;
      var call := Step(cfg, s, l).value.calls[l.c];
      QuietMoveKeeps(cfg, s, l.c, l, call);
      MoveKeepsApart(cfg, s, l.c, l, call);
      QuietStepKeeps(cfg, s, l.c, call);
    }
  }

  lemma {:induction false} RunKeeps(cfg: Config, s: State, run: seq<Label>)
    requires Lawful(cfg) && Inv(cfg, s) && Exec(cfg, s, run).Some?
    ensures Inv(cfg, Exec(cfg, s, run).value)
  {
    hide Inv;
    if run != [] {
      RunKeeps(cfg, s, run[..|run| - 1]);
      StepKeeps(cfg, Exec(cfg, s, run[..|run| - 1]).value, run[|run| - 1]);
    }
  }

  /** Runs compose. */
  lemma {:induction false} ExecAppends(cfg: Config, s: State, a: seq<Label>, b: seq<Label>)
    requires Exec(cfg, s, a).Some? && Exec(cfg, Exec(cfg, s, a).value, b).Some?
    ensures Exec(cfg, s, a + b) == Exec(cfg, Exec(cfg, s, a).value, b)
  {
    hide Step;
    if b == [] {
      assert a + b == a;
    } else {
      var before := b[..|b| - 1];
      ExecAppends(cfg, s, a, before);
      assert (a + b)[..|a + b| - 1] == a + before;
    }
  }

  lemma InitHolds(cfg: Config)
    ensures Inv(cfg, INIT)
  {
  }

  /** The invariant holds in every reachable state. */
  lemma ReachableKeeps(cfg: Config, s: State)
    requires Lawful(cfg) && Reachable(cfg, s)
    ensures Inv(cfg, s)
  {
    hide Inv;
    var run :| Exec(cfg, INIT, run) == Some(s);
    InitHolds(cfg);
    RunKeeps(cfg, INIT, run);
  }
}
