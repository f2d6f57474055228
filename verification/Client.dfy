/**
 `Store.Transfer` as the client program it is: early returns, captured variables, a map filled in a loop and
 a retry loop, against a database that other calls change between any two statements.
 */
module Client {
  import opened Tables
  import opened Text
  import opened Protocol
  import opened Invariant
  import opened CommitStep
  import opened Guarantees
  import opened Termination
  import opened Verdict

  /** The environment's choices, by statement number: what others do first, whether it fails, how commits end. */
  datatype Env = Env(others: nat -> seq<Label>, fault: nat -> Option<bool>, now: nat -> Time, how: nat -> CommitResult)

  /** What one statement did to the call, whatever the tables were by then. */
  ghost predicate Did(cfg: Config, c: nat, before: Call, l: Label, after: Call) {
    exists mid: State :: c in mid.calls && mid.calls[c] == before && Move(cfg, mid, c, l) == Some(after)
  }

  /** How a transaction body ends. */
  datatype Ending = Nil | LostRace | Transient | Error(error: Protocol.Error)

  /** The call failed for a reason no retry can fix. */
  predicate FailedWith(call: Call) {
    call.pc.Done? && call.pc.outcome.Failed? && call.pc.outcome.error != RetriesExhausted
  }

  /** After a transient error: attempt `n` is about to begin, unless that would be one too many. */
  predicate NextAttempt(call: Call, n: nat) {
    if n < 5 then call.pc == Start && call.attempt == n
    else call.pc == Done(Failed(RetriesExhausted))
  }

  /** A statement that failed: rolled back, and to be retried or reported. */
  predicate Stopped(before: Call, after: Call) {
    after.op == before.op && (NextAttempt(after, before.attempt + 1) || FailedWith(after))
  }

  /** The body was cut short by an error. */
  predicate Broke(call: Call, attempt: nat, e: Ending) {
    match e
    case Transient => NextAttempt(call, attempt + 1)
    case Error(error) => FailedWith(call) && error == call.pc.outcome.error
    case _ => false
  }

  /** The ending of the body of the given attempt is the one the call's record shows. */
  predicate Reports(call: Call, attempt: nat, e: Ending, stored: Option<Outcome>) {
    match e
    case Nil => call.pc == Committing && call.attempt == attempt && stored.Some? && call.result == stored
    case LostRace => call.pc == Replaying
    case _ => Broke(call, attempt, e)
  }

  // ---------------------------------------------------------------------------
  // A call that nobody and nothing disturbs
  // ---------------------------------------------------------------------------

  /** No statement fails for reasons of its own, every commit is acknowledged, and nobody else runs. */
  ghost predicate Calm(env: Env) {
    forall k: nat :: env.fault(k).None? && env.how(k).Acked? && env.others(k) == []
  }

  /** From `before` to `after` call `c`, if left alone, has kept on the way to the answer that is due. */
  ghost predicate Smooth(cfg: Config, env: Env, before: State, after: State, c: nat)
    requires c in before.calls && Retried(before.calls[c].op)
  {
    Calm(env) && Alone(before, c) ==>
      && Alone(after, c) && after.db == before.db && c in after.calls
      && after.calls[c].op == before.calls[c].op && after.calls[c].attempt == before.calls[c].attempt
      && OnTrack(cfg, after.db, after.calls[c])
  }

  /** However the body ends, left alone: never in a retry, and in error only with the answer that is due. */
  lemma SmoothEnding(cfg: Config, env: Env, before: State, after: State, c: nat, e: Ending, stored: Option<Outcome>)
    requires c in before.calls && Retried(before.calls[c].op) && Smooth(cfg, env, before, after, c)
    requires Calm(env) && Alone(before, c) && c in after.calls && before.calls[c].attempt == 0
    requires Reports(after.calls[c], before.calls[c].attempt, e, stored)
    ensures Alone(after, c) && after.db == before.db && after.calls[c].attempt == before.calls[c].attempt && !e.Transient?
    ensures e.Nil? ==> stored.Some? && Answers(cfg, before.db, before.calls[c].op, stored.value)
    ensures e.Error? ==> Answers(cfg, before.db, before.calls[c].op, Failed(e.error))
  {
    hide Answers;
  }

  class Session {
    const cfg: Config
    const env: Env
    var s: State
    var clock: nat

    // the variables Transfer's closure captures
    var result: Option<Doc>
    var replayed: bool

    // and Mint's
    var wallet: Option<WalletDoc>
    var applied: bool

    ghost predicate Valid()
      reads this
    {
      Lawful(cfg) && Reachable(cfg, s)
    }

    constructor (cfg: Config, env: Env)
      requires Lawful(cfg)
      ensures Valid() && this.cfg == cfg && s == INIT
    {
      this.cfg, this.env, s, clock, result, replayed := cfg, env, INIT, 0, None, false;
      wallet, applied := None, false;
      new;
      assert Exec(cfg, INIT, []) == Some(INIT);
    }

    ghost predicate Active(c: nat, req: Request)
      reads this
    {
      Valid() && Asked(s, c, req) && !s.calls[c].pc.Done?
    }

    /** The answer Transfer would give from its variables. */
    function Stored(): Option<Outcome>
      reads this`result
    {
      match result
      case Some(doc) => Some(TransferOk(doc, false))
      case None => None
    }

    /** The answer Mint would give from its variables. */
    function Minted(): Option<Outcome>
      reads this`wallet, this`applied
    {
      match wallet
      case Some(doc) => Some(MintOk(doc, applied))
      case None => None
    }

    /** Takes one enabled step of anybody. */
    method Take(l: Label)
      requires Valid() && Step(cfg, s, l).Some?
      modifies this`s
      ensures Valid() && s == Step(cfg, old(s), l).value
    {
      StepIsReachable(cfg, s, l);
      s := Step(cfg, s, l).value;
    }

    /** The rest of the world runs for a while. */
    method Others(c: nat, steps: seq<Label>)
      requires Valid() && c in s.calls
      modifies this`s
      ensures Valid() && c in s.calls && s.calls[c] == old(s).calls[c]
      ensures steps == [] ==> s == old(s)
    {
      for i := 0 to |steps|
        invariant Valid() && c in s.calls && s.calls[c] == old(s).calls[c]
        invariant steps == [] ==> s == old(s)
      {
        if steps[i].c != c && Step(cfg, s, steps[i]).Some? {
          OtherStep(cfg, s, steps[i], c);
          Take(steps[i]);
        }
      }
    }

    /** One statement of call `c`: others go first; it fails if the environment says so or it would wait too long. */
    method Statement(c: nat, l: Label) returns (ok: bool)
      requires Valid() && c in s.calls && Retried(s.calls[c].op) && !s.calls[c].pc.Done?
      requires l.c == c && !l.Arrive? && !l.Commit? && !s.calls[c].pc.Replaying?
      modifies this`s, this`clock
      ensures Valid() && c in s.calls
      ensures ok ==> Did(cfg, c, old(s).calls[c], l, s.calls[c])
      ensures !ok ==> Stopped(old(s).calls[c], s.calls[c])
      // a transient failure means another attempt, any other the end
      ensures ok ==> env.fault(clock).None?
      ensures !ok && env.fault(clock) == Some(true) ==> NextAttempt(s.calls[c], old(s).calls[c].attempt + 1)
      ensures !ok && env.fault(clock) != Some(true) ==> s.calls[c].pc == Done(Failed(Other))
      ensures Calm(env) && Step(cfg, old(s), l).Some? ==> ok && s == Step(cfg, old(s), l).value
    {
      Others(c, env.others(clock));
      clock := clock + 1;
      if env.fault(clock).None? && Step(cfg, s, l).Some? {
        StepDid(cfg, s, l);
        Take(l);
        return true;
      }
      var transient := env.fault(clock) == Some(true);
      AbortStops(cfg, s, c, transient);
      Take(Abort(c, transient));
      return false;
    }

    /** `isTransient` on the error a statement of the given attempt has come back with. */
    method Explain(c: nat, ghost attempt: nat) returns (e: Ending)
      requires c in s.calls && (NextAttempt(s.calls[c], attempt + 1) || FailedWith(s.calls[c]))
      ensures Broke(s.calls[c], attempt, e)
    {
      if s.calls[c].pc.Done? && s.calls[c].pc.outcome.error != RetriesExhausted {
        return Error(s.calls[c].pc.outcome.error);
      }
      return Transient;
    }

    /** The INSERT, with the foreign-key checks the server runs as part of it. */
    method Claim(c: nat, req: Request) returns (e: Ending)
      requires Active(c, req) && s.calls[c].pc == Claiming
      modifies this`s, this`clock, this`replayed
      ensures Valid() && Asked(s, c, req)
      ensures e.Nil? ==> s.calls[c].pc == LockFirst && replayed == old(replayed) && s.calls[c].attempt == old(s).calls[c].attempt
      ensures e.LostRace? ==> replayed
      ensures !e.Nil? ==> Reports(s.calls[c], old(s).calls[c].attempt, e, Stored())
      ensures Smooth(cfg, env, old(s), s, c)
    {
      hide Reachable, Lawful, Did, Fail, Step;
      ghost var first, attempt := s.calls[c], s.calls[c].attempt;
      AloneGoesOn(cfg, s, Insert(c));
      var ok := Statement(c, Insert(c));
      if !ok {
        e := Explain(c, attempt);
        return;
      }
      InsertDid(cfg, c, first, s.calls[c]);
      if s.calls[c].pc == Replaying {
        replayed := true;
        return LostRace;
      }
      if s.calls[c].pc == Sharing {
        e := CheckReferences(c, req);
      } else {
        e := Explain(c, attempt);
      }
    }

    /** The foreign-key checks, in whatever order the server picks. */
    method CheckReferences(c: nat, req: Request) returns (e: Ending)
      requires Active(c, req) && s.calls[c].pc == Sharing
      modifies this`s, this`clock
      ensures Valid() && Asked(s, c, req)
      ensures e.Nil? ==> s.calls[c].pc == LockFirst && s.calls[c].attempt == old(s).calls[c].attempt
      ensures !e.Nil? ==> Broke(s.calls[c], old(s).calls[c].attempt, e)
      ensures Smooth(cfg, env, old(s), s, c)
    {
      hide Reachable, Lawful, Did, Fail, Step;
      ghost var attempt := s.calls[c].attempt;
      while s.calls[c].pc == Sharing
        invariant Valid() && Asked(s, c, req) && s.calls[c].attempt == attempt
        invariant s.calls[c].pc == Sharing || s.calls[c].pc == LockFirst || FailedWith(s.calls[c])
        invariant Smooth(cfg, env, old(s), s, c)
        decreases Stage(cfg, s.calls[c])
      {
        SharingHasMore(cfg, s, c);
        var row :| row in ForeignRows(cfg, s.calls[c].op) && row !in s.calls[c].tx.locks;
        ghost var before := s.calls[c];
        AloneGoesOn(cfg, s, CheckForeign(c, row));
        var ok := Statement(c, CheckForeign(c, row));
        if !ok {
          e := Explain(c, attempt);
          return;
        }
        CheckDid(cfg, c, before, row, s.calls[c]);
      }
      if s.calls[c].pc == LockFirst {
        return Nil;
      }
      e := Explain(c, attempt);
    }

    /** Both rows, lower text first, into the map keyed by the id text the server returns. */
    method LockBoth(c: nat, req: Request) returns (e: Ending, balances: map<string, int>)
      requires Active(c, req) && s.calls[c].pc == LockFirst
      modifies this`s, this`clock
      ensures Valid() && Asked(s, c, req)
      ensures e.Nil? ==> s.calls[c].pc == Deciding && balances == s.calls[c].tx.read && s.calls[c].attempt == old(s).calls[c].attempt
      ensures !e.Nil? ==> Broke(s.calls[c], old(s).calls[c].attempt, e)
      ensures Smooth(cfg, env, old(s), s, c)
    {
      hide Reachable, Lawful, Did, Fail, Step;
      ghost var attempt := s.calls[c].attempt;
      var lo, hi := req.from, req.to;
      if cfg.sorted && Less(hi, lo) {
        lo, hi := hi, lo;
      }
      NothingReadYet(cfg, s, c);
      balances := map[];
      for i := 0 to 2
        invariant Valid() && Asked(s, c, req) && s.calls[c].attempt == attempt
        invariant s.calls[c].pc == if i == 0 then LockFirst else if i == 1 then LockSecond else Deciding
        invariant balances == s.calls[c].tx.read
        invariant Smooth(cfg, env, old(s), s, c)
      {
        ghost var before := s.calls[c];
        AloneGoesOn(cfg, s, LockWallet(c));
        var ok := Statement(c, LockWallet(c));
        if !ok {
          e := Explain(c, attempt);
          return;
        }
        LockDid(cfg, c, before, s.calls[c]);
        if s.calls[c].pc.Done? {
          e := Explain(c, attempt);
          return;
        }
        var id := cfg.canon(Id(cfg, if i == 0 then lo else hi));
        balances := balances[id := s.calls[c].tx.read[id]];
      }
      e := Nil;
    }

    /** One statement of the apply batch. */
    method Apply(c: nat, req: Request, l: Label) returns (e: Ending)
      requires Active(c, req) && l.c == c && BatchOrder(l).0 == s.calls[c].pc
      requires l.Debit? || l.Credit? || l.Book? || l.Complete?
      modifies this`s, this`clock
      ensures Valid() && Asked(s, c, req)
      ensures e.Nil? ==> s.calls[c].pc == BatchOrder(l).1 && s.calls[c].attempt == old(s).calls[c].attempt
      ensures !e.Nil? ==> Broke(s.calls[c], old(s).calls[c].attempt, e)
      ensures Smooth(cfg, env, old(s), s, c)
    {
      hide Reachable, Lawful, Did, Fail, Step;
      ghost var before, attempt := s.calls[c], s.calls[c].attempt;
      AloneGoesOn(cfg, s, l);
      var ok := Statement(c, l);
      if ok {
        BatchDid(cfg, c, before, l, s.calls[c]);
        if !s.calls[c].pc.Done? {
          return Nil;
        }
      }
      e := Explain(c, attempt);
    }

    /** The batch is pipelined: the server runs all four statements, then the client looks at the counts. */
    method Move(c: nat, req: Request) returns (e: Ending)
      requires Active(c, req) && s.calls[c].pc == Debiting
      modifies this`s, this`clock, this`result
      ensures Valid() && Asked(s, c, req)
      ensures Reports(s.calls[c], old(s).calls[c].attempt, e, Stored()) && !e.LostRace?
      ensures e.Nil? ==> result.value.status == Succeeded && Moving(cfg, s.db, c, req, s.calls[c].tx)
      ensures Smooth(cfg, env, old(s), s, c)
    {
      hide Reachable, Lawful, Did, Fail, Step;
      ghost var attempt := s.calls[c].attempt;
      var batch := [Debit(c), Credit(c), Book(c), Complete(c)];
      for i := 0 to 4
        invariant Valid() && Asked(s, c, req) && s.calls[c].attempt == attempt
        invariant s.calls[c].pc == [Debiting, Crediting, Booking, Completing, Inspecting][i]
        invariant Smooth(cfg, env, old(s), s, c)
      {
        e := Apply(c, req, batch[i]);
        if !e.Nil? {
          return;
        }
      }
      e := ReadCounts(c, req);
    }

    /** The results of the batch: one row debited, one credited, or no success. */
    method ReadCounts(c: nat, req: Request) returns (e: Ending)
      requires Active(c, req) && s.calls[c].pc == Inspecting
      modifies this`s, this`clock, this`result
      ensures Valid() && Asked(s, c, req)
      ensures Reports(s.calls[c], old(s).calls[c].attempt, e, Stored()) && !e.LostRace?
      ensures e.Nil? ==> result.value.status == Succeeded && Moving(cfg, s.db, c, req, s.calls[c].tx)
      ensures Smooth(cfg, env, old(s), s, c)
    {
      hide Reachable, Lawful, Did, Fail, Step;
      ghost var attempt := s.calls[c].attempt;
      HasItsRow(cfg, s, c);
      var created := s.calls[c].tx.writes.transfer.value.createdAt;
      ghost var before := s.calls[c];
      AloneGoesOn(cfg, s, Inspect(c));
      var ok := Statement(c, Inspect(c));
      if ok {
        InspectDid(cfg, c, before, s.calls[c]);
        if !s.calls[c].pc.Done? {
          result := Some(Doc(c, Succeeded, None, req.from, req.to, req.amount, req.idem, created, Some(created)));
          WritesAreAsDecided(cfg, s, c);
          return Nil;
        }
      }
      e := Explain(c, attempt);
    }

    /** Decline before any money is written, or apply. */
    method Settle(c: nat, req: Request, balances: map<string, int>) returns (e: Ending)
      requires Active(c, req) && s.calls[c].pc == Deciding && balances == s.calls[c].tx.read
      modifies this`s, this`clock, this`result
      ensures Valid() && Asked(s, c, req)
      ensures Reports(s.calls[c], old(s).calls[c].attempt, e, Stored()) && !e.LostRace?
      ensures e.Nil? ==>
        if Lookup(balances, req.from) < req.amount
        then result.value.status == Declined && Declining(cfg, s.db, req, s.calls[c].tx)
        else result.value.status == Succeeded && Moving(cfg, s.db, c, req, s.calls[c].tx)
      ensures Smooth(cfg, env, old(s), s, c)
    {
      hide Reachable, Lawful, Did, Fail, Step;
      var short := Lookup(balances, req.from) < req.amount;
      ghost var before, attempt := s.calls[c], s.calls[c].attempt;
      AloneGoesOn(cfg, s, Decide(c));
      var ok := Statement(c, Decide(c));
      if !ok {
        e := Explain(c, attempt);
        return;
      }
      DecideDid(cfg, c, before, s.calls[c]);
      if short {
        var row := s.calls[c].tx.writes.transfer.value;
        result := Some(Doc(c, Declined, Some(INSUFFICIENT_FUNDS), req.from, req.to, req.amount, req.idem,
                           row.createdAt, row.completedAt));
        RowIsThisRequest(cfg, s, c);
        WritesAreAsDecided(cfg, s, c);
        return Nil;
      }
      e := Move(c, req);
    }

    /** The transaction body. */
    method Body(c: nat, req: Request) returns (e: Ending)
      requires Active(c, req) && s.calls[c].pc == Claiming
      modifies this`s, this`clock, this`result, this`replayed
      ensures Valid() && Asked(s, c, req)
      ensures Reports(s.calls[c], old(s).calls[c].attempt, e, Stored()) && (e.LostRace? ==> replayed)
      ensures Smooth(cfg, env, old(s), s, c)
    {
      hide Reachable, Lawful;
      replayed, result := false, None;
      e := Claim(c, req);
      if !e.Nil? {
        return;
      }
      var balances;
      e, balances := LockBoth(c, req);
      if !e.Nil? {
        return;
      }
      e := Settle(c, req, balances);
    }

    /** COMMIT: it may land without the client learning so. */
    method Land(c: nat, ghost stored: Option<Outcome>) returns (e: Ending)
      requires Valid() && c in s.calls && Retried(s.calls[c].op)
      requires Reports(s.calls[c], s.calls[c].attempt, Nil, stored)
      modifies this`s, this`clock
      ensures Valid() && c in s.calls && s.calls[c].op == old(s).calls[c].op
      ensures e.Nil? ==> Finished(s, c, stored.value)
      ensures !e.Nil? ==> Broke(s.calls[c], old(s).calls[c].attempt, e)
      ensures e.Nil? <==> env.how(clock) == Acked
      ensures env.how(clock) == RefusedTransient ==> NextAttempt(s.calls[c], old(s).calls[c].attempt + 1)
      ensures env.how(clock) == Lost || env.how(clock) == Refused ==> e == Error(CommitUnknown)
      ensures Calm(env) ==> e.Nil? && s.calls[c].attempt == old(s).calls[c].attempt
    {
      hide Reachable, Lawful, Step, Fail;
      ghost var attempt := s.calls[c].attempt;
      Others(c, env.others(clock));
      clock := clock + 1;
      CommitAnswers(cfg, s, c, env.how(clock));
      Take(Commit(c, env.how(clock)));
      if env.how(clock).Acked? {
        return Nil;
      }
      e := Explain(c, attempt);
    }

    /** `inTx` around the body: begin, run, commit, and go round again after a transient error. */
    method InTx(c: nat, req: Request) returns (e: Ending)
      requires Active(c, req) && NextAttempt(s.calls[c], 0) && req.from != req.to
      modifies this`s, this`clock, this`result, this`replayed
      ensures Valid() && Asked(s, c, req)
      ensures e.Nil? ==> result.Some? && Finished(s, c, TransferOk(result.value, false))
      ensures e.LostRace? ==> replayed && s.calls[c].pc == Replaying
      ensures e.Error? ==> Finished(s, c, Failed(e.error))
      ensures !e.Transient?
      ensures Calm(env) && Alone(old(s), c) ==> s.calls[c].attempt == 0
      ensures Calm(env) && Alone(old(s), c) ==>
        match e
        case Nil => Answers(cfg, old(s).db, Transferring(req), TransferOk(result.value, false))
        case Error(error) => Answers(cfg, old(s).db, Transferring(req), Failed(error))
        case _ => Alone(s, c) && s.db == old(s).db
    {
      hide Reachable, Lawful, Did, Fail, Step, Answers, Smooth, Alone, Calm, OnTrack;
      for attempt := 0 to MAX_TX_ATTEMPTS
        invariant Valid() && Asked(s, c, req) && NextAttempt(s.calls[c], attempt)
        invariant Calm(env) && Alone(old(s), c) ==> attempt == 0 && Alone(s, c) && s.db == old(s).db
      {
        ghost var before := s.calls[c];
        var now := env.now(clock);
        AloneGoesOn(cfg, s, Begin(c, now));
        var ok := Statement(c, Begin(c, now));
        if ok {
          BeginDid(cfg, c, before, now, s.calls[c]);
          ghost var begun := s;
          e := Body(c, req);
          if Calm(env) && Alone(old(s), c) {
            SmoothEnding(cfg, env, begun, s, c, e, Stored());
          }
          if e.Nil? {
            e := Land(c, Stored());
          }
        } else {
          e := Explain(c, attempt);
        }
        if !e.Transient? {
          return;
        }
      }
      return Error(RetriesExhausted);
    }

    /** The fresh read after a lost race, and the comparison of fingerprints. */
    method ReadWinner(c: nat, req: Request) returns (answer: Outcome)
      requires Active(c, req) && s.calls[c].pc == Replaying
      modifies this`s, this`clock
      ensures Valid() && Asked(s, c, req) && Finished(s, c, answer)
      ensures answer.Failed? || (answer.TransferOk? && answer.replay)
      ensures Calm(env) ==> Answers(cfg, old(s).db, Transferring(req), answer)
    {
      Others(c, env.others(clock));
      clock := clock + 1;
      if env.fault(clock).Some? {
        Take(Abort(c, false));
        return Failed(Other);
      }
      ghost var winner := LoserFindsTheWinner(cfg, s, c, req);
      var t :| t in s.db.transfers && s.db.transfers[t].key == KeyOf(req);
      OneTransferPerKey(cfg, s, t, winner);
      var row := s.db.transfers[t];
      ReplayIsDue(cfg, s, c, req, t);
      ReplayAnswers(cfg, s, c, t);
      Take(Replay(c, Some(t)));
      if row.fingerprint != Fingerprint(req.from, req.to, req.amount) {
        return Failed(IdempotencyConflict);
      }
      return TransferOk(StoredDoc(cfg, t, row), true);
    }

    /**
     The whole call. A document is the committed row, moved by this call or, on a replay, by an earlier one with
     the same key and meaning; an error that is not an uncertain commit leaves the tables without a trace.
     */
    method Transfer(c: nat, req: Request) returns (answer: Outcome)
      requires Valid() && c !in s.calls
      modifies this
      ensures Valid() && Asked(s, c, req) && Finished(s, c, answer)
      ensures answer.TransferOk? || answer.Failed?
      ensures answer.TransferOk? ==>
        var doc := answer.doc;
        && doc.id in s.db.transfers && Records(cfg, req, s.db.transfers[doc.id]) && Terminal(s.db.transfers[doc.id])
        && (if answer.replay then doc == StoredDoc(cfg, doc.id, s.db.transfers[doc.id]) && c !in s.db.transfers
            else doc.id == c && doc == OwnDoc(c, req, s.db.transfers[c]))
      ensures answer.Failed? && answer.error != CommitUnknown ==>
        !Effect(s.db, c) && EntriesOf(s.db.ledger, c) == []
      ensures req.from == req.to ==> answer == Failed(SameWallet)
      // undisturbed, the answer is the one due on the tables it found
      ensures Calm(env) && Alone(old(s), c) ==> Answers(cfg, old(s).db, Transferring(req), answer)
      // so an acceptable request is decided on the balances, and a used key replayed or refused
      ensures Calm(env) && Alone(old(s), c) && Acceptable(cfg, old(s).db, req) ==>
        answer.TransferOk? && !answer.replay
        && answer.doc.status == if Payable(cfg, old(s).db, req) then Succeeded else Declined
      ensures Calm(env) && Alone(old(s), c) && ValidRequest(cfg, req) && Taken(old(s).db, TransferKey(KeyOf(req))) ==>
        if StoredAsAsked(old(s).db, req) then answer.TransferOk? && answer.replay else answer == Failed(IdempotencyConflict)
    {
      hide Due, Answers, Taken, StoredAsAsked, Fingerprint, Records, Effect, Terminal, EntriesOf;
      Take(Arrive(c, Transferring(req)));
      if req.from == req.to {
        Take(Begin(c, env.now(clock)));
        answer := Failed(SameWallet);
      } else {
        var e := InTx(c, req);
        if replayed && e.LostRace? {
          answer := ReadWinner(c, req);
        } else if e.Error? {
          answer := Failed(e.error);
        } else {
          answer := TransferOk(result.value, false);
        }
      }
      AnswerStands(cfg, s, c, req, answer);
      if Calm(env) && Alone(old(s), c) {
        SameTextsAreRefused(cfg, old(s).db, req);
        AcceptableIsDecided(cfg, old(s).db, req, answer);
      }
    }

    /** Mint's transaction body: a duplicate key is rolled back to the savepoint, and the body goes on without funding. */
    method MintBody(c: nat) returns (e: Ending)
      requires Valid() && c in s.calls && s.calls[c].op.Minting? && s.calls[c].pc == Claiming
      modifies this`s, this`clock, this`wallet, this`applied
      ensures Valid() && c in s.calls && s.calls[c].op == old(s).calls[c].op
      ensures Reports(s.calls[c], old(s).calls[c].attempt, e, Minted()) && !e.LostRace?
      ensures e.Nil? ==>
        if applied then MintApplied(cfg, s.db, c, s.calls[c])
        else MintRepeated(s.db, s.calls[c]) && s.calls[c].tx.writes == NO_WRITES
      ensures Smooth(cfg, env, old(s), s, c)
    {
      hide Reachable, Lawful, Did, Fail, Step;
      ghost var attempt := s.calls[c].attempt;
      applied, wallet := false, None;
      e := MintStatement(c, Insert(c));
      if !e.Nil? {
        return;
      }
      if s.calls[c].pc == Sharing {
        applied := true;
        e := AddMoney(c);
        if !e.Nil? {
          return;
        }
      }
      e := MintStatement(c, ReadBack(c));
      if !e.Nil? {
        return;
      }
      wallet := Some(s.calls[c].result.value.minted);
      MintWritesAreAsReported(cfg, s, c);
    }

    /** The foreign-key check of the row just inserted, and the UPDATE. */
    method AddMoney(c: nat) returns (e: Ending)
      requires Valid() && c in s.calls && s.calls[c].op.Minting? && s.calls[c].pc == Sharing
      modifies this`s, this`clock
      ensures Valid() && c in s.calls && s.calls[c].op == old(s).calls[c].op
      ensures !e.Nil? ==> Broke(s.calls[c], old(s).calls[c].attempt, e)
      ensures e.Nil? ==> s.calls[c].pc == ReadingBack && s.calls[c].attempt == old(s).calls[c].attempt
      ensures e.Nil? ==> s.calls[c].tx.writes.mints == old(s).calls[c].tx.writes.mints
      ensures Smooth(cfg, env, old(s), s, c)
    {
      hide Reachable, Lawful, Id;
      MintHolds(cfg, s, c);
      e := MintStatement(c, CheckForeign(c, OfWallet(Id(cfg, s.calls[c].op.wallet))));
      if e.Nil? {
        e := MintStatement(c, Fund(c));
      }
    }

    /** One statement of a mint; on success, where it leads and what it has written so far. */
    method MintStatement(c: nat, l: Label) returns (e: Ending)
      requires Valid() && c in s.calls && s.calls[c].op.Minting? && l.c == c
      requires (l.Insert? || l.CheckForeign? || l.Fund? || l.ReadBack?) && s.calls[c].pc == MintPoint(l)
      requires l.CheckForeign? ==> l.row == OfWallet(Id(cfg, s.calls[c].op.wallet)) && s.calls[c].tx.locks == map[]
      modifies this`s, this`clock
      ensures Valid() && c in s.calls && s.calls[c].op == old(s).calls[c].op
      ensures e.Nil? ==> s.calls[c].attempt == old(s).calls[c].attempt && MintLeads(old(s).calls[c], l, s.calls[c])
      ensures !e.Nil? ==> Broke(s.calls[c], old(s).calls[c].attempt, e)
      ensures Smooth(cfg, env, old(s), s, c)
    {
      hide Reachable, Lawful, Did, Fail, Step;
      ghost var before, attempt := s.calls[c], s.calls[c].attempt;
      MintHolds(cfg, s, c);
      AloneGoesOn(cfg, s, l);
      var ok := Statement(c, l);
      if ok {
        MintDid(cfg, c, before, l, s.calls[c]);
        if !s.calls[c].pc.Done? {
          return Nil;
        }
      }
      e := Explain(c, attempt);
    }

    /** One attempt: begin, run the body, commit. */
    method MintAttempt(c: nat) returns (e: Ending)
      requires Valid() && c in s.calls && s.calls[c].op.Minting? && s.calls[c].pc == Start
      modifies this`s, this`clock, this`wallet, this`applied
      ensures Valid() && c in s.calls && s.calls[c].op == old(s).calls[c].op
      ensures e.Nil? ==> wallet.Some? && Finished(s, c, MintOk(wallet.value, applied))
      ensures !e.Nil? ==> Broke(s.calls[c], old(s).calls[c].attempt, e)
      ensures Calm(env) && Alone(old(s), c) && old(s).calls[c].attempt == 0 ==>
        s.calls[c].attempt == 0 && (e.Nil? || e.Error?)
        && Answers(cfg, old(s).db, old(s).calls[c].op, if e.Nil? then MintOk(wallet.value, applied) else Failed(e.error))
    {
      hide Reachable, Lawful, Did, Fail, Step, Answers, Smooth, Alone, Calm, OnTrack;
      ghost var before, attempt := s.calls[c], s.calls[c].attempt;
      var now := env.now(clock);
      AloneGoesOn(cfg, s, Begin(c, now));
      var ok := Statement(c, Begin(c, now));
      if !ok {
        e := Explain(c, attempt);
        return;
      }
      BeginDid(cfg, c, before, now, s.calls[c]);
      ghost var begun := s;
      e := MintBody(c);
      if Calm(env) && Alone(old(s), c) && attempt == 0 {
        SmoothEnding(cfg, env, begun, s, c, e, Minted());
      }
      if e.Nil? {
        e := Land(c, Minted());
      }
    }

    /** `inTx` around it. */
    method MintTx(c: nat) returns (e: Ending)
      requires Valid() && c in s.calls && s.calls[c].op.Minting? && NextAttempt(s.calls[c], 0)
      modifies this`s, this`clock, this`wallet, this`applied
      ensures Valid() && c in s.calls && s.calls[c].op == old(s).calls[c].op
      ensures e.Nil? ==> wallet.Some? && Finished(s, c, MintOk(wallet.value, applied))
      ensures e.Error? ==> Finished(s, c, Failed(e.error))
      ensures e.Nil? || e.Error?
      ensures Calm(env) && Alone(old(s), c) ==> s.calls[c].attempt == 0
      ensures Calm(env) && Alone(old(s), c) ==>
        Answers(cfg, old(s).db, old(s).calls[c].op, if e.Nil? then MintOk(wallet.value, applied) else Failed(e.error))
    {
      hide Reachable, Lawful, Step, Answers, Alone, Calm;
      for attempt := 0 to MAX_TX_ATTEMPTS
        invariant Valid() && c in s.calls && s.calls[c].op == old(s).calls[c].op
        invariant NextAttempt(s.calls[c], attempt)
        invariant attempt == 0 ==> s == old(s)
        invariant attempt > 0 ==> !(Calm(env) && Alone(old(s), c))
      {
        e := MintAttempt(c);
        if !e.Transient? {
          return;
        }
      }
      return Error(RetriesExhausted);
    }

    /**
     The whole call: `applied` says exactly whether this call's own row is in the mints table, and an error that
     is not an uncertain commit leaves the tables without a trace.
     */
    method Mint(c: nat, to: string, idem: string, amount: int) returns (answer: Outcome)
      requires Valid() && c !in s.calls
      modifies this
      ensures Valid() && c in s.calls && s.calls[c].op == Minting(to, idem, amount) && Finished(s, c, answer)
      ensures answer.MintOk? || answer.Failed?
      ensures answer.MintOk? ==>
        && answer.minted.id == Id(cfg, to) && answer.minted.id in s.db.wallets
        && (answer.applied <==> HasMinted(cfg, s.db, c, Minting(to, idem, amount)))
      ensures answer.Failed? && answer.error != CommitUnknown ==> !Effect(s.db, c)
      // undisturbed, the answer is the one due on the tables it found: applied if and only if the key was free
      ensures Calm(env) && Alone(old(s), c) ==> Answers(cfg, old(s).db, Minting(to, idem, amount), answer)
      ensures Calm(env) && Alone(old(s), c) && Mintable(cfg, old(s).db, to, amount) ==>
        answer.MintOk? && (answer.applied <==> !Taken(old(s).db, MintKey(idem)))
        && answer.minted.balance == Balance(old(s).db, Id(cfg, to)) + if answer.applied then amount else 0
    {
      Take(Arrive(c, Minting(to, idem, amount)));
      var e := MintTx(c);
      answer := if e.Error? then Failed(e.error) else MintOk(wallet.value, applied);
      MintAnswerStands(cfg, s, c, answer);
    }
  }

  lemma StepIsReachable(cfg: Config, s: State, l: Label)
    requires Reachable(cfg, s) && Step(cfg, s, l).Some?
    ensures Reachable(cfg, Step(cfg, s, l).value)
  {
    hide Step;
    var run :| Exec(cfg, INIT, run) == Some(s);
    assert (run + [l])[..|run|] == run;
    assert Exec(cfg, INIT, run + [l]) == Step(cfg, s, l);
  }

  lemma OtherStep(cfg: Config, s: State, l: Label, c: nat)
    requires Step(cfg, s, l).Some? && c in s.calls && l.c != c
    ensures c in Step(cfg, s, l).value.calls && Step(cfg, s, l).value.calls[c] == s.calls[c]
  {
    hide Move;
  }

  lemma StepDid(cfg: Config, s: State, l: Label)
    requires Step(cfg, s, l).Some? && !l.Arrive?
    ensures l.c in s.calls && l.c in Step(cfg, s, l).value.calls
    ensures Did(cfg, l.c, s.calls[l.c], l, Step(cfg, s, l).value.calls[l.c])
  {
    hide Move;
  }

  lemma AbortStops(cfg: Config, s: State, c: nat, transient: bool)
    requires c in s.calls && Retried(s.calls[c].op) && !s.calls[c].pc.Done? && !s.calls[c].pc.Replaying?
    ensures Step(cfg, s, Abort(c, transient)).Some?
    ensures Stopped(s.calls[c], Step(cfg, s, Abort(c, transient)).value.calls[c])
    ensures var call := Step(cfg, s, Abort(c, transient)).value.calls[c];
      if transient then NextAttempt(call, s.calls[c].attempt + 1) else call.pc == Done(Failed(Other))
  {
  }

  lemma CommitAnswers(cfg: Config, s: State, c: nat, how: CommitResult)
    requires c in s.calls && Retried(s.calls[c].op) && s.calls[c].pc == Committing && s.calls[c].result.Some?
    ensures Step(cfg, s, Commit(c, how)).Some?
    ensures var after := Step(cfg, s, Commit(c, how)).value;
      && c in after.calls && after.calls[c].op == s.calls[c].op
      && if how.Acked? then Finished(after, c, s.calls[c].result.value) && after.calls[c].attempt == s.calls[c].attempt
         else if how.RefusedTransient? then NextAttempt(after.calls[c], s.calls[c].attempt + 1)
         else Finished(after, c, Failed(CommitUnknown))
  {
    hide Apply;
  }

  lemma BeginDid(cfg: Config, c: nat, before: Call, now: Time, after: Call)
    requires before.op.Transferring? ==> before.op.req.from != before.op.req.to
    requires Did(cfg, c, before, Begin(c, now), after)
    ensures after.pc == Claiming && after.op == before.op && after.attempt == before.attempt
  {
  }

  lemma AnswerStands(cfg: Config, s: State, c: nat, req: Request, answer: Outcome)
    requires Lawful(cfg) && Reachable(cfg, s) && Asked(s, c, req) && Finished(s, c, answer)
    ensures answer.TransferOk? ==>
      var doc := answer.doc;
      && doc.id in s.db.transfers && Records(cfg, req, s.db.transfers[doc.id]) && Terminal(s.db.transfers[doc.id])
      && (if answer.replay then doc == StoredDoc(cfg, doc.id, s.db.transfers[doc.id]) && c !in s.db.transfers
          else doc.id == c && doc == OwnDoc(c, req, s.db.transfers[c]))
    ensures answer.Failed? && answer.error != CommitUnknown ==>
      !Effect(s.db, c) && EntriesOf(s.db.ledger, c) == []
  {
    hide Reachable, Fingerprint, Effect, Terminal, EntriesOf, OwnDoc, StoredDoc;
    if answer.TransferOk? {
      TransferAnswer(cfg, s, c, req, answer.doc, answer.replay);
      CommittedTransfer(cfg, s, answer.doc.id);
    } else if answer.Failed? && answer.error != CommitUnknown {
      ErrorLeavesNothing(cfg, s, c, answer.error);
    }
  }

  /** The program point each statement of a mint starts from. */
  function MintPoint(l: Label): PC {
    match l
    case Insert(_) => Claiming
    case CheckForeign(_, _) => Sharing
    case Fund(_) => Funding
    case ReadBack(_) => ReadingBack
    case _ => Start
  }

  /** What one successful statement of a mint does to the call. */
  predicate MintLeads(before: Call, l: Label, after: Call)
    requires before.op.Minting?
  {
    match l
    case Insert(_) => (after.pc == Sharing && after.tx.writes.mints != []) || (after.pc == ReadingBack && after.tx.writes.mints == [])
    case CheckForeign(_, _) => after.pc == Funding && after.tx.writes.mints == before.tx.writes.mints
    case Fund(_) => after.pc == ReadingBack && after.tx.writes.mints == before.tx.writes.mints
    case ReadBack(_) => && after.pc == Committing && after.result.Some? && after.result.value.MintOk?
                        && after.result.value.applied == (before.tx.writes.mints != [])
    case _ => false
  }

  /** What MintDid needs to know of the call before. */
  predicate MintReady(call: Call) {
    && (call.pc == Claiming ==> call.tx == FreshTx(call.tx.now))
    && (call.pc == Sharing ==> call.tx.locks == map[])
  }

  lemma MintHolds(cfg: Config, s: State, c: nat)
    requires Lawful(cfg) && Reachable(cfg, s) && c in s.calls && s.calls[c].op.Minting?
    ensures MintReady(s.calls[c])
  {
    ReachableKeeps(cfg, s);
    hide Sound, Authored, Apart, OutcomeInv, Provenance, Effect, Taken, TransferInv, MintRepeated, MintApplied;
    assert CallInv(cfg, s.db, c, s.calls[c]);
  }

  lemma MintDid(cfg: Config, c: nat, before: Call, l: Label, after: Call)
    requires before.op.Minting? && MintReady(before) && before.pc == MintPoint(l)
    requires l.Insert? || l.CheckForeign? || l.Fund? || l.ReadBack?
    requires l.CheckForeign? ==> l.row == OfWallet(Id(cfg, before.op.wallet))
    requires Did(cfg, c, before, l, after) && l.c == c
    ensures after.op == before.op && after.attempt == before.attempt
    ensures FailedWith(after) || (!after.pc.Done? && MintLeads(before, l, after))
  {
    hide Free, Acquire, Current, Unclaimed, Taken;
  }

  predicate HasMinted(cfg: Config, db: Tables, c: nat, op: Op)
    requires op.Minting?
  {
    Mint(c, op.idem, Id(cfg, op.wallet), op.amount) in db.mints
  }

  lemma MintAnswerStands(cfg: Config, s: State, c: nat, answer: Outcome)
    requires Lawful(cfg) && Reachable(cfg, s) && c in s.calls && s.calls[c].op.Minting? && Finished(s, c, answer)
    ensures answer.MintOk? ==>
      && answer.minted.id == Id(cfg, s.calls[c].op.wallet) && answer.minted.id in s.db.wallets
      && (answer.applied <==> HasMinted(cfg, s.db, c, s.calls[c].op))
    ensures answer.Failed? && answer.error != CommitUnknown ==> !Effect(s.db, c)
  {
    hide Reachable, Effect, Id;
    if answer.MintOk? {
      var op := s.calls[c].op;
      MintAnswer(cfg, s, c, op.wallet, op.idem, op.amount, answer.minted, answer.applied);
    } else if answer.Failed? && answer.error != CommitUnknown {
      ErrorLeavesNothing(cfg, s, c, answer.error);
    }
  }

  lemma InsertDid(cfg: Config, c: nat, before: Call, after: Call)
    requires before.op.Transferring? && Did(cfg, c, before, Insert(c), after)
    ensures after.op == before.op && after.attempt == before.attempt
    ensures after.pc == Sharing || after.pc == Replaying || FailedWith(after)
  {
  }

  lemma CheckDid(cfg: Config, c: nat, before: Call, row: Row, after: Call)
    requires before.op.Transferring? && Did(cfg, c, before, CheckForeign(c, row), after)
    ensures after.op == before.op && after.attempt == before.attempt
    ensures after.pc == Sharing || after.pc == LockFirst || FailedWith(after)
    ensures Stage(cfg, after) < Stage(cfg, before)
  {
    hide Stage, Free, ForeignRows, Exists;
    var mid: State :| c in mid.calls && mid.calls[c] == before && Move(cfg, mid, c, CheckForeign(c, row)) == Some(after);
    SharingSpends(cfg, mid, c, row, after);
  }

  lemma SharingHasMore(cfg: Config, s: State, c: nat)
    requires Lawful(cfg) && Reachable(cfg, s) && c in s.calls && s.calls[c].op.Transferring? && s.calls[c].pc == Sharing
    ensures exists row :: row in ForeignRows(cfg, s.calls[c].op) && row !in s.calls[c].tx.locks
  {
    ReachableKeeps(cfg, s);
    hide Sound, Authored, Apart, OutcomeInv, Provenance, Effect, Taken, TransferReads, TransferWrites;
    assert CallInv(cfg, s.db, c, s.calls[c]);
  }

  /** The program points before and after each statement of the batch. */
  function BatchOrder(l: Label): (PC, PC) {
    match l
    case Debit(_) => (Debiting, Crediting)
    case Credit(_) => (Crediting, Booking)
    case Book(_) => (Booking, Completing)
    case _ => (Completing, Inspecting)
  }

  lemma NothingReadYet(cfg: Config, s: State, c: nat)
    requires Lawful(cfg) && Reachable(cfg, s) && c in s.calls && s.calls[c].op.Transferring? && s.calls[c].pc == LockFirst
    ensures s.calls[c].tx.read == map[]
  {
    ReachableKeeps(cfg, s);
    hide Sound, Authored, Apart, OutcomeInv, Provenance, Effect, Taken, TransferLocks, TransferWrites;
    assert CallInv(cfg, s.db, c, s.calls[c]);
  }

  lemma LockDid(cfg: Config, c: nat, before: Call, after: Call)
    requires before.op.Transferring? && Did(cfg, c, before, LockWallet(c), after)
    ensures after.op == before.op && after.attempt == before.attempt
    ensures FailedWith(after) || (
      var id := cfg.canon(if before.pc == LockFirst then Lo(cfg, before.op.req) else Hi(cfg, before.op.req));
      && after.pc == (if before.pc == LockFirst then LockSecond else Deciding)
      && id in after.tx.read && after.tx.read == before.tx.read[id := after.tx.read[id]])
  {
  }

  lemma BatchDid(cfg: Config, c: nat, before: Call, l: Label, after: Call)
    requires before.op.Transferring? && Did(cfg, c, before, l, after) && l.c == c
    requires l.Debit? || l.Credit? || l.Book? || l.Complete?
    ensures after.op == before.op && after.attempt == before.attempt
    ensures after.pc == BatchOrder(l).1 || FailedWith(after)
  {
    hide Free, Acquire, Current;
  }

  /** At commit the stored document is the one the client has built from its own variables. */
  lemma RowIsThisRequest(cfg: Config, s: State, c: nat)
    requires Lawful(cfg) && Reachable(cfg, s) && c in s.calls && s.calls[c].op.Transferring? && s.calls[c].pc == Committing
    ensures s.calls[c].tx.writes.transfer.Some?
    ensures s.calls[c].result == Some(TransferOk(OwnDoc(c, s.calls[c].op.req, s.calls[c].tx.writes.transfer.value), false))
  {
    ReachableKeeps(cfg, s);
    hide Sound, Authored, Apart, OutcomeInv, Provenance, Effect, Taken, TransferLocks;
    assert CallInv(cfg, s.db, c, s.calls[c]);
  }

  /** What a transfer is about to commit is both balances, both ledger rows and its row, or its row alone. */
  lemma WritesAreAsDecided(cfg: Config, s: State, c: nat)
    requires Lawful(cfg) && Reachable(cfg, s) && c in s.calls && s.calls[c].op.Transferring? && s.calls[c].pc == Committing
    ensures s.calls[c].result.Some? && s.calls[c].result.value.TransferOk?
    ensures var status, req := s.calls[c].result.value.doc.status, s.calls[c].op.req;
      (status == Succeeded && Moving(cfg, s.db, c, req, s.calls[c].tx))
      || (status == Declined && Declining(cfg, s.db, req, s.calls[c].tx))
  {
    ReachableKeeps(cfg, s);
    assert CallInv(cfg, s.db, c, s.calls[c]);
    hide Reachable, Lawful, Sound, Apart, Authored, CallInv;
    DecidedWrites(cfg, s.db, c, s.calls[c]);
  }

  lemma DecidedWrites(cfg: Config, db: Tables, c: nat, call: Call)
    requires call.op.Transferring? && CallInv(cfg, db, c, call) && call.pc == Committing
    ensures call.result.Some? && call.result.value.TransferOk?
    ensures (call.result.value.doc.status == Succeeded && Moving(cfg, db, c, call.op.req, call.tx))
         || (call.result.value.doc.status == Declined && Declining(cfg, db, call.op.req, call.tx))
  {
    hide OutcomeInv, Provenance, Effect, Taken, TransferLocks, TransferReads, Payable, MintInv, UserInv, WalletInv;
  }

  lemma MintWritesAreAsReported(cfg: Config, s: State, c: nat)
    requires Lawful(cfg) && Reachable(cfg, s) && c in s.calls && s.calls[c].op.Minting? && s.calls[c].pc == Committing
    ensures s.calls[c].result.Some? && s.calls[c].result.value.MintOk?
    ensures if s.calls[c].result.value.applied then MintApplied(cfg, s.db, c, s.calls[c])
            else MintRepeated(s.db, s.calls[c]) && s.calls[c].tx.writes == NO_WRITES
  {
    ReachableKeeps(cfg, s);
    hide Reachable, Lawful, Sound, Apart, Authored, OutcomeInv, Provenance, Effect, Taken, TransferInv, UserInv, WalletInv,
      MintApplied, MintRepeated;
    assert CallInv(cfg, s.db, c, s.calls[c]);
  }

  lemma DecideDid(cfg: Config, c: nat, before: Call, after: Call)
    requires before.op.Transferring? && Did(cfg, c, before, Decide(c), after)
    ensures after.op == before.op && after.attempt == before.attempt
    ensures if Lookup(before.tx.read, before.op.req.from) < before.op.req.amount then
        && after.pc == Committing && after.tx.writes.transfer.Some?
        && after.tx.writes.transfer.value.status == Declined
        && after.tx.writes.transfer.value.reason == Some(INSUFFICIENT_FUNDS)
      else after.pc == Debiting
  {
  }

  lemma InspectDid(cfg: Config, c: nat, before: Call, after: Call)
    requires before.op.Transferring? && Did(cfg, c, before, Inspect(c), after)
    ensures after.op == before.op && after.attempt == before.attempt
    ensures FailedWith(after) || (
      var req, created := before.op.req, before.tx.writes.transfer.value.createdAt;
      && before.tx.writes.transfer.Some? && after.pc == Committing
      && after.result == Some(TransferOk(
           Doc(c, Succeeded, None, req.from, req.to, req.amount, req.idem, created, Some(created)), false)))
  {
  }
}
