/**
 `inTx`: run a transaction body, retrying transient aborts, for any adversarial sequence of outcomes of
 BeginTx, the body, Commit and the context.
 */
module Retry {
  import opened Tables
  import P = Protocol

  /** An error with a SQLSTATE, or without one (`sqlstate` is then empty). */
  datatype Fault = Fault(code: string)

  const DEADLOCK_DETECTED := "40P01"
  const SERIALIZATION_FAILURE := "40001"
  const MAX_TX_ATTEMPTS := P.MAX_TX_ATTEMPTS

  predicate IsTransient(f: Fault) {
    f.code == DEADLOCK_DETECTED || f.code == SERIALIZATION_FAILURE
  }

  /** What commit did, and what it said. */
  datatype CommitReply = Acked | Errored(fault: Fault, landed: bool)

  /** Everything the environment chooses for one attempt. `body` is the result the closure stores, or its error. */
  datatype Attempt<R> = Attempt(
    cancelled: Option<Fault>, begin: Option<Fault>, failure: Option<Fault>, body: R, commit: CommitReply)

  /** A transient code means the transaction did nothing; any other commit error may mean anything. */
  ghost predicate Honest<R(!new)>(env: nat -> Attempt<R>) {
    forall k :: env(k).commit.Errored? && IsTransient(env(k).commit.fault) ==> !env(k).commit.landed
  }

  datatype Outcome = Success | Failure(fault: Fault) | Exhausted(last: Fault)

  // ---------------------------------------------------------------------------
  // Meaning: the first attempt that settles the call
  // ---------------------------------------------------------------------------

  /** The error that sends attempt `k` round again, if one does. */
  function Transience<R>(a: Attempt<R>): Option<Fault> {
    if a.begin.Some? then (if IsTransient(a.begin.value) then a.begin else None)
    else if a.failure.Some? then (if IsTransient(a.failure.value) then a.failure else None)
    else if a.commit.Errored? && IsTransient(a.commit.fault) then Some(a.commit.fault)
    else None
  }

  /** Attempt `k` is reached: every earlier one ended transiently and no wait was cancelled. */
  predicate Reached<R>(env: nat -> Attempt<R>, k: nat) {
    k < MAX_TX_ATTEMPTS
    && forall j | 0 <= j < k :: Transience(env(j)).Some? && (j > 0 ==> env(j).cancelled.None?)
  }

  /** Attempt `k`, if reached, is the last one. */
  predicate Settles<R>(env: nat -> Attempt<R>, k: nat) {
    (k > 0 && env(k).cancelled.Some?) || Transience(env(k)).None? || k == MAX_TX_ATTEMPTS - 1
  }

  /** The environment's choices leave exactly one attempt at which a call can end. */
  lemma OneLastAttempt<R>(env: nat -> Attempt<R>) returns (last: nat)
    ensures Reached(env, last) && Settles(env, last)
    ensures forall k | Reached(env, k) && Settles(env, k) :: k == last
  {
    last := 0;
    while !Settles(env, last)
      invariant Reached(env, last)
      decreases MAX_TX_ATTEMPTS - last
    {
      last := last + 1;
    }
  }

  /** The attempt's first error has this code. */
  predicate FailsWith<R>(a: Attempt<R>, code: string) {
    || (a.begin.Some? && a.begin.value.code == code)
    || (a.begin.None? && a.failure.Some? && a.failure.value.code == code)
    || (a.begin.None? && a.failure.None? && a.commit.Errored? && a.commit.fault.code == code)
  }

  /** The attempt is made, and acknowledged. */
  predicate Runs<R>(a: Attempt<R>) {
    a.cancelled.None? && a.begin.None? && a.failure.None? && a.commit.Acked?
  }

  function FirstError<R>(a: Attempt<R>): Option<Fault> {
    if a.begin.Some? then a.begin
    else if a.failure.Some? then a.failure
    else if a.commit.Errored? then Some(a.commit.fault)
    else None
  }

  /** How a call ends whose last attempt is `last`. */
  function OutcomeAt<R>(env: nat -> Attempt<R>, last: nat): Outcome {
    if last > 0 && env(last).cancelled.Some? then Failure(env(last).cancelled.value)
    else if Transience(env(last)).Some? then Exhausted(Transience(env(last)).value)
    else if FirstError(env(last)).Some? then Failure(FirstError(env(last)).value)
    else Success
  }

  /** The codes, in full: a retry follows exactly an attempt whose first error is one of the two. */
  lemma TransienceIsByCode<R>(a: Attempt<R>)
    ensures forall code :: FailsWith(a, code) <==> FirstError(a).Some? && FirstError(a).value.code == code
    ensures Transience(a) == if FirstError(a).Some? && Retryable(FirstError(a).value.code) then FirstError(a) else None
  {
  }

  predicate Retryable(code: string) {
    code == "40P01" || code == "40001"
  }

  /** By code: only a deadlock or a serialization failure is retried, and always, at most four times. */
  ghost predicate RetriedByCode<R>(env: nat -> Attempt<R>, last: nat, outcome: Outcome, retries: seq<string>) {
    && last <= 4 && |retries| == last
    && (forall i | 0 <= i < |retries| :: Retryable(retries[i]) && FailsWith(env(i), retries[i]))
    && EndsByCode(env, last, outcome)
    && StartsByCode(env, last, outcome)
  }

  ghost predicate EndsByCode<R>(env: nat -> Attempt<R>, last: nat, outcome: Outcome) {
    && (outcome.Exhausted? ==> last == 4 && Retryable(outcome.last.code))
    && (outcome.Failure? && Retryable(outcome.fault.code) ==> last > 0 && env(last).cancelled == Some(outcome.fault))
  }

  ghost predicate StartsByCode<R>(env: nat -> Attempt<R>, last: nat, outcome: Outcome) {
    && (forall code | FailsWith(env(0), code) && Retryable(code) ::
          last > 0 && (Runs(env(1)) ==> outcome.Success? && last == 1))
    && (forall code | FailsWith(env(0), code) && !Retryable(code) ::
          outcome.Failure? && outcome.fault.code == code && last == 0)
  }

  lemma CallEndsByCode<R>(env: nat -> Attempt<R>, last: nat)
    requires Reached(env, last) && Settles(env, last)
    ensures EndsByCode(env, last, OutcomeAt(env, last))
  {
    TransienceIsByCode(env(last));
    hide Transience, FirstError, Reached;
  }

  lemma CallStartsByCode<R>(env: nat -> Attempt<R>, last: nat)
    requires Reached(env, last) && Settles(env, last)
    ensures StartsByCode(env, last, OutcomeAt(env, last))
  {
    TransienceIsByCode(env(0));
    TransienceIsByCode(env(1));
    assert last > 0 ==> Transience(env(0)).Some?;
    assert last > 1 ==> Transience(env(1)).Some?;
    assert Runs(env(1)) ==> Transience(env(1)).None? && FirstError(env(1)).None?;
    hide Transience, FirstError, FailsWith;
  }

  /** The callbacks of a call, in order: the code of each attempt before the last. */
  function Codes<R>(env: nat -> Attempt<R>, last: nat): seq<string>
    requires forall k | 0 <= k < last :: Transience(env(k)).Some?
  {
    if last == 0 then [] else Codes(env, last - 1) + [Transience(env(last - 1)).value.code]
  }

  lemma {:induction false} CodesAt<R>(env: nat -> Attempt<R>, last: nat)
    requires forall k | 0 <= k < last :: Transience(env(k)).Some?
    ensures |Codes(env, last)| == last
    ensures forall k | 0 <= k < last :: Codes(env, last)[k] == Transience(env(k)).value.code
  {
    hide Transience;
    if last > 0 {
      CodesAt(env, last - 1);
    }
  }

  lemma OutcomeIsByCode<R>(env: nat -> Attempt<R>, last: nat)
    requires Reached(env, last) && Settles(env, last)
    ensures |Codes(env, last)| == last && forall k | 0 <= k < last :: Codes(env, last)[k] == Transience(env(k)).value.code
    ensures RetriedByCode(env, last, OutcomeAt(env, last), Codes(env, last))
  {
    CallEndsByCode(env, last);
    CallStartsByCode(env, last);
    CodesAt(env, last);
    hide EndsByCode, StartsByCode, OutcomeAt, Settles, Codes;
    forall k | 0 <= k < last
      ensures Retryable(Codes(env, last)[k]) && FailsWith(env(k), Codes(env, last)[k])
    {
      TransienceIsByCode(env(k));
    }
  }

  /** The case the retry is there for: a body that deadlocks once, and then runs. */
  lemma OneDeadlock<R>(env: nat -> Attempt<R>, last: nat, code: string)
    requires Reached(env, last) && Settles(env, last) && (code == "40P01" || code == "40001")
    requires env(0).begin.None? && env(0).failure == Some(Fault(code))
    requires env(1).cancelled.None? && env(1).begin.None? && env(1).failure.None? && env(1).commit.Acked?
    ensures last == 1 && OutcomeAt(env, last) == Success && Codes(env, last) == [code]
  {
    assert Transience(env(0)) == Some(Fault(code));
    assert Transience(env(1)).None?;
  }

  /** What InTx says of the codes, once its last attempt is known. */
  lemma EndOfCall<R>(env: nat -> Attempt<R>, last: nat)
    requires Reached(env, last) && Settles(env, last)
    ensures |Codes(env, last)| == last <= 4
    ensures forall k | 0 <= k < last :: Codes(env, last)[k] == Transience(env(k)).value.code
    ensures RetriedByCode(env, last, OutcomeAt(env, last), Codes(env, last))
    ensures forall k | 0 <= k < last :: Codes(env, last)[k] == "40P01" || Codes(env, last)[k] == "40001"
    ensures var outcome := OutcomeAt(env, last);
      && (outcome.Failure? && (outcome.fault.code == "40P01" || outcome.fault.code == "40001") ==>
            last > 0 && env(last).cancelled == Some(outcome.fault))
      && (outcome.Exhausted? ==> last == 4)
    ensures forall code | (code == "40P01" || code == "40001")
      && env(0).begin.None? && env(0).failure == Some(Fault(code))
      && env(1).cancelled.None? && env(1).begin.None? && env(1).failure.None? && env(1).commit.Acked? ::
      last == 1 && OutcomeAt(env, last) == Success && Codes(env, last) == [code]
  {
    OutcomeIsByCode(env, last);
    hide Transience, StartsByCode, FailsWith, Codes, Settles;
    forall code | (code == "40P01" || code == "40001")
      && env(0).begin.None? && env(0).failure == Some(Fault(code))
      && env(1).cancelled.None? && env(1).begin.None? && env(1).failure.None? && env(1).commit.Acked?
      ensures last == 1 && OutcomeAt(env, last) == Success && Codes(env, last) == [code]
    {
      OneDeadlock(env, last, code);
    }
    hide OutcomeAt;
  }

  predicate Lands<R>(a: Attempt<R>) {
    a.begin.None? && a.failure.None? && (a.commit.Acked? || a.commit.landed)
  }

  /** The store's side of the conversation: committed bodies, observed retries, and the closure's variable. */
  class Store<R(!new)> {
    var committed: seq<R>
    var retries: seq<string>
    var captured: Option<R>

    constructor ()
      ensures committed == [] && retries == [] && captured == None
    {
      committed, retries, captured := [], [], None;
    }

    /** One attempt's body: reset the captured variable first, then run. */
    method Body(a: Attempt<R>) returns (err: Option<Fault>)
      modifies this`captured
      ensures err == a.failure
      ensures captured == if a.failure.None? then Some(a.body) else None
    {
      captured := None;
      if a.failure.Some? {
        return a.failure;
      }
      captured := Some(a.body);
      return None;
    }

    method Commit(a: Attempt<R>) returns (err: Option<Fault>)
      requires captured.Some?
      modifies this`committed
      ensures committed == old(committed) + if a.commit.Acked? || a.commit.landed then [captured.value] else []
      ensures err == if a.commit.Acked? then None else Some(a.commit.fault)
    {
      if a.commit.Acked? || a.commit.landed {
        committed := committed + [captured.value];
      }
      return if a.commit.Acked? then None else Some(a.commit.fault);
    }

    /** The loop: where a call ends, what it has committed by then and which callbacks it has made. */
    method Attempts(env: nat -> Attempt<R>) returns (outcome: Outcome, ghost last: nat)
      requires Honest(env)
      modifies this
      ensures Reached(env, last) && Settles(env, last) && outcome == OutcomeAt(env, last)
      ensures retries == old(retries) + Codes(env, last)
      ensures outcome.Success? ==>
        Lands(env(last)) && captured == Some(env(last).body) && committed == old(committed) + [env(last).body]
      ensures outcome.Failure? ==>
        committed == old(committed) || (Lands(env(last)) && env(last).commit.Errored? && committed == old(committed) + [env(last).body])
      ensures outcome.Failure? && committed != old(committed) ==> !IsTransient(outcome.fault)
      ensures outcome.Exhausted? ==> committed == old(committed)
    {
      hide IsTransient;
      var attempt := 0;
      var err := Fault("");
      last := 0;
      while attempt < MAX_TX_ATTEMPTS
        invariant 0 <= attempt <= MAX_TX_ATTEMPTS
        invariant forall j | 0 <= j < attempt :: Transience(env(j)).Some? && (j > 0 ==> env(j).cancelled.None?)
        invariant attempt > 0 ==> err == Transience(env(attempt - 1)).value && last == attempt - 1
        invariant attempt == 0 ==> last == 0
        invariant committed == old(committed)
        invariant retries == old(retries) + Codes(env, last)
      {
        last := attempt;
        var a := env(attempt);
        if attempt > 0 {
          retries := retries + [err.code];
          if a.cancelled.Some? {
            return Failure(a.cancelled.value), last;
          }
        }
        if a.begin.Some? {
          err := a.begin.value;
          if IsTransient(err) {
            attempt := attempt + 1;
            continue;
          }
          return Failure(err), last;
        }
        var failed := Body(a);
        if failed.Some? {
          err := failed.value;
          if IsTransient(err) {
            attempt := attempt + 1;
            continue;
          }
          return Failure(err), last;
        }
        var refused := Commit(a);
        if refused.Some? {
          err := refused.value;
          if IsTransient(err) {
            attempt := attempt + 1;
            continue;
          }
          return Failure(err), last;
        }
        return Success, last;
      }
      return Exhausted(err), last;
    }

    /**
     At most one body is committed, exactly one when the call succeeds and none when it gives up; a success
     hands over the result of the very attempt that committed; at most five attempts and four retry
     callbacks are made, each callback naming the transient code of the attempt before.
     */
    method InTx(env: nat -> Attempt<R>) returns (outcome: Outcome, ghost last: nat)
      requires Honest(env)
      modifies this
      ensures Reached(env, last) && Settles(env, last)
      ensures |old(retries)| <= |retries| <= |old(retries)| + MAX_TX_ATTEMPTS - 1 && old(retries) == retries[..|old(retries)|]
      ensures |retries| == |old(retries)| + last
      ensures forall k | 0 <= k < last :: retries[|old(retries)| + k] == Transience(env(k)).value.code
      ensures outcome.Success? ==>
        Lands(env(last)) && env(last).commit.Acked? && captured == Some(env(last).body)
        && committed == old(committed) + [env(last).body]
      ensures outcome.Failure? ==>
        committed == old(committed) || (Lands(env(last)) && env(last).commit.Errored? && committed == old(committed) + [env(last).body])
      ensures outcome.Failure? && committed != old(committed) ==> !IsTransient(outcome.fault)
      ensures outcome.Exhausted? <==>
        last == MAX_TX_ATTEMPTS - 1 && Transience(env(last)).Some? && env(last).cancelled.None?
      ensures outcome.Exhausted? ==> committed == old(committed) && outcome.last == Transience(env(last)).value
      ensures outcome == OutcomeAt(env, last) && RetriedByCode(env, last, outcome, retries[|old(retries)|..])
      // by code: deadlocks and serialization failures are retried, and nothing else
      ensures forall i | |old(retries)| <= i < |retries| :: retries[i] == "40P01" || retries[i] == "40001"
      ensures outcome.Failure? && (outcome.fault.code == "40P01" || outcome.fault.code == "40001") ==>
        last > 0 && env(last).cancelled == Some(outcome.fault)
      ensures forall code | (code == "40P01" || code == "40001")
        && env(0).begin.None? && env(0).failure == Some(Fault(code))
        && env(1).cancelled.None? && env(1).begin.None? && env(1).failure.None? && env(1).commit.Acked? ::
        outcome.Success? && committed == old(committed) + [env(1).body] && retries == old(retries) + [code]
      ensures last <= 4 && |retries| <= |old(retries)| + 4 && (outcome.Exhausted? ==> last == 4)
    {
      hide IsTransient, RetriedByCode, Codes, Honest;
      outcome, last := Attempts(env);
      EndOfCall(env, last);
      assert retries[|old(retries)|..] == Codes(env, last);
      hide Settles;
    }
  }
}
