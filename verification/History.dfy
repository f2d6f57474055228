/** What no later step of any call can undo. */
module History {
  import opened Tables
  import opened Protocol
  import opened Invariant
  import opened Landing
  import opened CommitStep

  /** `s'` remembers everything `s` has settled: rows, requests, and answers already given. */
  ghost predicate Remembers(s: State, s': State) {
    && Grows(s.db, s'.db)
    && (forall c | c in s.calls ::
          && c in s'.calls
          && s'.calls[c].op == s.calls[c].op
          && (s.calls[c].pc.Done? ==> s'.calls[c] == s.calls[c] && SameEffect(s.db, s'.db, c)))
  }

  /** Call `c` has no more rows than it had, so an uncertain commit has landed already or never will. */
  ghost predicate SameEffect(db: Tables, db': Tables, c: nat) {
    (Effect(db', c) <==> Effect(db, c)) && (c in db'.transfers ==> c in db.transfers)
  }

  lemma MoveKeepsOp(cfg: Config, s: State, c: nat, l: Label, call: Call)
    requires c in s.calls && Move(cfg, s, c, l) == Some(call)
    ensures call.op == s.calls[c].op && !s.calls[c].pc.Done?
  {
  }

  lemma StepRemembers(cfg: Config, s: State, l: Label)
    requires Lawful(cfg) && Inv(cfg, s) && Step(cfg, s, l).Some?
    ensures Remembers(s, Step(cfg, s, l).value)
  {
    hide CallInv, Sound, Effect, Covered;
    if Lands(l) {
      CommitIsSound(cfg, s.db, l.c, s.calls[l.c]);
      ApplyGrows(s.db, l.c, s.calls[l.c].tx);
      forall d: nat | d != l.c
        ensures SameEffect(s.db, Step(cfg, s, l).value.db, d)
      {
        ApplyHasNoOtherEffect(s.db, l.c, s.calls[l.c].tx, d);
      }
    }
    hide Apply, Grows;
    if !l.Arrive? {
      MoveKeepsOp(cfg, s, l.c, l, Step(cfg, s, l).value.calls[l.c]);
    }
    hide Move;
  }

  lemma {:induction false} RunRemembers(cfg: Config, s: State, run: seq<Label>)
    requires Lawful(cfg) && Inv(cfg, s) && Exec(cfg, s, run).Some?
    ensures Remembers(s, Exec(cfg, s, run).value)
  {
    hide Inv, Step, Effect;
    if run != [] {
      var before := run[..|run| - 1];
      RunRemembers(cfg, s, before);
      RunKeeps(cfg, s, before);
      StepRemembers(cfg, Exec(cfg, s, before).value, run[|run| - 1]);
    }
  }
}
