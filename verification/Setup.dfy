/** The deadlocking situations are reachable from empty tables, for any two distinct wallets. */
module Setup {
  import opened Tables
  import opened Text
  import opened Protocol
  import opened Landing
  import opened Progress
  import opened Witness

  predicate AllOver(s: State) {
    forall c | c in s.calls :: s.calls[c].pc.Done? && s.calls[c].tx == NO_TX
  }

  predicate NoTransfers(s: State) {
    forall c | c in s.calls :: !s.calls[c].op.Transferring?
  }

  lemma NobodyElse(s: State, c: nat, call: Call)
    requires AllOver(s)
    ensures forall row, mode :: Free(With(s, c, call), c, row, mode)
    ensures forall k :: Unclaimed(With(s, c, call), c, k)
  {
  }

  /** One more quiet step of the only call at work. */
  lemma Onward(cfg: Config, s: State, c: nat, before: Call, l: Label, after: Call)
    requires Leads(cfg, s, With(s, c, before)) && l.c == c && !l.Arrive? && !Lands(l)
    requires Move(cfg, With(s, c, before), c, l) == Some(after)
    ensures Leads(cfg, s, With(s, c, after))
  {
    hide Move, Leads;
    assert s.calls[c := before][c := after] == s.calls[c := after];
    LeadsOn(cfg, s, With(s, c, before), l);
  }

  lemma Arrives(cfg: Config, s: State, c: nat, op: Op)
    requires c !in s.calls && (op.Transferring? ==> op.req.from != op.req.to)
    ensures Leads(cfg, s, With(s, c, Call(op, 0, Claiming, FreshTx(0), None)))
  {
    LeadsHere(cfg, s);
    LeadsOn(cfg, s, s, Arrive(c, op));
    hide Leads;
    Onward(cfg, s, c, Call(op, 0, Start, NO_TX, None), Begin(c, 0), Call(op, 0, Claiming, FreshTx(0), None));
  }

  /** A commit ends the call and applies its writes. */
  lemma Finishes(cfg: Config, s: State, c: nat, call: Call, outcome: Outcome) returns (s': State)
    requires Leads(cfg, s, With(s, c, call)) && call.pc == Committing && call.result == Some(outcome) && AllOver(s)
    ensures Leads(cfg, s, s') && AllOver(s')
    ensures s'.db == Apply(s.db, c, call.tx.writes)
    ensures s'.calls == s.calls[c := call.(pc := Done(outcome), tx := NO_TX, result := None)]
  {
    hide Leads, Apply;
    var over := call.(pc := Done(outcome), tx := NO_TX, result := None);
    s' := State(Apply(s.db, c, call.tx.writes), s.calls[c := over]);
    assert s.calls[c := call][c := over] == s.calls[c := over];
    LeadsOn(cfg, s, With(s, c, call), Commit(c, Acked));
  }

  lemma GetUser(cfg: Config, s: State, c: nat, token: string) returns (s': State)
    requires AllOver(s) && c !in s.calls && !Taken(s.db, TokenKey(token))
    ensures Leads(cfg, s, s') && AllOver(s')
    ensures s'.db == s.db.(users := s.db.users[c := token]) && s'.calls.Keys == s.calls.Keys + {c}
    ensures NoTransfers(s) ==> NoTransfers(s')
  {
    var op := ResolvingUser(token);
    var c1 := Call(op, 0, Claiming, FreshTx(0), None);
    var tx := FreshTx(0).(claim := Some(TokenKey(token)), writes := NO_WRITES.(user := Some(token)));
    var c2 := Call(op, 0, Committing, tx, Some(UserOk(c)));
    Arrives(cfg, s, c, op);
    NobodyElse(s, c, c1);
    hide Leads, Free, Unclaimed, Apply, AllOver;
    Onward(cfg, s, c, c1, Upsert(c, None), c2);
    s' := Finishes(cfg, s, c, c2, UserOk(c));
    ApplyNewUser(s.db, c, token);
  }

  /** A get-or-create between its insert and its foreign-key check. */
  function OpeningCall(c: nat, user: nat): Call {
    var row := Wallet(user, 0, 0);
    var tx := FreshTx(0).(claim := Some(OwnerKey(user)), writes := NO_WRITES.(wallet := Some(row)));
    Call(OpeningWallet(user), 0, Sharing, tx, Some(WalletOk(Show(c, row), true)))
  }

  function OpenedCall(c: nat, user: nat): Call {
    var call := OpeningCall(c, user);
    call.(pc := Committing, tx := call.tx.(locks := map[OfUser(user) := KeyShare]))
  }

  lemma InsertsWallet(cfg: Config, s: State, c: nat, user: nat)
    requires AllOver(s) && !Taken(s.db, OwnerKey(user))
    ensures var call := Call(OpeningWallet(user), 0, Claiming, FreshTx(0), None);
      Move(cfg, With(s, c, call), c, Upsert(c, None)) == Some(OpeningCall(c, user))
  {
    NobodyElse(s, c, Call(OpeningWallet(user), 0, Claiming, FreshTx(0), None));
    hide Free, Unclaimed, AllOver, Taken;
  }

  lemma ChecksOwner(cfg: Config, s: State, c: nat, user: nat)
    requires AllOver(s) && user in s.db.users
    ensures Move(cfg, With(s, c, OpeningCall(c, user)), c, CheckForeign(c, OfUser(user))) == Some(OpenedCall(c, user))
  {
    NobodyElse(s, c, OpeningCall(c, user));
    hide Free, Unclaimed, AllOver;
    assert map[][OfUser(user) := KeyShare] == map[OfUser(user) := KeyShare];
  }

  lemma GetWallet(cfg: Config, s: State, c: nat, user: nat) returns (s': State)
    requires AllOver(s) && c !in s.calls && user in s.db.users && !Taken(s.db, OwnerKey(user))
    ensures Leads(cfg, s, s') && AllOver(s')
    ensures s'.db == s.db.(wallets := s.db.wallets[c := Wallet(user, 0, 0)]) && s'.calls.Keys == s.calls.Keys + {c}
    ensures NoTransfers(s) ==> NoTransfers(s')
  {
    hide Leads, Move, Apply, AllOver, Taken;
    Arrives(cfg, s, c, OpeningWallet(user));
    InsertsWallet(cfg, s, c, user);
    Onward(cfg, s, c, Call(OpeningWallet(user), 0, Claiming, FreshTx(0), None), Upsert(c, None), OpeningCall(c, user));
    ChecksOwner(cfg, s, c, user);
    Onward(cfg, s, c, OpeningCall(c, user), CheckForeign(c, OfUser(user)), OpenedCall(c, user));
    s' := Finishes(cfg, s, c, OpenedCall(c, user), WalletOk(Show(c, Wallet(user, 0, 0)), true));
    ApplyNewWallet(s.db, c, Wallet(user, 0, 0));
  }

  /** Two users, two wallets, nothing going on. */
  ghost predicate Quiet(s: State, a: nat, b: nat, user: nat, other: nat) {
    && AllOver(s)
    && s.calls.Keys == {user, other, a, b} && NoTransfers(s)
    && s.db == EMPTY.(users := map[user := "u", other := "v"], wallets := map[a := Wallet(user, 0, 0), b := Wallet(other, 0, 0)])
  }

  predicate Distinct(a: nat, b: nat, user: nat, other: nat) {
    a != b && a != user && a != other && b != user && b != other && user != other
  }

  lemma TwoUsers(cfg: Config, user: nat, other: nat) returns (s: State)
    requires user != other
    ensures Leads(cfg, INIT, s) && AllOver(s) && s.calls.Keys == {user, other} && NoTransfers(s)
    ensures s.db == EMPTY.(users := map[user := "u", other := "v"])
  {
    hide Leads;
    var s1 := GetUser(cfg, INIT, user, "u");
    s := GetUser(cfg, s1, other, "v");
    LeadsTogether(cfg, INIT, s1, s);
    assert s.db.users == map[user := "u", other := "v"];
  }

  lemma TwoWallets(cfg: Config, a: nat, b: nat, user: nat, other: nat) returns (s: State)
    requires Distinct(a, b, user, other)
    ensures Leads(cfg, INIT, s) && Quiet(s, a, b, user, other)
  {
    hide Leads;
    var s2 := TwoUsers(cfg, user, other);
    var s3 := GetWallet(cfg, s2, a, user);
    assert !Taken(s3.db, OwnerKey(other));
    s := GetWallet(cfg, s3, b, other);
    hide Taken, AllOver;
    LeadsTogether(cfg, INIT, s2, s3);
    LeadsTogether(cfg, INIT, s3, s);
    assert s.db.wallets == map[a := Wallet(user, 0, 0), b := Wallet(other, 0, 0)];
  }

  lemma QuietIsOpposite(
    cfg: Config, s: State, a: nat, b: nat, user: nat, other: nat, c: nat, d: nat, r: Request, q: Request)
    requires Distinct(a, b, user, other) && Quiet(s, a, b, user, other)
    requires c != d && c !in s.calls && d !in s.calls
    requires cfg.parse(r.from) == Some(a) == cfg.parse(q.to) && cfg.parse(r.to) == Some(b) == cfg.parse(q.from)
    requires r.requester == user && q.requester == other && r.amount > 0 && q.amount > 0
    ensures Opposite(cfg, s, c, d, r, q)
    ensures forall row :: Idle(s, c, row) && Idle(s, d, row)
  {
  }

  /** One unit, under the requester's own first key. */
  function Pays(requester: nat, from: string, to: string): Request {
    Request(requester, from, to, 1, "k")
  }

  lemma LeadsFromInit(cfg: Config, s: State)
    requires Leads(cfg, INIT, s)
    ensures Reachable(cfg, s)
  {
  }

  /** For any two distinct wallets, a store that locked FOR UPDATE would reach a deadlock from empty tables. */
  lemma ForUpdateReachesDeadlock(cfg: Config, a: nat, b: nat) returns (s: State, c: nat, d: nat)
    requires Lawful(cfg) && cfg.mode == Update && a != b
    ensures Reachable(cfg, s) && Deadlocked(cfg, s, c, d)
  {
    var user, other := a + b + 1, a + b + 2;
    var s0 := TwoWallets(cfg, a, b, user, other);
    c, d := a + b + 3, a + b + 4;
    var r, q := Pays(user, cfg.canon(a), cfg.canon(b)), Pays(other, cfg.canon(b), cfg.canon(a));
    QuietIsOpposite(cfg, s0, a, b, user, other, c, d, r, q);
    hide Leads, Deadlocked, Opposite, Quiet;
    s := ForUpdateDeadlocks(cfg, s0, c, d, r, q);
    LeadsTogether(cfg, INIT, s0, s);
    LeadsFromInit(cfg, s);
  }

  /** So would one that locked in request order. */
  lemma UnsortedReachesDeadlock(cfg: Config, a: nat, b: nat) returns (s: State, c: nat, d: nat)
    requires Lawful(cfg) && cfg.mode == NoKeyUpdate && !cfg.sorted && a != b
    ensures Reachable(cfg, s) && Deadlocked(cfg, s, c, d)
  {
    var user, other := a + b + 1, a + b + 2;
    var s0 := TwoWallets(cfg, a, b, user, other);
    c, d := a + b + 3, a + b + 4;
    var r, q := Pays(user, cfg.canon(a), cfg.canon(b)), Pays(other, cfg.canon(b), cfg.canon(a));
    QuietIsOpposite(cfg, s0, a, b, user, other, c, d, r, q);
    hide Leads, Deadlocked, Opposite, Quiet, Idle;
    s := UnsortedDeadlocks(cfg, s0, c, d, r, q);
    LeadsTogether(cfg, INIT, s0, s);
    LeadsFromInit(cfg, s);
  }

  /** Every transfer of the state is orderly, or names its wallets by these two texts. */
  predicate AmongOrderly(cfg: Config, s: State, from: string, to: string) {
    forall c | c in s.calls && s.calls[c].op.Transferring? ::
      var req := s.calls[c].op.req;
      (req.from == from && req.to == to) || Orderly(cfg, req.from, req.to)
  }

  /**
   The shipped store reaches one too, by any request whose two texts sort otherwise than the server's texts of
   those wallets, and one more transfer between them, spelled as the server spells them.
   */
  lemma SpellingReachesDeadlock(cfg: Config, from: string, to: string) returns (s: State, c: nat, d: nat)
    requires Lawful(cfg) && AsShipped(cfg) && !Orderly(cfg, from, to)
    ensures Reachable(cfg, s) && Deadlocked(cfg, s, c, d) && AmongOrderly(cfg, s, from, to)
  {
    var a, b := Id(cfg, from), Id(cfg, to);
    assert cfg.parse(cfg.canon(a)) == Some(a) && cfg.parse(cfg.canon(b)) == Some(b);
    LessEitherWay(cfg.canon(a), cfg.canon(b));
    var user, other := a + b + 1, a + b + 2;
    var s0 := TwoWallets(cfg, a, b, user, other);
    c, d := a + b + 3, a + b + 4;
    var r, q := Pays(user, from, to), Pays(other, cfg.canon(b), cfg.canon(a));
    QuietIsOpposite(cfg, s0, a, b, user, other, c, d, r, q);
    hide Leads, Deadlocked, Opposite, Quiet, Idle;
    s := SpellingDeadlocks(cfg, s0, c, d, r, q);
    LeadsTogether(cfg, INIT, s0, s);
    LeadsFromInit(cfg, s);
    TidyIsOrderly(cfg, q.from, q.to);
    CompanyIsOrderly(cfg, s0, s, a, b, user, other, c, d, r, q);
  }

  lemma CompanyIsOrderly(
    cfg: Config, s0: State, s: State, a: nat, b: nat, user: nat, other: nat, c: nat, d: nat, r: Request, q: Request)
    requires Quiet(s0, a, b, user, other) && JoinedBy(s0, s, c, d, r, q) && Orderly(cfg, q.from, q.to)
    ensures AmongOrderly(cfg, s, r.from, r.to)
  {
    hide Orderly;
  }

  /**
   Exactly which spellings are safe: two texts can take part in no deadlock among otherwise orderly transfers, mints
   and upserts, if and only if they sort the way the server's texts of the two wallets do.
   */
  lemma OrderlyIsDeadlockFree(cfg: Config, from: string, to: string)
    requires Lawful(cfg) && AsShipped(cfg)
    ensures Orderly(cfg, from, to) <==>
      forall s, path | Reachable(cfg, s) && AmongOrderly(cfg, s, from, to) && Chain(cfg, s, path) ::
        path[0] != path[|path| - 1]
  {
    hide Reachable, Orderly, WaitsFor, Halted, Lawful;
    if Orderly(cfg, from, to) {
      forall s, path | Reachable(cfg, s) && AmongOrderly(cfg, s, from, to) && Chain(cfg, s, path)
        ensures path[0] != path[|path| - 1]
      {
        NoDeadlock(cfg, s, path);
      }
    } else {
      var s, c, d := SpellingReachesDeadlock(cfg, from, to);
      assert Chain(cfg, s, [c, d, c]);
    }
  }

  // ---------------------------------------------------------------------------
  // A server that, like PostgreSQL's uuid type, reads ids without regard to case
  // ---------------------------------------------------------------------------

  ghost function SampleParse(t: string): Option<nat> {
    if |t| > 0 && (t[0] == 'f' || t[0] == 'F') && exists w: nat :: Digits(w) == t[1..] then
      var w: nat :| Digits(w) == t[1..]; Some(w)
    else None
  }

  function SampleCanon(w: nat): string { "f" + Digits(w) }

  ghost function SampleConfig(): Config {
    Config((t: string) => SampleParse(t), (w: nat) => SampleCanon(w), NoKeyUpdate, true)
  }

  lemma SampleParses(w: nat)
    ensures SampleParse("f" + Digits(w)) == Some(w) == SampleParse("F" + Digits(w))
  {
    var lower, upper := "f" + Digits(w), "F" + Digits(w);
    assert lower[1..] == Digits(w) == upper[1..];
    var x, y := SampleParse(lower).value, SampleParse(upper).value;
    DigitsAreInjective(x, w);
    DigitsAreInjective(y, w);
  }

  lemma SampleIsLawful()
    ensures Lawful(SampleConfig()) && AsShipped(SampleConfig())
  {
    var cfg := SampleConfig();
    forall w: nat
      ensures cfg.parse(cfg.canon(w)) == Some(w)
    {
      SampleParses(w);
    }
    forall t: string | cfg.parse(t).Some?
      ensures '|' !in t
    {
      var w: nat :| Digits(w) == t[1..];
      assert t == [t[0]] + t[1..];
    }
  }

  /** Its second spelling of f2 sorts before f1. */
  lemma SampleIsDisorderly()
    ensures !Orderly(SampleConfig(), SampleCanon(1), "F" + Digits(2))
  {
    SampleParses(1);
    SampleParses(2);
    var alt, one, two := "F" + Digits(2), SampleCanon(1), SampleCanon(2);
    assert alt[0] == 'F' && one[0] == 'f' && Less(alt, one);
    assert Digits(1) == "1" && Digits(2) == "2";
    assert one[1..] == "1" && two[1..] == "2" && one[0] == two[0];
    assert Less("1", "2");
    assert Less(one, two);
    LessEitherWay(alt, one);
    hide Less, SampleParse;
  }

  /** With such a server the shipped store can deadlock, on wallets f1 and f2, the second also written F2. */
  lemma SampleDeadlocks() returns (s: State, c: nat, d: nat)
    ensures Lawful(SampleConfig()) && AsShipped(SampleConfig())
    ensures Reachable(SampleConfig(), s) && Deadlocked(SampleConfig(), s, c, d)
  {
    hide Reachable, Deadlocked, Orderly, SampleConfig, SampleCanon;
    SampleIsLawful();
    SampleIsDisorderly();
    s, c, d := SpellingReachesDeadlock(SampleConfig(), SampleCanon(1), "F" + Digits(2));
  }
}
