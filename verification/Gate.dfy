/** POST /transfers: validation and ownership are checked before, and outside, the money transaction. */
module Gate {
  import opened Tables
  import opened Text
  import opened Protocol
  import opened Invariant
  import opened CommitStep
  import opened History
  import opened Guarantees
  import opened Verdict

  datatype Body = Body(from: string, to: string, amount: Option<int>, idem: string)

  datatype Reply =
    | Rejected(status: int, code: string)
    | Admitted(req: Request)

  const MAX_KEY_LENGTH := 255

  /** Unicode's White_Space property. */
  predicate IsSpace(ch: char) {
    || ch == ' ' || '\t' <= ch <= '\r' || ch == '\U{0085}' || ch == '\U{00A0}' || ch == '\U{1680}'
    || '\U{2000}' <= ch <= '\U{200A}' || ch == '\U{2028}' || ch == '\U{2029}' || ch == '\U{202F}'
    || ch == '\U{205F}' || ch == '\U{3000}'
  }

  /** `strings.TrimSpace(s) == ""`. */
  predicate IsBlank(s: string) {
    forall i | 0 <= i < |s| :: IsSpace(s[i])
  }

  /** The UTF-8 bytes of a character. */
  function Width(ch: char): nat {
    var code := ch as int;
    if code < 0x80 then 1 else if code < 0x800 then 2 else if code < 0x1_0000 then 3 else 4
  }

  /** White space, by code point. */
  lemma SpacesByCode(ch: char)
    ensures IsSpace(ch) <==> ch as int in {
      9, 10, 11, 12, 13, 32, 133, 160, 5760, 8192, 8193, 8194, 8195, 8196, 8197, 8198, 8199, 8200, 8201, 8202,
      8232, 8233, 8239, 8287, 12288}
  {
  }

  /** The bytes themselves: a lead byte that tells the length, then six bits to a byte. */
  function Utf8(code: nat): seq<int> {
    if code < 0x80 then [code]
    else if code < 0x800 then [0xC0 + code / 64, 0x80 + code % 64]
    else if code < 0x1_0000 then [0xE0 + code / 4096, 0x80 + code / 64 % 64, 0x80 + code % 64]
    else [0xF0 + code / 262144, 0x80 + code / 4096 % 64, 0x80 + code / 64 % 64, 0x80 + code % 64]
  }

  function FromUtf8(bytes: seq<int>): int
    requires 1 <= |bytes| <= 4
  {
    if |bytes| == 1 then bytes[0]
    else if |bytes| == 2 then (bytes[0] - 0xC0) * 64 + (bytes[1] - 0x80)
    else if |bytes| == 3 then ((bytes[0] - 0xE0) * 64 + (bytes[1] - 0x80)) * 64 + (bytes[2] - 0x80)
    else (((bytes[0] - 0xF0) * 64 + (bytes[1] - 0x80)) * 64 + (bytes[2] - 0x80)) * 64 + (bytes[3] - 0x80)
  }

  /** A character is as wide as its encoding, which is valid UTF-8 and reads back as the character. */
  lemma WidthIsUtf8(ch: char)
    ensures var bytes := Utf8(ch as int);
      && |bytes| == Width(ch) && 1 <= |bytes| <= 4 && FromUtf8(bytes) == ch as int
      && (|bytes| == 1 ==> 0 <= bytes[0] < 0x80) && (|bytes| == 2 ==> 0xC2 <= bytes[0] < 0xE0)
      && (|bytes| == 3 ==> 0xE0 <= bytes[0] < 0xF0) && (|bytes| == 4 ==> 0xF0 <= bytes[0] < 0xF5)
      && forall i | 1 <= i < |bytes| :: 0x80 <= bytes[i] < 0xC0
  {
    var code := ch as int;
    assert 0 <= code < 0x11_0000;
    assert code / 64 / 64 == code / 4096 && code / 4096 / 64 == code / 262144;
  }

  /** Go's `len(s)`, which counts bytes. */
  function ByteLength(s: string): nat {
    if s == "" then 0 else ByteLength(s[..|s| - 1]) + Width(s[|s| - 1])
  }

  /** `GetWallet`: an id that is no uuid is a lookup miss like any other. */
  function GetWallet(cfg: Config, db: Tables, id: string): (found: Option<WalletDoc>)
    ensures found.Some? <==> cfg.parse(id).Some? && cfg.parse(id).value in db.wallets
    ensures found.Some? ==>
      var w, doc := cfg.parse(id).value, found.value;
      && doc.id == w && doc.owner == db.wallets[w].owner
      && doc.balance == db.wallets[w].balance && doc.createdAt == db.wallets[w].createdAt
  {
    match cfg.parse(id)
    case None => None
    case Some(w) => if w in db.wallets then Some(Show(w, db.wallets[w])) else None
  }

  predicate KeyIsFine(idem: string) {
    !IsBlank(idem) && ByteLength(idem) <= 255
  }

  /** The request as a whole is one the money path may see. */
  predicate WellFormed(body: Body) {
    && !IsBlank(body.idem) && ByteLength(body.idem) <= MAX_KEY_LENGTH
    && body.from != "" && body.to != "" && body.from != body.to
    && body.amount.Some? && body.amount.value > 0
  }

  predicate OwnedBy(cfg: Config, db: Tables, id: string, user: nat) {
    GetWallet(cfg, db, id).Some? && GetWallet(cfg, db, id).value.owner == user
  }

  /** Admission, given the committed tables as the first and the second lookup saw them. */
  predicate Admits(cfg: Config, user: nat, body: Body, db1: Tables, db2: Tables) {
    WellFormed(body) && OwnedBy(cfg, db1, body.from, user) && GetWallet(cfg, db2, body.to).Some?
  }

  /** The guards let the second lookup happen. */
  predicate Owns(cfg: Config, user: nat, body: Body, read1: Option<Tables>) {
    WellFormed(body) && read1.Some? && OwnedBy(cfg, read1.value, body.from, user)
  }

  function RequestOf(user: nat, body: Body): Request
    requires body.amount.Some?
  {
    Request(user, body.from, body.to, body.amount.value, body.idem)
  }

  /**
   The guards in order, each an early return; a body may fail to parse, and either lookup to read. A rejection says
   why: 400 for no body, 422 for validation, before any lookup, 404 for a missing wallet, 403 exactly when a
   well-formed request names someone else's wallet, 500 when a lookup it comes to fails.
   */
  method CreateTransfer(cfg: Config, user: nat, parsed: Option<Body>, read1: Option<Tables>, read2: Option<Tables>)
    returns (reply: Reply)
    ensures reply.Admitted? <==>
      parsed.Some? && read1.Some? && read2.Some? && Admits(cfg, user, parsed.value, read1.value, read2.value)
    ensures reply.Admitted? ==>
      && reply.req.requester == user && reply.req.idem == parsed.value.idem
      && reply.req.from == parsed.value.from && reply.req.to == parsed.value.to
      && Some(reply.req.amount) == parsed.value.amount
    ensures reply.Rejected? && reply.status == 400 <==> parsed.None?
    ensures reply.Rejected? && reply.status == 422 <==> parsed.Some? && !WellFormed(parsed.value)
    ensures reply.Rejected? && reply.status == 500 <==>
      parsed.Some? && WellFormed(parsed.value)
      && (read1.None? || (Owns(cfg, user, parsed.value, read1) && read2.None?))
    ensures reply.Rejected? && reply.status == 403 <==>
      parsed.Some? && WellFormed(parsed.value) && read1.Some?
      && GetWallet(cfg, read1.value, parsed.value.from).Some? && !OwnedBy(cfg, read1.value, parsed.value.from, user)
    ensures reply.Rejected? && reply.status == 404 <==>
      parsed.Some? && WellFormed(parsed.value) && read1.Some?
      && (GetWallet(cfg, read1.value, parsed.value.from).None?
        || (Owns(cfg, user, parsed.value, read1) && read2.Some? && GetWallet(cfg, read2.value, parsed.value.to).None?))
    ensures reply.Rejected? && reply.code == "missing_idempotency_key" <==> parsed.Some? && IsBlank(parsed.value.idem)
    ensures reply.Rejected? && reply.code == "invalid_idempotency_key" <==>
      parsed.Some? && !IsBlank(parsed.value.idem) && ByteLength(parsed.value.idem) > 255
    ensures reply.Rejected? && reply.code == "missing_wallet" <==>
      parsed.Some? && KeyIsFine(parsed.value.idem) && (parsed.value.from == "" || parsed.value.to == "")
    ensures reply.Rejected? && reply.code == "same_wallet" <==>
      parsed.Some? && KeyIsFine(parsed.value.idem) && parsed.value.from == parsed.value.to != ""
    ensures reply.Rejected? && reply.code == "missing_amount" <==>
      parsed.Some? && KeyIsFine(parsed.value.idem) && parsed.value.from != "" && parsed.value.to != ""
      && parsed.value.from != parsed.value.to && parsed.value.amount == None
    ensures reply.Rejected? && reply.code == "invalid_amount" <==>
      parsed.Some? && KeyIsFine(parsed.value.idem) && parsed.value.from != "" && parsed.value.to != ""
      && parsed.value.from != parsed.value.to && parsed.value.amount.Some? && parsed.value.amount.value <= 0
    ensures reply.Rejected? ==>
      && (reply.status == 400 <==> reply.code == "invalid_body")
      && (reply.status == 403 <==> reply.code == "not_wallet_owner")
      && (reply.status == 404 <==> reply.code == "wallet_not_found")
      && (reply.status == 500 <==> reply.code == "internal_error")
  {
    if parsed.None? {
      return Rejected(400, "invalid_body");
    }
    var body := parsed.value;
    var blank := true;
    for i := 0 to |body.idem|
      invariant blank <==> forall j | 0 <= j < i :: IsSpace(body.idem[j])
    {
      blank := blank && IsSpace(body.idem[i]);
    }
    if blank {
      return Rejected(422, "missing_idempotency_key");
    }
    if ByteLength(body.idem) > MAX_KEY_LENGTH {
      return Rejected(422, "invalid_idempotency_key");
    }
    if body.from == "" || body.to == "" {
      return Rejected(422, "missing_wallet");
    }
    if body.from == body.to {
      return Rejected(422, "same_wallet");
    }
    if body.amount.None? {
      return Rejected(422, "missing_amount");
    }
    if body.amount.value <= 0 {
      return Rejected(422, "invalid_amount");
    }
    if read1.None? {
      return Rejected(500, "internal_error");
    }
    var source := GetWallet(cfg, read1.value, body.from);
    if source.None? {
      return Rejected(404, "wallet_not_found");
    }
    if source.value.owner != user {
      return Rejected(403, "not_wallet_owner");
    }
    if read2.None? {
      return Rejected(500, "internal_error");
    }
    var destination := GetWallet(cfg, read2.value, body.to);
    if destination.None? {
      return Rejected(404, "wallet_not_found");
    }
    return Admitted(Request(user, body.from, body.to, body.amount.value, body.idem));
  }

  /** The limit is on bytes: a key of 128 two-byte characters is too long, though it is shorter than 255 characters. */
  lemma BytesNotCharacters(user: nat, body: Body)
    requires body.idem == seq(128, i => '\U{00E9}')
    ensures |body.idem| <= MAX_KEY_LENGTH < ByteLength(body.idem) && !WellFormed(body)
  {
    WideKey('\U{00E9}', 128);
  }

  lemma {:induction false} WideKey(ch: char, n: nat)
    ensures ByteLength(seq(n, i => ch)) == n * Width(ch)
  {
    if n > 0 {
      WideKey(ch, n - 1);
      assert seq(n, i => ch)[..n - 1] == seq(n - 1, i => ch);
    }
  }

  // ---------------------------------------------------------------------------
  // Checked early, true for ever
  // ---------------------------------------------------------------------------

  /** The tables after the first `k` steps of a run. */
  function TablesAt(cfg: Config, run: seq<Label>, k: nat): Tables
    requires k <= |run| && Exec(cfg, INIT, run[..k]).Some?
  {
    Exec(cfg, INIT, run[..k]).value.db
  }

  /** The arrival at step `i` passed the gate on two earlier, possibly stale, reads. */
  ghost predicate PassedAt(cfg: Config, run: seq<Label>, i: nat, req: Request, user: nat, body: Body, j: nat, k: nat) {
    && j <= k <= i <= |run|
    && Exec(cfg, INIT, run[..j]).Some? && Exec(cfg, INIT, run[..k]).Some?
    && Admits(cfg, user, body, TablesAt(cfg, run, j), TablesAt(cfg, run, k))
    && req == RequestOf(user, body)
  }

  ghost predicate Passed(cfg: Config, run: seq<Label>, i: nat, req: Request) {
    exists user, body, j: nat, k: nat :: PassedAt(cfg, run, i, req, user, body, j, k)
  }

  /** Every transfer of the run came in through the API. */
  ghost predicate Gated(cfg: Config, run: seq<Label>) {
    forall i | 0 <= i < |run| && run[i].Arrive? && run[i].op.Transferring? :: Passed(cfg, run, i, run[i].op.req)
  }

  /** Every call came in at some step of the run. */
  lemma {:induction false} CallArrived(cfg: Config, run: seq<Label>, c: nat) returns (i: nat)
    requires Exec(cfg, INIT, run).Some? && c in Exec(cfg, INIT, run).value.calls
    ensures i < |run| && run[i] == Arrive(c, Exec(cfg, INIT, run).value.calls[c].op)
  {
    hide Move;
    var before, l := run[..|run| - 1], run[|run| - 1];
    var mid := Exec(cfg, INIT, before).value;
    if c in mid.calls {
      i := CallArrived(cfg, before, c);
      if c == l.c {
        MoveKeepsOp(cfg, mid, c, l, Exec(cfg, INIT, run).value.calls[c]);
      }
    } else {
      i := |run| - 1;
    }
  }

  /** And every call that came in is still there at the end. */
  lemma ArrivalsStay(cfg: Config, run: seq<Label>, i: nat)
    requires Lawful(cfg) && i < |run| && run[i].Arrive? && Exec(cfg, INIT, run).Some?
    ensures run[i].c in Exec(cfg, INIT, run).value.calls
    ensures Exec(cfg, INIT, run).value.calls[run[i].c].op == run[i].op
  {
    PrefixRuns(cfg, run, i + 1);
    var mid := Exec(cfg, INIT, run[..i + 1]).value;
    assert run[..i + 1][..i] == run[..i] && run[..i + 1][i] == run[i];
    assert run[i].c in mid.calls && mid.calls[run[i].c].op == run[i].op;
    hide Exec, Step, Move;
    InitHolds(cfg);
    RunKeeps(cfg, INIT, run[..i + 1]);
    RunRemembers(cfg, mid, run[i + 1..]);
  }

  lemma {:induction false} PrefixRuns(cfg: Config, run: seq<Label>, k: nat)
    requires k <= |run| && Exec(cfg, INIT, run).Some?
    ensures Exec(cfg, INIT, run[..k]).Some?
    ensures Exec(cfg, Exec(cfg, INIT, run[..k]).value, run[k..]) == Exec(cfg, INIT, run)
    decreases |run|
  {
    hide Step;
    if k == |run| {
      assert run[..k] == run && run[k..] == [];
    } else {
      var before := run[..|run| - 1];
      PrefixRuns(cfg, before, k);
      assert before[..k] == run[..k];
      assert run[k..][..|run[k..]| - 1] == before[k..];
    }
  }

  /** What a committed snapshot said about a wallet's owner stays true in every later state of the run. */
  lemma OwnersAreForEver(cfg: Config, run: seq<Label>, k: nat, w: nat)
    requires Lawful(cfg) && k <= |run| && Exec(cfg, INIT, run).Some? && Exec(cfg, INIT, run[..k]).Some?
    requires w in TablesAt(cfg, run, k).wallets
    ensures var db := Exec(cfg, INIT, run).value.db;
      w in db.wallets && db.wallets[w].owner == TablesAt(cfg, run, k).wallets[w].owner
  {
    PrefixRuns(cfg, run, k);
    InitHolds(cfg);
    RunKeeps(cfg, INIT, run[..k]);
    RunRemembers(cfg, Exec(cfg, INIT, run[..k]).value, run[k..]);
  }

  /**
   Every transfer committed through the API was requested by the owner of its source wallet, although the
   check ran before the transaction on reads that may have been stale.
   */
  lemma OnlyOwnersPay(cfg: Config, run: seq<Label>, t: nat)
    requires Lawful(cfg) && Exec(cfg, INIT, run).Some? && Gated(cfg, run)
    requires t in Exec(cfg, INIT, run).value.db.transfers
    ensures var db := Exec(cfg, INIT, run).value.db;
      && db.transfers[t].from in db.wallets
      && db.wallets[db.transfers[t].from].owner == db.transfers[t].key.requester
  {
    var s := Exec(cfg, INIT, run).value;
    assert Reachable(cfg, s);
    CommittedTransfer(cfg, s, t);
    var req := s.calls[t].op.req;
    var i := CallArrived(cfg, run, t);
    assert Passed(cfg, run, i, req);
    hide Reachable, Exec, Lawful, Records, Gated;
    OwnerAtTheGate(cfg, run, i, req, s);
    assert From(cfg, req) == s.db.transfers[t].from && req.requester == s.db.transfers[t].key.requester by {
      RecordsSay(cfg, req, s.db.transfers[t]);
    }
  }

  /** And it is the transfer that was asked for: the body that passed the gate, field by field, by the user who sent it. */
  lemma PaidAsAsked(cfg: Config, run: seq<Label>, t: nat) returns (user: nat, body: Body, i: nat, j: nat, k: nat)
    requires Lawful(cfg) && Exec(cfg, INIT, run).Some? && Gated(cfg, run)
    requires t in Exec(cfg, INIT, run).value.db.transfers
    ensures i < |run| && run[i].Arrive? && run[i].c == t && run[i].op.Transferring?
    ensures PassedAt(cfg, run, i, run[i].op.req, user, body, j, k)
    ensures var row := Exec(cfg, INIT, run).value.db.transfers[t];
      && row.key.requester == user && row.key.idem == body.idem
      && cfg.parse(body.from) == Some(row.from) && cfg.parse(body.to) == Some(row.to)
      && body.amount == Some(row.amount)
  {
    var s := Exec(cfg, INIT, run).value;
    assert Reachable(cfg, s);
    CommittedTransfer(cfg, s, t);
    var req := s.calls[t].op.req;
    i := CallArrived(cfg, run, t);
    assert Passed(cfg, run, i, req);
    user, body, j, k :| PassedAt(cfg, run, i, req, user, body, j, k);
    hide Reachable, Exec, Lawful, Gated, Admits, Fingerprint;
  }

  lemma RecordsSay(cfg: Config, req: Request, t: Transfer)
    requires Records(cfg, req, t)
    ensures From(cfg, req) == t.from && req.requester == t.key.requester
  {
  }

  lemma OwnerAtTheGate(cfg: Config, run: seq<Label>, i: nat, req: Request, s: State)
    requires Lawful(cfg) && Exec(cfg, INIT, run) == Some(s) && Passed(cfg, run, i, req)
    ensures From(cfg, req) in s.db.wallets && s.db.wallets[From(cfg, req)].owner == req.requester
  {
    var user, body, j: nat, k: nat :| PassedAt(cfg, run, i, req, user, body, j, k);
    hide Lawful, IsBlank;
    OwnersAreForEver(cfg, run, j, From(cfg, req));
  }

  // ---------------------------------------------------------------------------
  // What is left for the store to refuse
  // ---------------------------------------------------------------------------

  /** What admission has established, for good: both texts name wallets, and the requester is a user. */
  predicate Vetted(cfg: Config, db: Tables, req: Request) {
    && cfg.parse(req.from).Some? && cfg.parse(req.to).Some? && req.amount > 0 && req.from != req.to
    && RowsExist(db, From(cfg, req), To(cfg, req), req.requester)
  }

  /** The errors an admitted transfer may still end in, by whether its two texts name one wallet. */
  predicate LeftToTheStore(cfg: Config, req: Request, e: Error) {
    e.Other? || e.RetriesExhausted? ||
    if From(cfg, req) == To(cfg, req) then e.CheckViolation?
    else e.IdempotencyConflict? || e.Overflow? || e.CommitUnknown?
  }

  lemma PassedIsVetted(cfg: Config, run: seq<Label>, i: nat, req: Request, s: State)
    requires Lawful(cfg) && Exec(cfg, INIT, run) == Some(s) && Passed(cfg, run, i, req)
    ensures Vetted(cfg, s.db, req)
  {
    var user, body, j: nat, k: nat :| PassedAt(cfg, run, i, req, user, body, j, k);
    OwnersAreForEver(cfg, run, j, From(cfg, req));
    OwnersAreForEver(cfg, run, k, To(cfg, req));
    OwnerAtTheGate(cfg, run, i, req, s);
    assert Reachable(cfg, s);
    ReachableKeeps(cfg, s);
    hide Exec, Reachable, CallInv, Apart, Authored, Unique, DoubleEntry, Explained, IsBlank, ByteLength, Lawful, Passed;
  }

  lemma IsNext(cfg: Config, s: State, l: Label)
    requires l.c in s.calls && s.calls[l.c].op.Transferring? && Step(cfg, s, l).Some?
    requires !l.Arrive? && !l.Commit? && !l.Abort? && !l.Replay?
    ensures Next(cfg, s.calls[l.c], l)
  {
    hide Free, Unclaimed, Taken, ForeignRows, Exists, WriteBalance, MoveInsertTransfer;
  }

  lemma VettedFails(cfg: Config, db: Tables, req: Request, e: Error)
    requires Vetted(cfg, db, req) && Answers(cfg, db, Transferring(req), Failed(e))
    ensures LeftToTheStore(cfg, req, e)
  {
    hide Taken, StoredAsAsked, Payable;
  }

  lemma LateIsValid(cfg: Config, s: State, c: nat)
    requires Lawful(cfg) && Reachable(cfg, s) && c in s.calls && s.calls[c].op.Transferring? && s.calls[c].pc == Committing
    ensures ValidRequest(cfg, s.calls[c].op.req) && s.calls[c].result.Some? && s.calls[c].result.value.TransferOk?
  {
    ReachableKeeps(cfg, s);
    hide Reachable, Lawful, Sound, Authored, Apart, OutcomeInv, Provenance, Effect, Taken, TransferReads, TransferLocks,
      TransferWrites;
    assert CallInv(cfg, s.db, c, s.calls[c]);
  }

  /** The step in which an admitted transfer fails. */
  lemma StepFailsAsLeft(cfg: Config, s: State, l: Label, req: Request, e: Error)
    requires Lawful(cfg) && Reachable(cfg, s) && Asked(s, l.c, req) && Vetted(cfg, s.db, req)
    requires Step(cfg, s, l).Some? && Finished(Step(cfg, s, l).value, l.c, Failed(e))
    ensures LeftToTheStore(cfg, req, e)
  {
    hide Reachable, Lawful, Vetted, Answers;
    if l.Commit? {
      LateIsValid(cfg, s, l.c);
    } else if l.Replay? {
      ReplayingHolds(cfg, s, l.c, req);
    } else if !l.Abort? {
      IsNext(cfg, s, l);
      StepIsDue(cfg, s, l);
      VettedFails(cfg, s.db, req, e);
    }
  }

  /** A shorter run is gated if the longer one is. */
  lemma GatedBefore(cfg: Config, run: seq<Label>)
    requires run != [] && Gated(cfg, run)
    ensures Gated(cfg, run[..|run| - 1])
  {
    var before := run[..|run| - 1];
    forall i | 0 <= i < |before| && before[i].Arrive? && before[i].op.Transferring?
      ensures Passed(cfg, before, i, before[i].op.req)
    {
      var req := run[i].op.req;
      assert Passed(cfg, run, i, req);
      var user, body, j: nat, k: nat :| PassedAt(cfg, run, i, req, user, body, j, k);
      assert before[..j] == run[..j] && before[..k] == run[..k];
      assert PassedAt(cfg, before, i, req, user, body, j, k);
    }
  }

  /**
   A transfer that came in through the API is never told that a wallet is missing, that its wallets are the same or that
   its key's row is not there; it violates a CHECK only if its two texts name one wallet, and then it gets no document.
   */
  lemma {:induction false} AdmittedErrors(cfg: Config, run: seq<Label>, s: State, c: nat, req: Request, outcome: Outcome)
    requires Lawful(cfg) && Exec(cfg, INIT, run) == Some(s) && Gated(cfg, run)
    requires Asked(s, c, req) && Finished(s, c, outcome)
    ensures outcome.Failed? ==> LeftToTheStore(cfg, req, outcome.error)
    ensures From(cfg, req) == To(cfg, req) ==> outcome.Failed?
  {
    assert Reachable(cfg, s);
    if outcome.Failed? {
      var before, l := run[..|run| - 1], run[|run| - 1];
      var mid := Exec(cfg, INIT, before).value;
      assert Reachable(cfg, mid);
      GatedBefore(cfg, run);
      hide Gated, Reachable, Lawful, Move, LeftToTheStore;
      if l.c == c {
        assert c in mid.calls;
        MoveKeepsOp(cfg, mid, c, l, s.calls[c]);
        var i := CallArrived(cfg, before, c);
        assert Passed(cfg, before, i, req) by { GatedAt(cfg, before, i); }
        PassedIsVetted(cfg, before, i, req, mid);
        StepFailsAsLeft(cfg, mid, l, req, outcome.error);
      } else {
        AdmittedErrors(cfg, before, mid, c, req, outcome);
      }
    } else {
      DoneHolds(cfg, s, c);
      hide Reachable, Lawful, Exec, Gated;
    }
  }

  lemma GatedAt(cfg: Config, run: seq<Label>, i: nat)
    requires Gated(cfg, run) && i < |run| && run[i].Arrive? && run[i].op.Transferring?
    ensures Passed(cfg, run, i, run[i].op.req)
  {
  }
}
