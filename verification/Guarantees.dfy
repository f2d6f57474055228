/** The service's promises about keys, replays and errors, over every reachable state. */
module Guarantees {
  import opened Tables
  import opened Text
  import opened Protocol
  import opened Invariant
  import opened Landing
  import opened CommitStep
  import opened History

  predicate Finished(s: State, c: nat, outcome: Outcome) {
    c in s.calls && s.calls[c].pc == Done(outcome)
  }

  /** Call `c` asked for a transfer. */
  predicate Asked(s: State, c: nat, req: Request) {
    c in s.calls && s.calls[c].op == Transferring(req)
  }

  lemma DoneHolds(cfg: Config, s: State, c: nat)
    requires Lawful(cfg) && Reachable(cfg, s) && c in s.calls && s.calls[c].pc.Done?
    ensures OutcomeInv(cfg, s.db, c, s.calls[c].op, s.calls[c].pc.outcome) && s.calls[c].tx == NO_TX
    ensures Provenance(cfg, s.db, c, s.calls[c].op)
  {
    ReachableKeeps(cfg, s);
    hide Reachable, Sound, Authored, Apart, OutcomeInv, Effect, Taken, Provenance, TransferInv, MintInv, UserInv, WalletInv;
    assert CallInv(cfg, s.db, c, s.calls[c]);
  }

  lemma RunningHolds(cfg: Config, s: State, c: nat)
    requires Lawful(cfg) && Reachable(cfg, s) && c in s.calls && !s.calls[c].pc.Done?
    ensures !Effect(s.db, c)
  {
    ReachableKeeps(cfg, s);
    hide Reachable, Sound, Authored, Apart, OutcomeInv, Effect, Taken, Provenance, TransferInv, MintInv, UserInv, WalletInv;
    assert CallInv(cfg, s.db, c, s.calls[c]);
  }

  lemma AuthorHolds(cfg: Config, s: State, c: nat)
    requires Lawful(cfg) && Reachable(cfg, s) && Effect(s.db, c)
    ensures c in s.calls && s.calls[c].pc.Done?
  {
    ReachableKeeps(cfg, s);
    hide Sound, Apart, CallInv, Effect;
    if c in s.calls && !s.calls[c].pc.Done? {
      RunningHolds(cfg, s, c);
    }
  }

  lemma NoRowNoEntries(cfg: Config, s: State, c: nat)
    requires Lawful(cfg) && Reachable(cfg, s) && !Effect(s.db, c)
    ensures EntriesOf(s.db.ledger, c) == []
  {
    ReachableKeeps(cfg, s);
    hide CallInv, Apart, Authored, Reachable, Unique, References, Explained;
    assert c !in s.db.transfers;
  }

  /**
   A committed transfer: its author's call is over, asked exactly this, and was either told so or told
   that its commit is uncertain; the row is terminal; its ledger rows are its debit and credit, or none.
   */
  lemma CommittedTransfer(cfg: Config, s: State, t: nat)
    requires Lawful(cfg) && Reachable(cfg, s) && t in s.db.transfers
    ensures Terminal(s.db.transfers[t])
    ensures s.db.transfers[t].completedAt == Some(s.db.transfers[t].createdAt)
    ensures s.db.transfers[t].reason ==
      if s.db.transfers[t].status == Declined then Some("insufficient_funds") else None
    ensures t in s.calls && s.calls[t].op.Transferring? && Records(cfg, s.calls[t].op.req, s.db.transfers[t])
    ensures
      || Finished(s, t, TransferOk(OwnDoc(t, s.calls[t].op.req, s.db.transfers[t]), false))
      || Finished(s, t, Failed(CommitUnknown))
    ensures EntriesOf(s.db.ledger, t) ==
      if s.db.transfers[t].status == Succeeded
      then Pair(t, s.db.transfers[t].from, s.db.transfers[t].to, s.db.transfers[t].amount)
      else []
  {
    hide Reachable, Records, Pair, Terminal, Lawful, OwnDoc;
    CommittedAuthor(cfg, s, t);
    CommittedRow(cfg, s, t);
    ReasonIsGiven(s.db.transfers[t]);
  }

  lemma ReasonIsGiven(t: Transfer)
    requires Terminal(t)
    ensures t.completedAt == Some(t.createdAt) && t.status != Pending
    ensures t.reason == if t.status == Declined then Some("insufficient_funds") else None
  {
  }

  lemma CommittedAuthor(cfg: Config, s: State, t: nat)
    requires Lawful(cfg) && Reachable(cfg, s) && t in s.db.transfers
    ensures t in s.calls && s.calls[t].op.Transferring? && Records(cfg, s.calls[t].op.req, s.db.transfers[t])
    ensures
      || Finished(s, t, TransferOk(OwnDoc(t, s.calls[t].op.req, s.db.transfers[t]), false))
      || Finished(s, t, Failed(CommitUnknown))
  {
    hide Reachable, Records, Lawful, OwnDoc;
    AuthorHolds(cfg, s, t);
    DoneHolds(cfg, s, t);
  }

  lemma CommittedRow(cfg: Config, s: State, t: nat)
    requires Lawful(cfg) && Reachable(cfg, s) && t in s.db.transfers
    ensures Terminal(s.db.transfers[t])
    ensures EntriesOf(s.db.ledger, t) ==
      if s.db.transfers[t].status == Succeeded
      then Pair(t, s.db.transfers[t].from, s.db.transfers[t].to, s.db.transfers[t].amount)
      else []
  {
    ReachableKeeps(cfg, s);
    hide CallInv, Apart, Authored, Reachable, Unique, References, Explained, Terminal;
  }

  /** At most one committed transfer for each requester and key. */
  lemma OneTransferPerKey(cfg: Config, s: State, i: nat, j: nat)
    requires Lawful(cfg) && Reachable(cfg, s)
    requires i in s.db.transfers && j in s.db.transfers && s.db.transfers[i].key == s.db.transfers[j].key
    ensures i == j
  {
    ReachableKeeps(cfg, s);
  }

  /** What a finished transfer call was told is what the table says. */
  lemma TransferAnswer(cfg: Config, s: State, c: nat, req: Request, doc: Doc, replay: bool)
    requires Lawful(cfg) && Reachable(cfg, s)
    requires Asked(s, c, req) && Finished(s, c, TransferOk(doc, replay))
    ensures ValidRequest(cfg, req)
    ensures doc.id in s.db.transfers && s.db.transfers[doc.id].key == KeyOf(req)
    ensures s.db.transfers[doc.id].fingerprint == Fingerprint(req.from, req.to, req.amount)
    ensures if replay then doc == StoredDoc(cfg, doc.id, s.db.transfers[doc.id]) && c !in s.db.transfers
            else doc.id == c && doc == OwnDoc(c, req, s.db.transfers[c])
    ensures Id(cfg, req.from) == s.db.transfers[doc.id].from && Id(cfg, req.to) == s.db.transfers[doc.id].to
    ensures s.db.transfers[doc.id].amount == req.amount == doc.amount && doc.idem == req.idem
    ensures doc.status == s.db.transfers[doc.id].status && doc.reason == s.db.transfers[doc.id].reason
    ensures doc.createdAt == s.db.transfers[doc.id].createdAt && doc.completedAt == s.db.transfers[doc.id].completedAt
    ensures Id(cfg, doc.from) == Id(cfg, req.from) && Id(cfg, doc.to) == Id(cfg, req.to)
  {
    DoneHolds(cfg, s, c);
    hide Reachable, Fingerprint;
    if replay {
      SameMeaning(cfg, s, doc.id, req);
    }
  }

  /** Two requests ask to move the same amount between the same two ids, letter by letter. */
  predicate SameBody(r: Request, q: Request) {
    r.from == q.from && r.to == q.to && r.amount == q.amount
  }

  /** Equal fingerprints mean equal requests: the stored row was written for this very request. */
  lemma SameMeaning(cfg: Config, s: State, t: nat, req: Request)
    requires Lawful(cfg) && Reachable(cfg, s) && t in s.db.transfers && ValidRequest(cfg, req)
    ensures t in s.calls && s.calls[t].op.Transferring? && Records(cfg, s.calls[t].op.req, s.db.transfers[t])
    ensures s.db.transfers[t].fingerprint == Fingerprint(req.from, req.to, req.amount)
       <==> SameBody(s.calls[t].op.req, req)
  {
    CommittedTransfer(cfg, s, t);
    hide Reachable, Fingerprint;
    var author := s.calls[t].op.req;
    FingerprintIsInjective(author.from, author.to, author.amount, req.from, req.to, req.amount);
  }

  /** Exactly once: among all calls with one key, at most one is told that it did the work. */
  lemma OneFreshAnswer(cfg: Config, s: State, c: nat, d: nat, r: Request, q: Request, doc: Doc, doc': Doc)
    requires Lawful(cfg) && Reachable(cfg, s)
    requires Asked(s, c, r) && Asked(s, d, q) && KeyOf(r) == KeyOf(q)
    requires Finished(s, c, TransferOk(doc, false)) && Finished(s, d, TransferOk(doc', false))
    ensures c == d
  {
    TransferAnswer(cfg, s, c, r, doc, false);
    TransferAnswer(cfg, s, d, q, doc', false);
    OneTransferPerKey(cfg, s, c, d);
  }

  /**
   A replay returns the first answer, up to the spelling of the wallet ids; it is the identical document,
   completion time included, exactly when the request used canonical ids.
   */
  lemma ReplayIsTheFirstAnswer(cfg: Config, s: State, c: nat, d: nat, r: Request, q: Request, first: Doc, again: Doc)
    requires Lawful(cfg) && Reachable(cfg, s)
    requires Asked(s, c, r) && Asked(s, d, q) && KeyOf(r) == KeyOf(q)
    requires Finished(s, c, TransferOk(first, false)) && Finished(s, d, TransferOk(again, true))
    ensures q == r
    ensures again == first.(from := cfg.canon(From(cfg, r)), to := cfg.canon(To(cfg, r)))
    ensures again == first <==> Canonical(cfg, r.from) && Canonical(cfg, r.to)
  {
    TransferAnswer(cfg, s, c, r, first, false);
    TransferAnswer(cfg, s, d, q, again, true);
    OneTransferPerKey(cfg, s, first.id, again.id);
    hide Reachable, Fingerprint;
    FingerprintIsInjective(r.from, r.to, r.amount, q.from, q.to, q.amount);
  }

  /** All replays of a key return one document, whenever they happen. */
  lemma ReplaysAgree(cfg: Config, s: State, c: nat, d: nat, r: Request, q: Request, doc: Doc, doc': Doc)
    requires Lawful(cfg) && Reachable(cfg, s)
    requires Asked(s, c, r) && Asked(s, d, q) && KeyOf(r) == KeyOf(q)
    requires Finished(s, c, TransferOk(doc, true)) && Finished(s, d, TransferOk(doc', true))
    ensures doc == doc'
  {
    TransferAnswer(cfg, s, c, r, doc, true);
    TransferAnswer(cfg, s, d, q, doc', true);
    OneTransferPerKey(cfg, s, doc.id, doc'.id);
  }

  /** What a finished mint was told: the wallet it named, and whether its own row is the one under its key. */
  lemma MintAnswer(cfg: Config, s: State, c: nat, wallet: string, idem: string, amount: int, doc: WalletDoc, applied: bool)
    requires Lawful(cfg) && Reachable(cfg, s)
    requires c in s.calls && s.calls[c].op == Minting(wallet, idem, amount) && Finished(s, c, MintOk(doc, applied))
    ensures doc.id == Id(cfg, wallet) && doc.id in s.db.wallets && doc.owner == s.db.wallets[doc.id].owner
    ensures doc.createdAt == s.db.wallets[doc.id].createdAt
    ensures applied <==> Mint(c, idem, Id(cfg, wallet), amount) in s.db.mints
    ensures applied <==> Effect(s.db, c)
  {
    DoneHolds(cfg, s, c);
    hide Reachable, Id;
    if Mint(c, idem, Id(cfg, wallet), amount) in s.db.mints {
      var i :| 0 <= i < |s.db.mints| && s.db.mints[i] == Mint(c, idem, Id(cfg, wallet), amount);
      assert s.db.mints[i].id == c;
    }
  }

  /** A mint's key is used once: of all calls that reuse it, at most one is told that it added money. */
  lemma OneFreshMint(cfg: Config, s: State, c: nat, d: nat, idem: string, doc: WalletDoc, doc': WalletDoc)
    requires Lawful(cfg) && Reachable(cfg, s)
    requires c in s.calls && s.calls[c].op.Minting? && s.calls[c].op.idem == idem && Finished(s, c, MintOk(doc, true))
    requires d in s.calls && s.calls[d].op.Minting? && s.calls[d].op.idem == idem && Finished(s, d, MintOk(doc', true))
    ensures c == d
  {
    MintAnswer(cfg, s, c, s.calls[c].op.wallet, idem, s.calls[c].op.amount, doc, true);
    MintAnswer(cfg, s, d, s.calls[d].op.wallet, idem, s.calls[d].op.amount, doc', true);
    ReachableKeeps(cfg, s);
    hide CallInv, Apart, Authored, Reachable, References, DoubleEntry, Explained, Effect;
  }

  /** Whoever loses the race for a key finds a committed, terminal row: "not found" cannot happen. */
  lemma LoserFindsTheWinner(cfg: Config, s: State, c: nat, req: Request) returns (t: nat)
    requires Lawful(cfg) && Reachable(cfg, s)
    requires Asked(s, c, req) && s.calls[c].pc == Replaying
    ensures Step(cfg, s, Replay(c, None)).None?
    ensures t in s.db.transfers && s.db.transfers[t].key == KeyOf(req) && Terminal(s.db.transfers[t])
    ensures Step(cfg, s, Replay(c, Some(t))).Some?
  {
    ReplayingHolds(cfg, s, c, req);
    t :| t in s.db.transfers && s.db.transfers[t].key == KeyOf(req);
    CommittedRow(cfg, s, t);
    hide Reachable;
  }

  lemma ReplayingHolds(cfg: Config, s: State, c: nat, req: Request)
    requires Lawful(cfg) && Reachable(cfg, s)
    requires Asked(s, c, req) && s.calls[c].pc == Replaying
    ensures Taken(s.db, TransferKey(KeyOf(req))) && ValidRequest(cfg, req)
  {
    ReachableKeeps(cfg, s);
    hide Reachable, Sound, Authored, Apart, OutcomeInv, Effect, Taken, Records;
    assert CallInv(cfg, s.db, c, s.calls[c]);
  }

  /** A reused key is answered with the stored outcome if the request is the same, and refused otherwise. */
  lemma ReplayDecides(cfg: Config, s: State, c: nat, req: Request, t: nat)
    requires Lawful(cfg) && Reachable(cfg, s) && Asked(s, c, req)
    requires Step(cfg, s, Replay(c, Some(t))).Some?
    ensures t in s.db.transfers && t in s.calls && s.calls[t].op.Transferring?
    ensures Step(cfg, s, Replay(c, Some(t))).value.calls[c].pc == Done(
      if SameBody(s.calls[t].op.req, req) then TransferOk(StoredDoc(cfg, t, s.db.transfers[t]), true)
      else Failed(IdempotencyConflict))
  {
    ReplayingHolds(cfg, s, c, req);
    SameMeaning(cfg, s, t, req);
    hide Reachable, Taken, Records, Fingerprint, SameBody;
  }

  /** An error that is not an uncertain commit leaves nothing behind: no row, no claim, no lock. */
  lemma ErrorLeavesNothing(cfg: Config, s: State, c: nat, e: Error)
    requires Lawful(cfg) && Reachable(cfg, s)
    requires Finished(s, c, Failed(e)) && e != CommitUnknown
    ensures !Effect(s.db, c) && EntriesOf(s.db.ledger, c) == []
    ensures s.calls[c].tx == NO_TX
  {
    DoneHolds(cfg, s, c);
    NoRowNoEntries(cfg, s, c);
  }

  /** Neither has a call that is still running touched the tables, whatever part of its body has run. */
  lemma RunningCallIsInvisible(cfg: Config, s: State, c: nat)
    requires Lawful(cfg) && Reachable(cfg, s)
    requires c in s.calls && !s.calls[c].pc.Done?
    ensures !Effect(s.db, c) && EntriesOf(s.db.ledger, c) == []
  {
    RunningHolds(cfg, s, c);
    NoRowNoEntries(cfg, s, c);
  }

  /**
   The second and third overdraft layers never act: the conditional debit always matches, and a CHECK
   fires only on a request the schema forbids outright.
   */
  lemma BackstopsNeverFire(cfg: Config, s: State, c: nat, e: Error)
    requires Lawful(cfg) && Reachable(cfg, s) && Finished(s, c, Failed(e))
    ensures e != DebitLost && e != TransferNotFound
    ensures e == CheckViolation ==>
      || (s.calls[c].op.Transferring? && !ValidRequest(cfg, s.calls[c].op.req))
      || (s.calls[c].op.Minting? && s.calls[c].op.amount <= 0)
  {
    DoneHolds(cfg, s, c);
  }

  /** The call is in its batch, past a debit that matched no row. */
  predicate Missed(s: State, c: nat, req: Request, pc: PC) {
    Asked(s, c, req) && s.calls[c].pc == pc && s.calls[c].tx.debited == 0
  }

  lemma DebitMisses(cfg: Config, s: State, s': State, c: nat, req: Request)
    requires Asked(s, c, req) && s.calls[c].pc == Debiting && Step(cfg, s, Debit(c)) == Some(s')
    requires From(cfg, req) !in s.db.wallets || Current(s.db, s.calls[c].tx, From(cfg, req)) < req.amount
    ensures Missed(s', c, req, Crediting) && s'.db == s.db
  {
    hide Current, Apply, WriteBalance;
  }

  lemma CreditCarriesTheMiss(cfg: Config, s: State, s': State, c: nat, req: Request)
    requires Missed(s, c, req, Crediting) && Step(cfg, s, Credit(c)) == Some(s')
    ensures s'.db == s.db && Asked(s', c, req) && (s'.calls[c].pc.Done? || Missed(s', c, req, Booking))
  {
    hide Free, Acquire, Current, Apply;
  }

  lemma BatchCarriesTheMiss(cfg: Config, s: State, s': State, s'': State, c: nat, req: Request)
    requires Asked(s, c, req) && (s.calls[c].pc.Done? || Missed(s, c, req, Booking))
    requires Step(cfg, s, Book(c)) == Some(s') && Step(cfg, s', Complete(c)) == Some(s'')
    ensures s''.db == s.db && Missed(s'', c, req, Inspecting)
  {
    hide Apply, Pair;
  }

  lemma InspectFindsTheMiss(cfg: Config, s: State, s': State, c: nat, req: Request)
    requires Missed(s, c, req, Inspecting) && Step(cfg, s, Inspect(c)) == Some(s')
    ensures Finished(s', c, Failed(DebitLost)) && s'.db == s.db
  {
    hide Apply;
  }

  /**
   The second layer, were it ever needed: in any state whatever, a debit whose predicate fails lets the server run the
   credit and the ledger rows of the pipelined batch, and the call still ends in an error with no table touched.
   */
  lemma LostDebitMovesNothing(
    cfg: Config, s0: State, s1: State, s2: State, s3: State, s4: State, s5: State, c: nat, req: Request)
    requires Asked(s0, c, req) && s0.calls[c].pc == Debiting
    requires From(cfg, req) !in s0.db.wallets || Current(s0.db, s0.calls[c].tx, From(cfg, req)) < req.amount
    requires Step(cfg, s0, Debit(c)) == Some(s1) && Step(cfg, s1, Credit(c)) == Some(s2)
    requires Step(cfg, s2, Book(c)) == Some(s3) && Step(cfg, s3, Complete(c)) == Some(s4)
    requires Step(cfg, s4, Inspect(c)) == Some(s5)
    ensures Finished(s5, c, Failed(DebitLost)) && s5.db == s0.db
  {
    hide Step, Current, Missed;
    DebitMisses(cfg, s0, s1, c, req);
    CreditCarriesTheMiss(cfg, s1, s2, c, req);
    BatchCarriesTheMiss(cfg, s2, s3, s4, c, req);
    InspectFindsTheMiss(cfg, s4, s5, c, req);
  }

  /** The decision is made on balances that are still the committed ones when the transaction commits. */
  lemma DecisionHoldsAtCommit(cfg: Config, s: State, c: nat, req: Request)
    requires Lawful(cfg) && Reachable(cfg, s)
    requires Asked(s, c, req) && s.calls[c].pc == Committing
    ensures s.calls[c].tx.writes.transfer.Some?
    ensures s.calls[c].tx.writes.transfer.value.status ==
      if Canonical(cfg, req.from) && Balance(s.db, From(cfg, req)) >= req.amount then Succeeded else Declined
  {
    ReachableKeeps(cfg, s);
    assert CallInv(cfg, s.db, c, s.calls[c]);
    hide Reachable, Lawful, Sound, Apart, Authored, CallInv;
    StatusAtCommit(cfg, s.db, c, s.calls[c]);
  }

  lemma StatusAtCommit(cfg: Config, db: Tables, c: nat, call: Call)
    requires call.op.Transferring? && CallInv(cfg, db, c, call) && call.pc == Committing
    ensures call.tx.writes.transfer.Some?
    ensures call.tx.writes.transfer.value.status == if Payable(cfg, db, call.op.req) then Succeeded else Declined
  {
    hide OutcomeInv, Provenance, Effect, Taken, TransferLocks, TransferReads, Payable, MintInv, UserInv, WalletInv;
  }

  /** Once given, an answer stays for ever, and so does every committed row: only balances still change. */
  lemma AnswersAreFinal(cfg: Config, s: State, run: seq<Label>, c: nat, outcome: Outcome)
    requires Lawful(cfg) && Reachable(cfg, s) && Exec(cfg, s, run).Some?
    requires Finished(s, c, outcome)
    ensures var s' := Exec(cfg, s, run).value;
      Finished(s', c, outcome) && Grows(s.db, s'.db)
  {
    ReachableKeeps(cfg, s);
    RunRemembers(cfg, s, run);
  }

  /**
   First use of a token or of a wallet, raced by any number of calls: all answered calls name one user, and
   for one user one wallet; at most one of them is told it created the wallet, and that one did.
   */
  lemma OneUserPerToken(cfg: Config, s: State, c: nat, d: nat, token: string, u: nat, v: nat)
    requires Lawful(cfg) && Reachable(cfg, s)
    requires c in s.calls && d in s.calls && s.calls[c].op == ResolvingUser(token) == s.calls[d].op
    requires Finished(s, c, UserOk(u)) && Finished(s, d, UserOk(v))
    ensures u == v && u in s.db.users && s.db.users[u] == token
  {
    ReachableKeeps(cfg, s);
    DoneHolds(cfg, s, c);
    DoneHolds(cfg, s, d);
    hide CallInv, References, DoubleEntry, Explained, Apart, Authored, Reachable;
  }

  lemma OneWalletPerUser(
    cfg: Config, s: State, c: nat, d: nat, user: nat, w: WalletDoc, v: WalletDoc, created: bool, created': bool)
    requires Lawful(cfg) && Reachable(cfg, s)
    requires c in s.calls && d in s.calls && s.calls[c].op == OpeningWallet(user) == s.calls[d].op
    requires Finished(s, c, WalletOk(w, created)) && Finished(s, d, WalletOk(v, created'))
    ensures w.id == v.id && w.id in s.db.wallets && s.db.wallets[w.id].owner == user == w.owner == v.owner
    ensures w.createdAt == v.createdAt == s.db.wallets[w.id].createdAt
    ensures created && created' ==> c == d
    ensures created <==> w.id == c
  {
    ReachableKeeps(cfg, s);
    DoneHolds(cfg, s, c);
    DoneHolds(cfg, s, d);
    hide CallInv, References, DoubleEntry, Explained, Apart, Authored, Reachable;
  }

  /** The upserts are single statements outside `inTx`: tried once, and failing only for reasons of the database's own. */
  lemma UpsertsTryOnce(cfg: Config, s: State, c: nat)
    requires Lawful(cfg) && Reachable(cfg, s) && c in s.calls
    requires s.calls[c].op.ResolvingUser? || s.calls[c].op.OpeningWallet?
    ensures s.calls[c].attempt == 0
    ensures s.calls[c].pc.Done? && s.calls[c].pc.outcome.Failed? ==>
      s.calls[c].pc.outcome.error == Other || s.calls[c].pc.outcome.error == CommitUnknown
  {
    ReachableKeeps(cfg, s);
    hide Reachable, Sound, Authored, Apart, Effect, Taken, Provenance, TransferInv, MintInv, UserInv, WalletInv;
    assert CallInv(cfg, s.db, c, s.calls[c]);
  }

  /** The wallet of an answered call was created by a get-or-create of the same user, which was told so or is uncertain. */
  lemma SomeoneCreatedIt(cfg: Config, s: State, c: nat, user: nat, w: WalletDoc, created: bool)
    requires Lawful(cfg) && Reachable(cfg, s)
    requires c in s.calls && s.calls[c].op == OpeningWallet(user) && Finished(s, c, WalletOk(w, created))
    ensures w.id in s.calls && s.calls[w.id].pc.Done? && s.calls[w.id].op == OpeningWallet(user)
    ensures s.calls[w.id].pc.outcome.WalletOk? || s.calls[w.id].pc.outcome == Failed(CommitUnknown)
    ensures s.calls[w.id].pc.outcome.WalletOk? ==> s.calls[w.id].pc.outcome.created
  {
    DoneHolds(cfg, s, c);
    assert w.id in s.db.wallets;
    AuthorHolds(cfg, s, w.id);
    DoneHolds(cfg, s, w.id);
    hide Reachable;
  }
}
