/**
 The live log: a viewer is shown a snapshot of the ring and then the tail of its subscription, while
 writers, other viewers and disconnects interleave. Lines are named by their position in the history.
 */
module LogStream {
  import opened Tables
  import R = Ring

  // ---------------------------------------------------------------------------
  // The handler's own loop
  // ---------------------------------------------------------------------------

  /** What the handler's select sees next. */
  datatype Signal = Received(line: string) | Tick | Closed | Disconnected

  /** The lines that are well-formed JSON. */
  function Kept(lines: seq<string>, valid: string -> bool): seq<string> {
    if lines == [] then []
    else Kept(lines[..|lines| - 1], valid) + if valid(lines[|lines| - 1]) then [lines[|lines| - 1]] else []
  }

  /** The lines received before the stream ends. */
  function Tail(signals: seq<Signal>): seq<string> {
    if signals == [] || signals[0].Closed? || signals[0].Disconnected? then []
    else (if signals[0].Received? then [signals[0].line] else []) + Tail(signals[1..])
  }

  /**
   What each signal does, wherever it comes: a line is printed and the stream goes on, a heartbeat prints no line and the
   stream goes on, a closed channel or a disconnected viewer ends it.
   */
  lemma {:induction false} SignalDecides(before: seq<Signal>, x: Signal, after: seq<Signal>)
    requires forall i | 0 <= i < |before| :: before[i].Received? || before[i].Tick?
    ensures Tail(before + [x] + after) == Tail(before) +
      match x
      case Received(line) => [line] + Tail(after)
      case Tick => Tail(after)
      case Closed => []
      case Disconnected => []
  {
    var all := before + [x] + after;
    if before == [] {
      assert all[0] == x && all[1..] == after;
    } else {
      SignalDecides(before[1..], x, after);
      assert all[0] == before[0] && all[1..] == before[1..] + [x] + after;
    }
  }

  /** `handleLogStream` after the headers: the data lines it writes, heartbeats aside. */
  method Stream(snapshot: seq<string>, valid: string -> bool, signals: seq<Signal>) returns (data: seq<string>)
    ensures data == Kept(snapshot, valid) + Tail(signals)
  {
    data := [];
    for i := 0 to |snapshot|
      invariant data == Kept(snapshot[..i], valid)
    {
      assert snapshot[..i + 1][..i] == snapshot[..i];
      if valid(snapshot[i]) {
        data := data + [snapshot[i]];
      }
    }
    assert snapshot[..|snapshot|] == snapshot;
    ghost var replayed := data;
    var i := 0;
    while i < |signals|
      invariant 0 <= i <= |signals|
      invariant data + Tail(signals[i..]) == replayed + Tail(signals)
      decreases |signals| - i
    {
      assert signals[i..][1..] == signals[i + 1..];
      match signals[i] {
        case Received(line) => data := data + [line];
        case Tick =>
        case Closed => return;
        case Disconnected => return;
      }
      i := i + 1;
    }
  }

  // ---------------------------------------------------------------------------
  // The interleaving
  // ---------------------------------------------------------------------------

  datatype Phase = Connected | Replayed | Tailing | Left

  /** `shown` is what has reached the viewer, `missed` what was dropped because its channel was full. */
  datatype Viewer = Viewer(phase: Phase, shown: seq<nat>, queue: seq<nat>, missed: set<nat>, snapAt: nat, subAt: nat)
  {
    predicate Subscribed() { phase.Tailing? }
  }

  /** Writers are serialized by the log handler, so at most one is between its locked section and its last send. */
  datatype Writer = Idle | Sending(line: nat, rest: set<nat>)

  datatype State = State(history: seq<string>, writer: Writer, viewers: map<nat, Viewer>, panicked: bool)

  const START := State([], Idle, map[], false)

  const REPLAY := 100

  datatype Label =
    | Store(line: string)      // the locked section of Write: append, and copy the subscriber set
    | Send(v: nat)             // one send of the fan-out, after the lock is released
    | Finish
    | Connect(v: nat)
    | Replay(v: nat)           // Snapshot(100)
    | Subscribe(v: nat)
    | Receive(v: nat)
    | Leave(v: nat)            // the deferred cancel: unsubscribe and close

  function Retained(s: State, size: nat): nat {
    if |s.history| < size then |s.history| else size
  }

  /** Positions from `lo` up whose line is valid. */
  function Positions(history: seq<string>, valid: string -> bool, lo: nat, hi: nat): seq<nat>
    requires lo <= hi <= |history|
  {
    if lo == hi then []
    else Positions(history, valid, lo, hi - 1) + if valid(history[hi - 1]) then [hi - 1] else []
  }

  function Deliver(v: Viewer, line: nat): Viewer {
    if |v.queue| < R.CHANNEL_CAPACITY then v.(queue := v.queue + [line]) else v.(missed := v.missed + {line})
  }

  function Step(size: nat, valid: string -> bool, s: State, l: Label): Option<State> {
    if s.panicked then None
    else
      match l
      case Store(line) =>
        if s.writer != Idle then None
        else
          var subs := set v | v in s.viewers && s.viewers[v].Subscribed();
          Some(s.(history := s.history + [line], writer := Sending(|s.history|, subs)))
      case Send(v) =>
        if s.writer == Idle || v !in s.writer.rest || v !in s.viewers then None
        else if !s.viewers[v].Subscribed() then Some(s.(panicked := true))   // send on a closed channel
        else
          Some(s.(writer := Sending(s.writer.line, s.writer.rest - {v}),
                  viewers := s.viewers[v := Deliver(s.viewers[v], s.writer.line)]))
      case Finish => if s.writer == Idle || s.writer.rest != {} then None else Some(s.(writer := Idle))
      case Connect(v) =>
        if v in s.viewers then None
        else Some(s.(viewers := s.viewers[v := Viewer(Connected, [], [], {}, 0, 0)]))
      case Replay(v) =>
        if v !in s.viewers || s.viewers[v].phase != Connected then None
        else
          var k := R.Clamp(REPLAY, Retained(s, size));
          var shown := Positions(s.history, valid, |s.history| - k, |s.history|);
          Some(s.(viewers := s.viewers[v := s.viewers[v].(phase := Replayed, shown := shown, snapAt := |s.history|)]))
      case Subscribe(v) =>
        if v !in s.viewers || s.viewers[v].phase != Replayed then None
        else Some(s.(viewers := s.viewers[v := s.viewers[v].(phase := Tailing, subAt := |s.history|)]))
      case Receive(v) =>
        if v !in s.viewers || s.viewers[v].phase != Tailing || s.viewers[v].queue == [] then None
        else
          var w := s.viewers[v];
          Some(s.(viewers := s.viewers[v := w.(shown := w.shown + [w.queue[0]], queue := w.queue[1..])]))
      case Leave(v) =>
        if v !in s.viewers || s.viewers[v].phase != Tailing then None
        else Some(s.(viewers := s.viewers[v := s.viewers[v].(phase := Left)]))
  }

  function Exec(size: nat, valid: string -> bool, s: State, run: seq<Label>): Option<State> {
    if run == [] then Some(s)
    else
      match Exec(size, valid, s, run[..|run| - 1])
      case None => None
      case Some(mid) => Step(size, valid, mid, run[|run| - 1])
  }

  // ---------------------------------------------------------------------------
  // What a viewer sees
  // ---------------------------------------------------------------------------

  predicate Increasing(xs: seq<nat>) {
    forall i, j | 0 <= i < j < |xs| :: xs[i] < xs[j]
  }

  /** The send to `v` of the line being written is still to come. */
  predicate Awaits(s: State, v: nat) {
    s.writer.Sending? && v in s.writer.rest
  }

  /** A line that has been stored, from the viewer's point of view. */
  predicate Arrived(s: State, v: nat, i: nat) {
    i < |s.history| && !(Awaits(s, v) && i == s.writer.line)
  }

  ghost predicate ViewerInv(s: State, v: nat, w: Viewer) {
    var seen := w.shown + w.queue;
    && Increasing(seen)
    && (forall i | i in seen :: Arrived(s, v, i))
    && (w.phase.Connected? ==> seen == [] && w.missed == {})
    && (w.phase.Replayed? ==> w.queue == [] && w.missed == {} && w.snapAt <= |s.history|)
    && (w.phase.Tailing? || w.phase.Left? ==> w.snapAt <= w.subAt <= |s.history|)
    && (forall i | i in seen :: i < w.snapAt || (!w.phase.Connected? && !w.phase.Replayed? && w.subAt <= i))
    && (forall i | i in w.queue :: w.subAt <= i)
    && (forall i | i in w.missed :: i !in seen && w.subAt <= i && Arrived(s, v, i))
    && (w.phase.Tailing? ==> forall i: nat | w.subAt <= i && Arrived(s, v, i) :: i in seen || i in w.missed)
    && (Awaits(s, v) ==> w.phase.Tailing? || w.phase.Left?)
    && (Awaits(s, v) ==> w.subAt <= s.writer.line)
  }

  ghost predicate Inv(s: State) {
    && (s.writer.Sending? ==> s.writer.line == |s.history| - 1 && s.writer.rest <= s.viewers.Keys)
    && (forall v | v in s.viewers :: ViewerInv(s, v, s.viewers[v]))
  }

  lemma AppendIncreases(xs: seq<nat>, x: nat)
    requires Increasing(xs) && forall i | i in xs :: i < x
    ensures Increasing(xs + [x])
  {
    assert forall i | 0 <= i < |xs| :: xs[i] in xs;
  }

  lemma {:induction false} PositionsAscend(history: seq<string>, valid: string -> bool, lo: nat, hi: nat)
    requires lo <= hi <= |history|
    ensures Increasing(Positions(history, valid, lo, hi))
    ensures forall i :: i in Positions(history, valid, lo, hi) <==> lo <= i < hi && valid(history[i])
  {
    if lo < hi {
      PositionsAscend(history, valid, lo, hi - 1);
      AppendIncreases(Positions(history, valid, lo, hi - 1), hi - 1);
    }
  }

  /** The text at some positions. */
  function LinesAt(history: seq<string>, at: seq<nat>): seq<string>
    requires forall k | 0 <= k < |at| :: at[k] < |history|
  {
    if at == [] then [] else LinesAt(history, at[..|at| - 1]) + [history[at[|at| - 1]]]
  }

  lemma SliceGrows(history: seq<string>, lo: nat, hi: nat)
    requires lo < hi <= |history|
    ensures history[lo..hi][..hi - lo - 1] == history[lo..hi - 1] && history[lo..hi][hi - lo - 1] == history[hi - 1]
  {
  }

  /** What Replay shows is what the handler prints of the ring's snapshot: its valid lines, oldest first. */
  lemma {:induction false} ReplayPrintsTheSnapshot(history: seq<string>, valid: string -> bool, lo: nat, hi: nat)
    requires lo <= hi <= |history|
    ensures var at := Positions(history, valid, lo, hi); forall k | 0 <= k < |at| :: at[k] < |history|
    ensures LinesAt(history, Positions(history, valid, lo, hi)) == Kept(history[lo..hi], valid)
  {
    if lo < hi {
      ReplayPrintsTheSnapshot(history, valid, lo, hi - 1);
      SliceGrows(history, lo, hi);
      var before := Positions(history, valid, lo, hi - 1);
      assert (before + [hi - 1])[..|before|] == before && before + [] == before;
      var kept := Kept(history[lo..hi - 1], valid);
      assert |history[lo..hi]| == hi - lo && kept + [] == kept;
    }
  }

  lemma StoreKeeps(s: State, line: string)
    requires Inv(s) && s.writer == Idle
    ensures Inv(s.(history := s.history + [line],
                   writer := Sending(|s.history|, set v | v in s.viewers && s.viewers[v].Subscribed())))
  {
    var s' := s.(history := s.history + [line],
                 writer := Sending(|s.history|, set v | v in s.viewers && s.viewers[v].Subscribed()));
    forall v | v in s'.viewers
      ensures ViewerInv(s', v, s'.viewers[v])
    {
      ViewedAfterStore(s, s', v, line);
    }
  }

  lemma ViewedAfterStore(s: State, s': State, v: nat, line: string)
    requires v in s.viewers && ViewerInv(s, v, s.viewers[v]) && s.writer == Idle
    requires s'.history == s.history + [line] && s'.writer.Sending? && s'.writer.line == |s.history|
    requires v in s'.writer.rest <==> s.viewers[v].Subscribed()
    ensures ViewerInv(s', v, s.viewers[v])
  {
    hide Increasing;
  }

  /** A step that changes one viewer and neither the history nor the writer. */
  lemma OneViewerKeeps(s: State, v: nat, w: Viewer)
    requires Inv(s) && ViewerInv(s, v, w)
    ensures Inv(s.(viewers := s.viewers[v := w]))
  {
    var s' := s.(viewers := s.viewers[v := w]);
    forall u | u in s'.viewers
      ensures ViewerInv(s', u, s'.viewers[u])
    {
      SameView(s, s', u, s'.viewers[u]);
    }
  }

  lemma SameView(s: State, s': State, v: nat, w: Viewer)
    requires ViewerInv(s, v, w) && s'.history == s.history
    requires Awaits(s', v) == Awaits(s, v) && (Awaits(s, v) ==> s'.writer.line == s.writer.line)
    ensures ViewerInv(s', v, w)
  {
  }

  lemma SendKeeps(s: State, v: nat)
    requires Inv(s) && s.writer.Sending? && v in s.writer.rest && v in s.viewers && s.viewers[v].Subscribed()
    ensures Inv(s.(writer := Sending(s.writer.line, s.writer.rest - {v}),
                   viewers := s.viewers[v := Deliver(s.viewers[v], s.writer.line)]))
  {
    var s' := s.(writer := Sending(s.writer.line, s.writer.rest - {v}),
                 viewers := s.viewers[v := Deliver(s.viewers[v], s.writer.line)]);
    DeliverKeeps(s, s', v);
    forall u | u in s'.viewers && u != v
      ensures ViewerInv(s', u, s'.viewers[u])
    {
      SameView(s, s', u, s.viewers[u]);
    }
  }

  lemma DeliverKeeps(s: State, s': State, v: nat)
    requires v in s.viewers && ViewerInv(s, v, s.viewers[v]) && s.viewers[v].Subscribed()
    requires s.writer.Sending? && s.writer.line == |s.history| - 1 && v in s.writer.rest
    requires s'.history == s.history && s'.writer == Sending(s.writer.line, s.writer.rest - {v})
    ensures ViewerInv(s', v, Deliver(s.viewers[v], s.writer.line))
  {
    var w, line := s.viewers[v], s.writer.line;
    var w' := Deliver(w, line);
    if |w.queue| < R.CHANNEL_CAPACITY {
      assert w'.shown + w'.queue == (w.shown + w.queue) + [line];
      assert forall i | i in w.shown + w.queue :: i < line;
      AppendIncreases(w.shown + w.queue, line);
    }
  }

  lemma ReceiveKeeps(s: State, v: nat)
    requires v in s.viewers && ViewerInv(s, v, s.viewers[v]) && s.viewers[v].queue != []
    ensures var w := s.viewers[v]; ViewerInv(s, v, w.(shown := w.shown + [w.queue[0]], queue := w.queue[1..]))
  {
    var w := s.viewers[v];
    assert (w.shown + [w.queue[0]]) + w.queue[1..] == w.shown + w.queue;
    assert forall i | i in w.queue[1..] :: i in w.queue;
  }

  lemma NewViewerHolds(s: State, v: nat)
    requires !Awaits(s, v)
    ensures ViewerInv(s, v, Viewer(Connected, [], [], {}, 0, 0))
  {
    assert Increasing([]);
  }

  /** A change of phase shows nothing new. */
  lemma PhaseKeeps(s: State, v: nat, w: Viewer, w': Viewer)
    requires ViewerInv(s, v, w)
    requires (w.phase.Replayed? && w' == w.(phase := Tailing, subAt := |s.history|) && !Awaits(s, v))
          || (w.phase.Tailing? && w' == w.(phase := Left))
    ensures ViewerInv(s, v, w')
  {
    hide Increasing;
  }

  lemma SnapshotKeeps(size: nat, valid: string -> bool, s: State, v: nat, w: Viewer)
    requires ViewerInv(s, v, w) && w.phase.Connected? && !Awaits(s, v)
    ensures var k := R.Clamp(REPLAY, Retained(s, size));
      var shown := Positions(s.history, valid, |s.history| - k, |s.history|);
      ViewerInv(s, v, w.(phase := Replayed, shown := shown, snapAt := |s.history|))
  {
    var k := R.Clamp(REPLAY, Retained(s, size));
    var shown := Positions(s.history, valid, |s.history| - k, |s.history|);
    PositionsAscend(s.history, valid, |s.history| - k, |s.history|);
    assert shown + w.queue == shown;
    hide Increasing, Positions, R.Clamp;
  }

  lemma OnlyTailersAwait(s: State, v: nat)
    requires Inv(s)
    ensures Awaits(s, v) ==> v in s.viewers && (s.viewers[v].phase.Tailing? || s.viewers[v].phase.Left?)
  {
    hide Increasing;
  }

  /** The viewer's own moves. */
  lemma ViewerMoveKeeps(size: nat, valid: string -> bool, s: State, l: Label)
    requires Inv(s) && Step(size, valid, s, l).Some?
    requires l.Connect? || l.Replay? || l.Subscribe? || l.Receive? || l.Leave?
    ensures l.v in Step(size, valid, s, l).value.viewers
    ensures ViewerInv(s, l.v, Step(size, valid, s, l).value.viewers[l.v])
  {
    hide ViewerInv, Positions, R.Clamp, Awaits, Inv;
    var v := l.v;
    OnlyTailersAwait(s, v);
    if !l.Connect? {
      ViewerHolds(s, v);
    }
    var w' := Step(size, valid, s, l).value.viewers[v];
    if l.Connect? {
      NewViewerHolds(s, v);
    } else if l.Replay? {
      SnapshotKeeps(size, valid, s, v, s.viewers[v]);
    } else if l.Receive? {
      ReceiveKeeps(s, v);
    } else {
      PhaseKeeps(s, v, s.viewers[v], w');
    }
  }

  lemma StepKeeps(size: nat, valid: string -> bool, s: State, l: Label)
    requires Inv(s) && Step(size, valid, s, l).Some?
    ensures Inv(Step(size, valid, s, l).value)
  {
    hide ViewerInv, R.Clamp, Positions;
    var s' := Step(size, valid, s, l).value;
    match l
    case Store(line) => StoreKeeps(s, line);
    case Send(v) =>
      if s.viewers[v].Subscribed() {
        SendKeeps(s, v);
      } else {
        FlagKeeps(s, s');
      }
    case Finish => FlagKeeps(s, s');
    case _ =>
      ViewerMoveKeeps(size, valid, s, l);
      OneViewerKeeps(s, l.v, s'.viewers[l.v]);
  }

  lemma FlagKeeps(s: State, s': State)
    requires Inv(s) && s'.history == s.history && s'.viewers == s.viewers
    requires s'.writer == s.writer || (s.writer.Sending? && s.writer.rest == {} && s'.writer == Idle)
    ensures Inv(s')
  {
    forall v | v in s'.viewers
      ensures ViewerInv(s', v, s'.viewers[v])
    {
      SameView(s, s', v, s.viewers[v]);
    }
  }

  lemma {:induction false} RunKeeps(size: nat, valid: string -> bool, run: seq<Label>)
    requires Exec(size, valid, START, run).Some?
    ensures Inv(Exec(size, valid, START, run).value)
  {
    hide Inv, Step;
    if run == [] {
      StartHolds();
    } else {
      RunKeeps(size, valid, run[..|run| - 1]);
      StepKeeps(size, valid, Exec(size, valid, START, run[..|run| - 1]).value, run[|run| - 1]);
    }
  }

  lemma StartHolds()
    ensures Inv(START)
  {
  }

  // ---------------------------------------------------------------------------
  // The text on the viewer's screen
  // ---------------------------------------------------------------------------

  /** The state after the first `k` steps. */
  function At(size: nat, valid: string -> bool, run: seq<Label>, k: nat): State
    requires k <= |run| && Exec(size, valid, START, run[..k]).Some?
  {
    Exec(size, valid, START, run[..k]).value
  }

  lemma {:induction false} PrefixRuns(size: nat, valid: string -> bool, run: seq<Label>, k: nat)
    requires k <= |run| && Exec(size, valid, START, run).Some?
    ensures Exec(size, valid, START, run[..k]).Some?
    ensures k < |run| ==> Step(size, valid, At(size, valid, run, k), run[k]) == Exec(size, valid, START, run[..k + 1])
    decreases |run|
  {
    hide Step;
    if k == |run| {
      assert run[..k] == run;
    } else {
      var before := run[..|run| - 1];
      assert before[..k] == run[..k];
      if k < |before| {
        PrefixRuns(size, valid, before, k);
        assert before[..k + 1] == run[..k + 1];
      } else {
        assert run[..k + 1] == run;
      }
    }
  }

  /** What `Snapshot(100)` returns when this is the history. */
  function SnapshotOf(history: seq<string>, size: nat): seq<string> {
    R.Latest(history, R.Clamp(REPLAY, if |history| < size then |history| else size))
  }

  /** The snapshot the handler of viewer `v` has been given, if it has got that far. */
  function Given(size: nat, valid: string -> bool, run: seq<Label>, v: nat): seq<string>
    requires Exec(size, valid, START, run).Some?
  {
    if run == [] then []
    else
      var before := run[..|run| - 1];
      if run[|run| - 1] == Replay(v) then SnapshotOf(Exec(size, valid, START, before).value.history, size)
      else Given(size, valid, before, v)
  }

  /** What the select of viewer `v`'s handler has seen so far. */
  function Seen(size: nat, valid: string -> bool, run: seq<Label>, v: nat): seq<Signal>
    requires Exec(size, valid, START, run).Some?
  {
    if run == [] then []
    else
      var before, l := run[..|run| - 1], run[|run| - 1];
      var mid := Exec(size, valid, START, before).value;
      Seen(size, valid, before, v) +
        if l == Leave(v) then [Disconnected]
        else if l == Receive(v) && mid.viewers[v].queue[0] < |mid.history| then
          [Received(mid.history[mid.viewers[v].queue[0]])]
        else []
  }

  lemma {:induction false} TailExtends(signals: seq<Signal>, x: Signal)
    requires forall i | 0 <= i < |signals| :: signals[i].Received?
    ensures Tail(signals + [x]) == Tail(signals) + if x.Received? then [x.line] else []
  {
    if signals == [] {
      assert [x][1..] == [];
    } else {
      TailExtends(signals[1..], x);
      assert (signals + [x])[1..] == signals[1..] + [x];
    }
  }

  lemma {:induction false} LinesStay(history: seq<string>, line: string, at: seq<nat>)
    requires forall k | 0 <= k < |at| :: at[k] < |history|
    ensures LinesAt(history + [line], at) == LinesAt(history, at)
  {
    if at != [] {
      LinesStay(history, line, at[..|at| - 1]);
    }
  }

  lemma LinesExtend(history: seq<string>, at: seq<nat>, i: nat)
    requires (forall k | 0 <= k < |at| :: at[k] < |history|) && i < |history|
    ensures LinesAt(history, at + [i]) == LinesAt(history, at) + [history[i]]
  {
    assert (at + [i])[..|at|] == at;
  }

  lemma {:induction false} PositionsStay(history: seq<string>, line: string, valid: string -> bool, lo: nat, hi: nat)
    requires lo <= hi <= |history|
    ensures Positions(history + [line], valid, lo, hi) == Positions(history, valid, lo, hi)
  {
    if lo < hi {
      PositionsStay(history, line, valid, lo, hi - 1);
    }
  }

  /** The positions a snapshot taken at `at` lines is printed from. */
  function ReplayedPart(history: seq<string>, valid: string -> bool, size: nat, at: nat): seq<nat>
    requires at <= |history|
  {
    var k := R.Clamp(REPLAY, if at < size then at else size);
    Positions(history, valid, at - k, at)
  }

  /** What holds of the screen of viewer `w` after a run that gave it this snapshot and these signals. */
  ghost predicate ScreenInv(
    size: nat, valid: string -> bool, s: State, w: Viewer, snapshot: seq<string>, signals: seq<Signal>)
  {
    && (forall k | 0 <= k < |w.shown| :: w.shown[k] < |s.history|)
    && Kept(snapshot, valid) + Tail(signals) == LinesAt(s.history, w.shown)
    && (w.phase.Connected? ==> snapshot == [])
    && (w.phase.Connected? || w.phase.Replayed? ==> signals == [])
    && (w.phase.Tailing? ==> forall i | 0 <= i < |signals| :: signals[i].Received?)
    && w.snapAt <= |s.history|
    && var replayed := ReplayedPart(s.history, valid, size, w.snapAt);
    && (w.phase.Replayed? ==> w.shown == replayed)
    && (!w.phase.Connected? ==>
          replayed <= w.shown && forall k | |replayed| <= k < |w.shown| :: w.subAt <= w.shown[k])
  }

  lemma {:induction false} ScreenKeeps(size: nat, valid: string -> bool, run: seq<Label>, v: nat)
    requires Exec(size, valid, START, run).Some?
    ensures var s := Exec(size, valid, START, run).value;
      if v in s.viewers then
        ScreenInv(size, valid, s, s.viewers[v], Given(size, valid, run, v), Seen(size, valid, run, v))
      else Given(size, valid, run, v) == [] && Seen(size, valid, run, v) == []
  {
    hide ScreenInv, Inv, Step, SnapshotOf;
    if run != [] {
      var before, l := run[..|run| - 1], run[|run| - 1];
      var mid := Exec(size, valid, START, before).value;
      ScreenKeeps(size, valid, before, v);
      RunKeeps(size, valid, before);
      var snapshot, signals := Given(size, valid, before, v), Seen(size, valid, before, v);
      assert signals + [] == signals;
      if l == Replay(v) || l == Receive(v) || l == Leave(v) {
        MoverIsThere(size, valid, mid, l);
      }
      if l == Replay(v) {
        ReplayFillsTheScreen(size, valid, mid, v, snapshot, signals);
      } else if l == Receive(v) {
        assert ViewerInv(mid, v, mid.viewers[v]) by { ViewerHolds(mid, v); }
        ReceiveExtendsTheScreen(size, valid, mid, v, snapshot, signals);
      } else if l == Leave(v) {
        LeaveKeepsTheScreen(size, valid, mid, v, snapshot, signals);
      } else {
        OtherStepsKeepTheScreen(size, valid, mid, l, v, snapshot, signals);
      }
    }
  }

  lemma MoverIsThere(size: nat, valid: string -> bool, s: State, l: Label)
    requires Step(size, valid, s, l).Some? && (l.Replay? || l.Receive? || l.Leave?)
    ensures l.v in s.viewers && (l.Receive? ==> s.viewers[l.v].queue != [])
  {
  }

  lemma ViewerHolds(s: State, v: nat)
    requires Inv(s) && v in s.viewers
    ensures ViewerInv(s, v, s.viewers[v])
  {
  }

  lemma ReplayFillsTheScreen(
    size: nat, valid: string -> bool, s: State, v: nat, snapshot: seq<string>, signals: seq<Signal>)
    requires v in s.viewers && ScreenInv(size, valid, s, s.viewers[v], snapshot, signals)
    requires Step(size, valid, s, Replay(v)).Some?
    ensures var s' := Step(size, valid, s, Replay(v)).value;
      v in s'.viewers && ScreenInv(size, valid, s', s'.viewers[v], SnapshotOf(s.history, size), signals)
  {
    SnapshotIsReplayed(size, valid, s.history);
    var printed := Kept(SnapshotOf(s.history, size), valid);
    assert printed + [] == printed && Tail([]) == [];
    hide Kept, LinesAt, Positions, SnapshotOf, Tail, R.Clamp;
  }

  lemma SnapshotIsReplayed(size: nat, valid: string -> bool, history: seq<string>)
    ensures var shown := ReplayedPart(history, valid, size, |history|);
      && (forall k | 0 <= k < |shown| :: shown[k] < |history|)
      && Kept(SnapshotOf(history, size), valid) == LinesAt(history, shown)
  {
    var k := R.Clamp(REPLAY, if |history| < size then |history| else size);
    ReplayPrintsTheSnapshot(history, valid, |history| - k, |history|);
    assert SnapshotOf(history, size) == history[|history| - k..];
    assert history[|history| - k..|history|] == history[|history| - k..];
  }

  lemma ReceiveExtendsTheScreen(
    size: nat, valid: string -> bool, s: State, v: nat, snapshot: seq<string>, signals: seq<Signal>)
    requires v in s.viewers && ScreenInv(size, valid, s, s.viewers[v], snapshot, signals)
    requires ViewerInv(s, v, s.viewers[v]) && Step(size, valid, s, Receive(v)).Some?
    ensures var s', i := Step(size, valid, s, Receive(v)).value, s.viewers[v].queue[0];
      && i < |s.history| && v in s'.viewers
      && ScreenInv(size, valid, s', s'.viewers[v], snapshot, signals + [Received(s.history[i])])
  {
    var w := s.viewers[v];
    var i := w.queue[0];
    assert i in w.shown + w.queue;
    TailExtends(signals, Received(s.history[i]));
    LinesExtend(s.history, w.shown, i);
    hide Kept, Tail, LinesAt, ReplayedPart;
  }

  lemma LeaveKeepsTheScreen(
    size: nat, valid: string -> bool, s: State, v: nat, snapshot: seq<string>, signals: seq<Signal>)
    requires v in s.viewers && ScreenInv(size, valid, s, s.viewers[v], snapshot, signals)
    requires Step(size, valid, s, Leave(v)).Some?
    ensures var s' := Step(size, valid, s, Leave(v)).value;
      v in s'.viewers && ScreenInv(size, valid, s', s'.viewers[v], snapshot, signals + [Disconnected])
  {
    TailExtends(signals, Disconnected);
    assert Tail(signals) + [] == Tail(signals);
    hide Kept, Tail, LinesAt, ReplayedPart;
  }

  lemma StoreKeepsTheScreen(
    size: nat, valid: string -> bool, s: State, s': State, line: string, w: Viewer, snapshot: seq<string>, signals: seq<Signal>)
    requires ScreenInv(size, valid, s, w, snapshot, signals) && s'.history == s.history + [line]
    ensures ScreenInv(size, valid, s', w, snapshot, signals)
  {
    LinesStay(s.history, line, w.shown);
    var k := R.Clamp(REPLAY, if w.snapAt < size then w.snapAt else size);
    PositionsStay(s.history, line, valid, w.snapAt - k, w.snapAt);
    hide Positions, LinesAt, Kept, Tail, R.Clamp;
  }

  lemma SameScreen(
    size: nat, valid: string -> bool, s: State, s': State, w: Viewer, w': Viewer, snapshot: seq<string>, signals: seq<Signal>)
    requires ScreenInv(size, valid, s, w, snapshot, signals)
    requires s'.history == s.history && w'.shown == w.shown && w'.snapAt == w.snapAt
    requires (w'.phase == w.phase && w'.subAt == w.subAt) || (w.phase.Replayed? && w'.phase.Tailing?)
    ensures ScreenInv(size, valid, s', w', snapshot, signals)
  {
    hide ReplayedPart, LinesAt, Kept, Tail;
  }

  lemma OtherStepsKeepTheScreen(
    size: nat, valid: string -> bool, s: State, l: Label, v: nat, snapshot: seq<string>, signals: seq<Signal>)
    requires Step(size, valid, s, l).Some? && l != Replay(v) && l != Receive(v) && l != Leave(v)
    requires if v in s.viewers then ScreenInv(size, valid, s, s.viewers[v], snapshot, signals)
             else snapshot == [] && signals == []
    ensures var s' := Step(size, valid, s, l).value;
      if v in s'.viewers then ScreenInv(size, valid, s', s'.viewers[v], snapshot, signals)
      else snapshot == [] && signals == []
  {
    hide ScreenInv, Positions, R.Clamp;
    var s' := Step(size, valid, s, l).value;
    if v in s.viewers {
      if l.Store? {
        StoreKeepsTheScreen(size, valid, s, s', l.line, s.viewers[v], snapshot, signals);
      } else {
        SameScreen(size, valid, s, s', s.viewers[v], s'.viewers[v], snapshot, signals);
      }
    } else if v in s'.viewers {
      EmptyScreen(size, valid, s');
    }
  }

  lemma EmptyScreen(size: nat, valid: string -> bool, s: State)
    ensures ScreenInv(size, valid, s, Viewer(Connected, [], [], {}, 0, 0), [], [])
  {
  }

  /** At step `k` the line was dropped because the viewer's channel was full. */
  ghost predicate DroppedAt(size: nat, valid: string -> bool, run: seq<Label>, k: nat, v: nat, i: nat)
    requires k < |run|
  {
    && run[k] == Send(v) && Exec(size, valid, START, run[..k]).Some?
    && var s := At(size, valid, run, k);
    && s.writer.Sending? && s.writer.line == i
    && v in s.viewers && |s.viewers[v].queue| >= 256
  }

  lemma {:induction false} MissedWasDropped(size: nat, valid: string -> bool, run: seq<Label>, v: nat, i: nat)
    requires Exec(size, valid, START, run).Some?
    requires var s := Exec(size, valid, START, run).value; v in s.viewers && i in s.viewers[v].missed
    ensures exists k | 0 <= k < |run| :: DroppedAt(size, valid, run, k, v, i)
  {
    var before, l := run[..|run| - 1], run[|run| - 1];
    var mid := Exec(size, valid, START, before).value;
    if v in mid.viewers && i in mid.viewers[v].missed {
      MissedWasDropped(size, valid, before, v, i);
      var k :| 0 <= k < |before| && DroppedAt(size, valid, before, k, v, i);
      assert before[..k] == run[..k];
      assert DroppedAt(size, valid, run, k, v, i);
    } else {
      hide R.Clamp, Positions;
      assert DroppedAt(size, valid, run, |run| - 1, v, i);
    }
  }

  /**
   The handler's output is what the model calls shown: printing the snapshot it was given, then the lines it
   received, puts on the screen the history's lines at the shown positions.
   */
  lemma ScreenShowsTheHistory(size: nat, valid: string -> bool, run: seq<Label>, s: State, v: nat)
    requires Exec(size, valid, START, run) == Some(s) && v in s.viewers
    ensures forall k | 0 <= k < |s.viewers[v].shown| :: s.viewers[v].shown[k] < |s.history|
    ensures Kept(Given(size, valid, run, v), valid) + Tail(Seen(size, valid, run, v))
         == LinesAt(s.history, s.viewers[v].shown)
  {
    ScreenKeeps(size, valid, run, v);
  }

  /** Of the lines there were at the snapshot, those shown are the valid ones among the last 100 that the ring kept. */
  lemma ReplayedAreTheLast(size: nat, valid: string -> bool, s: State, w: Viewer)
    requires w.snapAt <= |s.history|
    requires var replayed := ReplayedPart(s.history, valid, size, w.snapAt);
      && replayed <= w.shown && forall k | |replayed| <= k < |w.shown| :: w.subAt <= w.shown[k]
    requires w.snapAt <= w.subAt || w.shown == ReplayedPart(s.history, valid, size, w.snapAt)
    ensures forall i | 0 <= i < w.snapAt ::
      i in w.shown <==> valid(s.history[i]) && w.snapAt - i <= 100 && w.snapAt - i <= size
  {
    var k := R.Clamp(REPLAY, if w.snapAt < size then w.snapAt else size);
    PositionsAscend(s.history, valid, w.snapAt - k, w.snapAt);
    var replayed := ReplayedPart(s.history, valid, size, w.snapAt);
    assert w.shown == replayed + w.shown[|replayed|..];
    assert forall i | i in w.shown[|replayed|..] :: i in w.shown && (w.snapAt <= i || w.shown == replayed);
  }

  /**
   In every interleaving, replayed snapshot and live tail together are lines of the history in their
   order, none twice: the positions shown strictly increase. First come the valid lines among the last 100 at the
   time of the snapshot. Lines written between Snapshot and Subscribe are never shown; every later one is
   shown, is on its way, or was dropped by a send that found 256 lines waiting.
   */
  lemma ViewersSeeASubsequence(size: nat, valid: string -> bool, run: seq<Label>, s: State, v: nat)
    requires Exec(size, valid, START, run) == Some(s) && v in s.viewers
    ensures var w := s.viewers[v];
      && Increasing(w.shown)
      && (forall i | i in w.shown :: i < |s.history|)
      && w.snapAt <= |s.history|
      && (!w.phase.Connected? ==>
            var replayed := ReplayedPart(s.history, valid, size, w.snapAt);
            replayed <= w.shown && forall k | |replayed| <= k < |w.shown| :: w.subAt <= w.shown[k])
      && (!w.phase.Connected? ==> forall i | 0 <= i < w.snapAt ::
            i in w.shown <==> valid(s.history[i]) && w.snapAt - i <= 100 && w.snapAt - i <= size)
      && (w.phase.Tailing? || w.phase.Left? ==> forall i | w.snapAt <= i < w.subAt :: i !in w.shown)
      && (w.phase.Tailing? ==> forall i | w.subAt <= i < |s.history| ::
            i in w.shown || i in w.queue || i in w.missed || (Awaits(s, v) && i == |s.history| - 1))
      && (forall i | i in w.missed ::
            i !in w.shown && exists k | 0 <= k < |run| :: DroppedAt(size, valid, run, k, v, i))
  {
    RunKeeps(size, valid, run);
    ScreenKeeps(size, valid, run, v);
    var w := s.viewers[v];
    ViewerHolds(s, v);
    var seen := w.shown + w.queue;
    assert forall i | 0 <= i < |w.shown| :: seen[i] == w.shown[i];
    assert forall i | i in w.shown :: i in seen;
    assert forall i | i in seen :: i in w.shown || i in w.queue;
    if !w.phase.Connected? {
      ReplayedAreTheLast(size, valid, s, w);
    }
    forall i | i in w.missed
      ensures exists k | 0 <= k < |run| :: DroppedAt(size, valid, run, k, v, i)
    {
      MissedWasDropped(size, valid, run, v, i);
    }
  }

  // ---------------------------------------------------------------------------
  // Sends and closed channels
  // ---------------------------------------------------------------------------

  /** No viewer leaves while a send to it is still to come. */
  ghost predicate Careful(size: nat, valid: string -> bool, run: seq<Label>)
    requires Exec(size, valid, START, run).Some?
  {
    forall k, v | 0 <= k < |run| && run[k] == Leave(v) ::
      Exec(size, valid, START, run[..k]).Some? && !Awaits(At(size, valid, run, k), v)
  }

  /** The process has panicked, or a send that is due would make it. */
  predicate InDanger(size: nat, valid: string -> bool, s: State) {
    s.panicked || exists v | v in s.viewers ::
      Step(size, valid, s, Send(v)).Some? && Step(size, valid, s, Send(v)).value.panicked
  }

  /** Whoever is still to be sent the line is subscribed. */
  ghost predicate Safe(s: State) {
    !s.panicked && forall v | Awaits(s, v) :: v in s.viewers && s.viewers[v].Subscribed()
  }

  lemma {:induction false} CarefulIsSafe(size: nat, valid: string -> bool, run: seq<Label>)
    requires Exec(size, valid, START, run).Some? && Careful(size, valid, run)
    ensures Safe(Exec(size, valid, START, run).value)
  {
    if run != [] {
      var before, l := run[..|run| - 1], run[|run| - 1];
      forall k, v | 0 <= k < |before| && before[k] == Leave(v)
        ensures Exec(size, valid, START, before[..k]).Some? && !Awaits(At(size, valid, before, k), v)
      {
        assert before[..k] == run[..k] && run[k] == Leave(v);
      }
      CarefulIsSafe(size, valid, before);
      assert l.Leave? ==> run[|run| - 1] == Leave(l.v) && !Awaits(At(size, valid, run, |run| - 1), l.v);
      hide R.Clamp, Positions, Careful;
    }
  }

  /** From any state that has not panicked, leaving while a send is still to come makes that send panic. */
  lemma CarelessLeavePanics(size: nat, valid: string -> bool, s: State, v: nat)
    requires Step(size, valid, s, Leave(v)).Some? && Awaits(s, v)
    ensures var left := Step(size, valid, s, Leave(v)).value;
      Step(size, valid, left, Send(v)).Some? && Step(size, valid, left, Send(v)).value.panicked
  {
  }

  /**
   Exactly when sends and cancels are safe: at no point of a run has the process panicked or is a due send about to
   make it, if and only if no viewer of the run left while a send to it was still to come.
   */
  lemma CarefulIsExactlySafe(size: nat, valid: string -> bool, run: seq<Label>)
    requires Exec(size, valid, START, run).Some?
    ensures forall k | 0 <= k <= |run| :: Exec(size, valid, START, run[..k]).Some?
    ensures Careful(size, valid, run) <==> forall k | 0 <= k <= |run| :: !InDanger(size, valid, At(size, valid, run, k))
  {
    forall k | 0 <= k <= |run|
      ensures Exec(size, valid, START, run[..k]).Some?
      ensures Careful(size, valid, run) ==> !InDanger(size, valid, At(size, valid, run, k))
    {
      PrefixRuns(size, valid, run, k);
      if Careful(size, valid, run) {
        CarefulPrefix(size, valid, run, k);
        CarefulIsSafe(size, valid, run[..k]);
      }
    }
    if !Careful(size, valid, run) {
      var k, v :| 0 <= k < |run| && run[k] == Leave(v) && Awaits(At(size, valid, run, k), v);
      PrefixRuns(size, valid, run, k);
      CarelessLeavePanics(size, valid, At(size, valid, run, k), v);
      assert InDanger(size, valid, At(size, valid, run, k + 1));
    }
  }

  lemma CarefulPrefix(size: nat, valid: string -> bool, run: seq<Label>, k: nat)
    requires k <= |run| && Exec(size, valid, START, run).Some? && Careful(size, valid, run)
    requires Exec(size, valid, START, run[..k]).Some?
    ensures Careful(size, valid, run[..k])
  {
    forall j, v | 0 <= j < k && run[..k][j] == Leave(v)
      ensures Exec(size, valid, START, run[..k][..j]).Some? && !Awaits(At(size, valid, run[..k], j), v)
    {
      assert run[..k][..j] == run[..j] && run[j] == Leave(v);
    }
  }

  /**
   A send can meet a closed channel: the fan-out runs after the lock is released, and a viewer may cancel
   in between.
   */
  lemma SendMayMeetAClosedChannel(size: nat, valid: string -> bool, line: string) returns (run: seq<Label>)
    ensures Exec(size, valid, START, run).Some? && Exec(size, valid, START, run).value.panicked
  {
    var v := 0;
    var r1 := [Connect(v)];
    var r2 := r1 + [Replay(v)];
    var r3 := r2 + [Subscribe(v)];
    var r4 := r3 + [Store(line)];
    var r5 := r4 + [Leave(v)];
    run := r5 + [Send(v)];
    assert r1[..0] == [] && r2[..1] == r1 && r3[..2] == r2 && r4[..3] == r3 && r5[..4] == r4 && run[..5] == r5;
    var s1 := START.(viewers := map[v := Viewer(Connected, [], [], {}, 0, 0)]);
    assert Exec(size, valid, START, r1) == Some(s1);
    var s2 := Step(size, valid, s1, Replay(v)).value;
    assert Exec(size, valid, START, r2) == Some(s2);
    var s3 := Step(size, valid, s2, Subscribe(v)).value;
    assert Exec(size, valid, START, r3) == Some(s3);
    var s4 := Step(size, valid, s3, Store(line)).value;
    assert Exec(size, valid, START, r4) == Some(s4) && v in s4.writer.rest;
    var s5 := Step(size, valid, s4, Leave(v)).value;
    assert Exec(size, valid, START, r5) == Some(s5);
  }
}
