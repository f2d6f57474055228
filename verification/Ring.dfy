/** The log ring: a circular buffer that must agree with the last lines ever written, and its fan-out. */
module Ring {
  type Line = string

  const CHANNEL_CAPACITY := 256

  // ---------------------------------------------------------------------------
  // Go's remainder
  // ---------------------------------------------------------------------------

  /** Go's `a % b` for positive `b`: truncated, so it has the sign of `a`. */
  function Rem(a: int, b: int): int
    requires b > 0
  {
    if a >= 0 then a % b else -((-a) % b)
  }

  /** Truncated division: the remainder is smaller than the divisor and has the sign of the dividend. */
  lemma RemTruncates(a: int, b: int)
    requires b > 0
    ensures exists q :: a == b * q + Rem(a, b)
    ensures -b < Rem(a, b) < b && (a > 0 ==> Rem(a, b) >= 0) && (a < 0 ==> Rem(a, b) <= 0)
  {
    if a >= 0 {
      assert a == b * (a / b) + Rem(a, b);
    } else {
      var q := (-a) / b;
      assert -a == b * q + (-a) % b;
      assert b * (-q) == -(b * q);
      assert a == b * (-q) + Rem(a, b);
    }
  }

  /** Adding the size once more turns the truncated remainder of a negative number into an index. */
  lemma WrapsToIndex(a: int, size: int)
    requires size > 0
    ensures Rem(Rem(a, size) + size, size) == a % size
  {
    if a < 0 {
      NegativeWraps(a, size);
    } else {
      assert Rem(a, size) + size == size * 1 + a % size;
      SameResidue(a % size + size, a % size, 1, size);
    }
  }

  lemma NegativeWraps(a: int, size: int)
    requires size > 0 && a < 0
    ensures Rem(Rem(a, size) + size, size) == a % size
  {
    var q, m := (-a) / size, (-a) % size;
    assert -a == size * q + m;
    if m == 0 {
      SameResidue(a, 0, -q, size);
      SameResidue(size, 0, 1, size);
    } else {
      assert a == size * (-q - 1) + (size - m);
      SameResidue(a, size - m, -q - 1, size);
      SameResidue(size - m, size - m, 0, size);
    }
  }

  lemma SameResidue(a: int, r: int, q: int, size: int)
    requires size > 0 && 0 <= r < size && a == size * q + r
    ensures a % size == r
  {
    var q', r' := a / size, a % size;
    assert a == size * q' + r';
    assert size * (q - q') == r' - r;
    if q - q' >= 1 {
      Stretch(size, 1, q - q');
    } else if q - q' <= -1 {
      Stretch(size, q - q', -1);
    }
  }

  lemma Stretch(size: int, x: int, y: int)
    requires size > 0 && x <= y
    ensures size * x <= size * y
  {
  }

  lemma ResidueOfSum(a: int, b: int, size: int)
    requires size > 0
    ensures (a % size + b) % size == (a + b) % size
  {
    var q := a / size;
    var k, r := (a % size + b) / size, (a % size + b) % size;
    assert a + b == size * q + (a % size + b);
    assert a % size + b == size * k + r;
    assert a + b == size * (q + k) + r;
    SameResidue(a + b, r, q + k, size);
  }

  /** Where the line at a position of the history is kept. */
  function Slot(position: int, size: int): (at: int)
    requires size > 0
    ensures 0 <= at < size
  {
    position % size
  }

  /** Stepping from a slot is stepping in the history. */
  lemma NextSlot(first: int, i: nat, size: int)
    requires size > 0
    ensures Rem(Slot(first, size) + i, size) == Slot(first + i, size)
  {
    ResidueOfSum(first, i, size);
  }

  /** The start of a snapshot is the slot of its first line. */
  lemma StepBack(written: int, k: int, size: int)
    requires size > 0
    ensures Rem(Rem(Slot(written, size) - k, size) + size, size) == Slot(written - k, size)
  {
    WrapsToIndex(written % size - k, size);
    ResidueOfSum(written, -k, size);
  }

  /** Distinct positions less than a buffer length apart have distinct slots. */
  lemma SlotsDiffer(i: int, j: int, size: int)
    requires size > 0 && i < j < i + size
    ensures i % size != j % size
  {
    if i % size == j % size {
      var k := j / size - i / size;
      assert j - i == size * k;
      if k >= 1 {
        Stretch(size, 1, k);
      } else {
        Stretch(size, k, 0);
      }
    }
  }

  /** A subscriber's buffered channel. */
  class Channel {
    var queue: seq<Line>
    var open: bool

    constructor ()
      ensures queue == [] && open
    {
      queue, open := [], true;
    }

    /** `select { case c <- line: default: }` on an open channel. */
    method Offer(line: Line)
      requires open
      modifies this`queue
      ensures queue == if |old(queue)| < CHANNEL_CAPACITY then old(queue) + [line] else old(queue)
    {
      if |queue| < CHANNEL_CAPACITY {
        queue := queue + [line];
      }
    }
  }

  /** How many lines a snapshot of `n` returns, out of `count` retained. */
  function Clamp(n: int, count: nat): nat {
    if n <= 0 || n > count then count else n
  }

  /** The last `k` lines of a history. */
  function Latest(history: seq<Line>, k: nat): seq<Line>
    requires k <= |history|
  {
    history[|history| - k..]
  }

  lemma SliceExtends(history: seq<Line>, lo: nat, hi: nat)
    requires lo <= hi < |history|
    ensures history[lo..hi] + [history[hi]] == history[lo..hi + 1]
  {
  }

  class Ring {
    ghost var history: seq<Line>   // every line ever written
    var buf: array<Line>
    var size: int
    var next: int
    var count: int
    var subs: set<Channel>

    ghost predicate Valid()
      reads this, buf, subs
    {
      && size == buf.Length > 0
      && next == Slot(|history|, size)
      && count == (if |history| < size then |history| else size)
      && (forall i | |history| - count <= i < |history| :: buf[Slot(i, size)] == history[i])
      && (forall c | c in subs :: c.open)
    }

    constructor (capacity: int)
      ensures Valid() && fresh(buf) && history == [] && subs == {}
      ensures size == if capacity <= 0 then 1 else capacity
    {
      size := if capacity <= 0 then 1 else capacity;
      buf := new Line[if capacity <= 0 then 1 else capacity];
      next, count, subs, history := 0, 0, {}, [];
    }

    /** Stores the line, and offers it once to each subscriber there is at that moment. */
    method Write(line: Line)
      requires Valid()
      modifies this`history, this`next, this`count, buf, subs
      ensures Valid() && history == old(history) + [line]
      ensures forall c | c in subs :: c.queue == if |old(c.queue)| < 256 then old(c.queue) + [line] else old(c.queue)
    {
      Store(line);
      var rest := subs;
      while rest != {}
        invariant rest <= subs && Valid() && history == old(history) + [line]
        invariant forall c | c in rest :: c.queue == old(c.queue)
        invariant forall c | c in subs - rest ::
          c.queue == if |old(c.queue)| < CHANNEL_CAPACITY then old(c.queue) + [line] else old(c.queue)
        decreases |rest|
      {
        var c :| c in rest;
        c.Offer(line);
        rest := rest - {c};
      }
    }

    /** The part of Write under the lock. */
    method Store(line: Line)
      requires Valid()
      modifies this`history, this`next, this`count, buf
      ensures Valid() && history == old(history) + [line]
    {
      ghost var before := history;
      buf[next] := line;
      next := Rem(next + 1, size);
      if count < size {
        count := count + 1;
      }
      history := history + [line];
      ResidueOfSum(|before|, 1, size);
      forall i | |history| - count <= i < |history|
        ensures buf[Slot(i, size)] == history[i]
      {
        if i < |before| {
          SlotsDiffer(i, |before|, size);
        }
      }
    }

    /** Exactly the last lines of the whole history, oldest first, with every index in range. */
    method Snapshot(n: int) returns (out: seq<Line>)
      requires Valid()
      ensures Clamp(n, count) <= |history| && out == Latest(history, Clamp(n, count))
      // that is, as many as are asked for and kept, and all that are kept if none or too many are asked for
      ensures |out| <= |history| && out == history[|history| - |out|..]
      ensures var kept := if |history| < size then |history| else size;
        |out| == if n <= 0 || n >= kept then kept else n
    {
      var k := if n <= 0 || n > count then count else n;
      out := [];
      hide Rem, Slot;
      var start := Rem(Rem(next - k, size) + size, size);
      StepBack(|history|, k, size);
      ghost var first := |history| - k;
      for i := 0 to k
        invariant out == history[first..first + i]
      {
        NextSlot(first, i, size);
        SliceExtends(history, first, first + i);
        out := out + [buf[Rem(start + i, size)]];
      }
    }

    method Subscribe() returns (c: Channel)
      requires Valid()
      modifies this`subs
      ensures Valid() && fresh(c) && c.open && c.queue == [] && subs == old(subs) + {c}
    {
      c := new Channel();
      subs := subs + {c};
    }

    /** The function Subscribe returns: idempotent, and the only way a channel is closed. */
    method Cancel(c: Channel)
      requires Valid() && c.open == (c in subs)
      modifies this`subs, c`open
      ensures Valid() && !c.open && subs == old(subs) - {c}
    {
      if c in subs {
        subs := subs - {c};
        c.open := false;
      }
    }
  }
}
