/**
 * The multi-channel ring buffer `CircularAudioBuffer` that test_circular_buffer.py
 * exercises: a fixed storage of `buffer_size` frames, a write cursor and a
 * fill count. A write keeps only the newest `buffer_size` frames (the oldest
 * are overwritten, the writer never blocks); a read returns the newest `n`
 * frames, zero-padded on the left, without changing anything.
 */
module CircularBuffer {
  import opened Windowing

  /** One frame: a sample per channel. */
  type Frame = seq<real>

  function Silence(channels: nat): (f: Frame)
    ensures |f| == channels
  {
    seq(channels, _ => 0.0)
  }

  /** Writing in two pieces keeps what writing the concatenation keeps: the chunking of writes does not matter. */
  lemma LastNChunking<T>(s: seq<T>, a: seq<T>, b: seq<T>, n: nat)
    ensures LastN(LastN(s + a, n) + b, n) == LastN(s + a + b, n)
  {
    var t := LastN(s + a, n);
    var u := s + a + b;
    assert t + b == u[|u| - |t + b|..];
  }

  /** What `read(n)` returns for the contents `c`: the newest `n` frames, with silence on the left when there are fewer. */
  function Padded(c: seq<Frame>, n: nat, channels: nat): (r: seq<Frame>)
    ensures |r| == n
    ensures |c| >= n ==> r == c[|c| - n..]
    ensures |c| < n ==> r[n - |c|..] == c && forall i :: 0 <= i < n - |c| ==> r[i] == Silence(channels)
  {
    if |c| >= n then c[|c| - n..] else seq(n - |c|, _ => Silence(channels)) + c
  }

  // ---------------------------------------------------------------------------
  // Positions in the storage, which wrap modulo its size

  /**
   * `x % cap` for the values the buffer ever reduces, which lie within one
   * capacity below zero and two above.
   */
  function Wrap(x: int, cap: nat): (r: nat)
    requires cap > 0 && -(cap as int) <= x < 2 * cap
    ensures r < cap
  {
    if x < 0 then x + cap else if x >= cap then x - cap else x
  }

  /** On that range the wrap is Python's `%`. */
  lemma WrapIsMod(x: int, cap: nat)
    requires cap > 0 && -(cap as int) <= x < 2 * cap
    ensures Wrap(x, cap) == x % cap
  {
    if x < 0 {
      ModUnique(x, cap, -1, x + cap);
    } else if x >= cap {
      ModUnique(x, cap, 1, x - cap);
    } else {
      ModUnique(x, cap, 0, x);
    }
  }

  /** The remainder is the unique one in range. */
  lemma ModUnique(x: int, cap: int, q: int, r: int)
    requires cap > 0 && x == cap * q + r && 0 <= r < cap
    ensures x % cap == r
  {
    var q' := x / cap;
    var r' := x % cap;
    assert cap * q' + r' == cap * q + r;
    var d := q - q';
    assert cap * d == r' - r;
    if d >= 1 {
      MulAtLeast(cap, d);
    } else if d <= -1 {
      MulAtLeast(cap, -d);
    }
  }

  lemma {:induction false} MulAtLeast(c: int, d: int)
    requires c > 0 && d >= 1
    ensures c * d >= c
    decreases d
  {
    if d > 1 {
      MulAtLeast(c, d - 1);
      assert c * d == c * (d - 1) + c;
    }
  }

  /** The contents a storage holds: the `filled` frames ending just before the cursor `pos`, oldest first. */
  function Window(st: seq<Frame>, pos: nat, filled: nat): (w: seq<Frame>)
    requires pos < |st| && filled <= |st|
    ensures |w| == filled
  {
    seq(filled, k requires 0 <= k < filled => st[Wrap(pos - filled + k, |st|)])
  }

  /** The storage after writing `data` (shorter than the storage) at the cursor `base`, wrapping past the end. */
  function Written(st: seq<Frame>, base: nat, data: seq<Frame>): (r: seq<Frame>)
    requires base < |st| && |data| < |st|
    ensures |r| == |st|
  {
    seq(|st|, p requires 0 <= p < |st| =>
      if Wrap(p - base, |st|) < |data| then data[Wrap(p - base, |st|)] else st[p])
  }

  /** Writing nothing leaves the storage as it was. */
  lemma WrittenNothing(st: seq<Frame>, base: nat)
    requires base < |st|
    ensures Written(st, base, []) == st
  {
    forall p | 0 <= p < |st| ensures Written(st, base, [])[p] == st[p] {
      assert Wrap(p - base, |st|) >= 0;
    }
  }

  /** Writing one more frame changes exactly the slot after the ones already written. */
  lemma WrittenStep(st: seq<Frame>, base: nat, data: seq<Frame>, i: nat)
    requires base < |st| && i < |data| < |st|
    ensures Written(st, base, data[..i + 1]) == Written(st, base, data[..i])[Wrap(base + i, |st|) := data[i]]
  {
    var cap := |st|;
    var q := Wrap(base + i, cap);
    var a, b := Written(st, base, data[..i + 1]), Written(st, base, data[..i])[q := data[i]];
    forall p | 0 <= p < cap ensures a[p] == b[p] {
      if p == q {
        assert Wrap(p - base, cap) == i;
      } else {
        assert Wrap(p - base, cap) != i;
      }
    }
  }

  /** The cursor and fill count after a write of `n` frames, shorter than the storage. */
  function NewFilled(filled: nat, n: nat, cap: nat): nat
  {
    if filled + n < cap then filled + n else cap
  }

  /** After a write shorter than the storage, the window at the new cursor is the newest frames of the old window and the data. */
  lemma WindowAfterWrite(st: seq<Frame>, base: nat, filled: nat, data: seq<Frame>)
    requires base < |st| && |data| < |st| && filled <= |st|
    ensures Window(Written(st, base, data), Wrap(base + |data|, |st|), NewFilled(filled, |data|, |st|))
         == LastN(Window(st, base, filled) + data, |st|)
  {
    var cap, n := |st|, |data|;
    var m := NewFilled(filled, n, cap);
    var lhs := Window(Written(st, base, data), Wrap(base + n, cap), m);
    var rhs := LastN(Window(st, base, filled) + data, cap);
    assert |rhs| == m;
    forall k | 0 <= k < m ensures lhs[k] == rhs[k] {
      WindowAfterWriteAt(st, base, filled, data, k);
    }
  }

  lemma WindowAfterWriteAt(st: seq<Frame>, base: nat, filled: nat, data: seq<Frame>, k: nat)
    requires base < |st| && |data| < |st| && filled <= |st| && k < NewFilled(filled, |data|, |st|)
    ensures Window(Written(st, base, data), Wrap(base + |data|, |st|), NewFilled(filled, |data|, |st|))[k]
         == (Window(st, base, filled) + data)[filled + |data| - NewFilled(filled, |data|, |st|) + k]
  {
    var cap, n := |st|, |data|;
    var m := NewFilled(filled, n, cap);
    var w := Written(st, base, data);
    var s := Window(st, base, filled) + data;
    var j := filled + n - m + k;
    var d := n - m + k;
    var p := Wrap(Wrap(base + n, cap) - m + k, cap);
    SlotOffset(base, n, m, k, cap);
    if d >= 0 {
      assert w[p] == data[d];
      assert s[j] == data[d];
    } else {
      assert w[p] == st[p];
      assert s[j] == Window(st, base, filled)[j] == st[Wrap(base - filled + j, cap)];
    }
  }

  /**
   * The slot of the `k`-th of the `m` newest frames after writing `n` frames at
   * `base` lies `d = n - m + k` frames after `base`: a written one when `d` is not
   * negative, an older one otherwise.
   */
  lemma SlotOffset(base: nat, n: nat, m: nat, k: nat, cap: nat)
    requires base < cap && n < cap && m <= cap && k < m && n - m + k < n
    ensures var p := Wrap(Wrap(base + n, cap) - m + k, cap);
      var d := n - m + k;
      && -(cap as int) <= p - base < cap
      && Wrap(p - base, cap) == (if d >= 0 then d else d + cap)
      && (d < 0 ==> -(cap as int) <= base + d && p == Wrap(base + d, cap))
  {
  }

  /** A storage filled from the start and read with the cursor at 0 is read in storage order. */
  lemma WindowFull(st: seq<Frame>)
    requires |st| > 0
    ensures Window(st, 0, |st|) == st
  {
    forall k | 0 <= k < |st| ensures Window(st, 0, |st|)[k] == st[k] {
      assert Wrap(k - |st|, |st|) == k;
    }
  }

  /** Slot by slot, what a read of `n` frames returns from a storage with cursor `pos` holding `filled` frames. */
  lemma PaddedWindowAt(st: seq<Frame>, pos: nat, filled: nat, n: nat, channels: nat, k: nat)
    requires pos < |st| && filled <= |st| && k < n
    ensures k < n - filled ==> Padded(Window(st, pos, filled), n, channels)[k] == Silence(channels)
    ensures k >= n - filled ==>
      -(|st| as int) <= pos - n + k < |st| && Padded(Window(st, pos, filled), n, channels)[k] == st[Wrap(pos - n + k, |st|)]
  {
    var c := Window(st, pos, filled);
    if k >= n - filled {
      var j := filled - n + k;
      assert Padded(c, n, channels)[k] == c[j];
      assert pos - filled + j == pos - n + k;
    }
  }

  // ---------------------------------------------------------------------------
  // The buffer

  class CircularAudioBuffer {
    /** `buffer_size`: the capacity in frames. */
    const bufferSize: nat
    const channels: nat
    /** The fixed storage, `buffer_size` frames. */
    const storage: array<Frame>
    /** `write_pos`: the slot the next frame goes to. */
    var writePos: nat
    /** `filled`: how many frames hold data, at most `buffer_size`. */
    var filled: nat

    ghost predicate Valid()
      reads this
    {
      storage.Length == bufferSize > 0 && writePos < bufferSize && filled <= bufferSize
    }

    /** The frames held, oldest first. */
    ghost function Contents(): (c: seq<Frame>)
      requires Valid()
      reads this, storage
      ensures |c| == filled
    {
      Window(storage[..], writePos, filled)
    }

    constructor (bufferSize: nat, channels: nat)
      requires bufferSize > 0
      ensures Valid() && Contents() == []
      ensures this.bufferSize == bufferSize && this.channels == channels
      ensures writePos == 0 && filled == 0
      ensures fresh(storage)
    {
      this.bufferSize := bufferSize;
      this.channels := channels;
      storage := new Frame[bufferSize](_ => Silence(channels));
      writePos := 0;
      filled := 0;
    }

    /**
     * `write(data)`: a write of at least `buffer_size` frames replaces the whole
     * storage with its last `buffer_size` frames; a shorter one goes in at the
     * cursor, wrapping, and the fill count grows up to the capacity.
     */
    method Write(data: seq<Frame>) returns (ok: bool)
      requires Valid()
      requires forall i :: 0 <= i < |data| ==> |data[i]| == channels
      modifies this, storage
      ensures Valid() && ok
      ensures Contents() == LastN(old(Contents()) + data, bufferSize)
      ensures filled == if old(filled) + |data| < bufferSize then old(filled) + |data| else bufferSize
    {
      ghost var before := old(Contents());
      var n := |data|;
      if n >= bufferSize {
        forall k | 0 <= k < bufferSize {
          storage[k] := data[n - bufferSize + k];
        }
        writePos := 0;
        filled := bufferSize;
        assert storage[..] == data[n - bufferSize..];
        WindowFull(storage[..]);
        assert LastN(before + data, bufferSize) == data[n - bufferSize..];
      } else {
        ghost var st := storage[..];
        var base := writePos;
        assert data[..0] == [];
        WrittenNothing(st, base);
        for i := 0 to n
          modifies storage
          invariant storage[..] == Written(st, base, data[..i])
        {
          WrittenStep(st, base, data, i);
          storage[Wrap(base + i, bufferSize)] := data[i];
        }
        assert data[..n] == data;
        WindowAfterWrite(st, base, filled, data);
        writePos := Wrap(base + n, bufferSize);
        filled := if filled + n < bufferSize then filled + n else bufferSize;
      }
      ok := true;
    }

    /** `read(n)`: the newest `n` frames, silence on the left when fewer are held; nothing changes. */
    method Read(n: nat) returns (r: seq<Frame>)
      requires Valid()
      ensures r == Padded(Contents(), n, channels)
    {
      ghost var want := Padded(Contents(), n, channels);
      r := [];
      var pad := if filled < n then n - filled else 0;
      for k := 0 to n
        invariant r == want[..k]
      {
        PaddedWindowAt(storage[..], writePos, filled, n, channels, k);
        var frame := if k < pad then Silence(channels) else storage[Wrap(writePos - n + k, bufferSize)];
        assert want[k] == frame;
        r := r + [frame];
      }
    }

    /** `clear()`: cursor and fill count back to zero; the storage is kept, so later reads are silence. */
    method Clear()
      requires Valid()
      modifies this
      ensures Valid() && Contents() == []
      ensures writePos == 0 && filled == 0
    {
      writePos := 0;
      filled := 0;
    }

    /** `get_buffer_level()`: the fraction of the capacity that holds data. */
    method Level() returns (level: real)
      requires Valid()
      ensures level == |Contents()| as real / bufferSize as real
      ensures 0.0 <= level <= 1.0
      ensures level == 1.0 <==> filled == bufferSize
    {
      level := filled as real / bufferSize as real;
    }
  }

  // ---------------------------------------------------------------------------
  // The scenarios of test_circular_buffer.py, on a buffer of 1000 stereo frames

  predicate Stereo(data: seq<Frame>)
  {
    forall i :: 0 <= i < |data| ==> |data[i]| == 2
  }

  /** test_initialization: a new buffer stores its size and channel count, with cursor and fill count at zero. */
  method InitializationScenario() returns (size: nat, channels: nat, writePos: nat, filled: nat)
    ensures size == 1000 && channels == 2 && writePos == 0 && filled == 0
  {
    var b := new CircularAudioBuffer(1000, 2);
    size, channels, writePos, filled := b.bufferSize, b.channels, b.writePos, b.filled;
  }

  /** test_write_and_read_simple: 100 frames written are the 100 frames read back, and the write reports success. */
  method SimpleScenario(data: seq<Frame>) returns (ok: bool, r: seq<Frame>)
    requires |data| == 100 && Stereo(data)
    ensures ok && r == data
  {
    var b := new CircularAudioBuffer(1000, 2);
    ok := b.Write(data);
    r := b.Read(100);
  }

  /** test_write_overflow: after one write of 1500 frames, a read of 1000 gives the last 1000 written. */
  method OverflowScenario(data: seq<Frame>) returns (ok: bool, r: seq<Frame>)
    requires |data| == 1500 && Stereo(data)
    ensures ok && r == data[500..]
  {
    var b := new CircularAudioBuffer(1000, 2);
    ok := b.Write(data);
    r := b.Read(1000);
  }

  /** test_circular_write: 500 frames then 700 frames; a read of 700 gives the second write, which wrapped. */
  method CircularScenario(first: seq<Frame>, second: seq<Frame>) returns (r: seq<Frame>)
    requires |first| == 500 && |second| == 700 && Stereo(first) && Stereo(second)
    ensures r == second
  {
    var b := new CircularAudioBuffer(1000, 2);
    var _ := b.Write(first);
    var _ := b.Write(second);
    assert [] + first == first;
    var both := first + second;
    assert b.Contents() == both[200..];
    r := b.Read(700);
    assert both[200..][300..] == second;
  }

  /** test_clear: after a write and a clear, cursor and fill count are zero and a read of 500 is silence. */
  method ClearScenario(data: seq<Frame>) returns (writePos: nat, filled: nat, r: seq<Frame>)
    requires |data| == 500 && Stereo(data)
    ensures writePos == 0 && filled == 0
    ensures r == seq(500, _ => Silence(2))
  {
    var b := new CircularAudioBuffer(1000, 2);
    var _ := b.Write(data);
    b.Clear();
    writePos, filled := b.writePos, b.filled;
    r := b.Read(500);
  }

  /** test_buffer_level: 0.0 when empty, 0.5 after 500 frames, 1.0 after 1000 more. */
  method LevelScenario(half: seq<Frame>, full: seq<Frame>) returns (empty: real, halfway: real, complete: real)
    requires |half| == 500 && |full| == 1000 && Stereo(half) && Stereo(full)
    ensures empty == 0.0 && halfway == 0.5 && complete == 1.0
  {
    var b := new CircularAudioBuffer(1000, 2);
    empty := b.Level();
    var _ := b.Write(half);
    halfway := b.Level();
    var _ := b.Write(full);
    complete := b.Level();
  }
}
