/**
 * The retry cache of one socket worker, as values: a fixed-capacity ring of
 * recently sent payloads and the cursor of the most recently written slot.
 * The worker in ApnsObject keeps the same state in an array; the functions
 * here are its specification and the lemmas say what replay reads back.
 */
module RetryCache {

  /** Slots of the ring and the index of the most recently written slot. */
  datatype Ring<T> = Ring(slots: seq<T>, cursor: int)

  predicate WellFormed<T>(r: Ring<T>) {
    0 <= r.cursor < |r.slots|
  }

  /** A ring of capacity `c` holding the zero value, with the cursor on the
      last slot so that the first write lands in slot 0. */
  function Fresh<T>(c: nat, zero: T): (r: Ring<T>)
    requires c > 0
    ensures WellFormed(r) && |r.slots| == c && r.cursor == c - 1
    ensures forall j :: 0 <= j < c ==> r.slots[j] == zero
  {
    Ring(seq(c, _ => zero), c - 1)
  }

  /** One successful send: the cursor moves one slot on, wrapping at the
      capacity, and only the slot it lands on is overwritten. */
  function Write<T>(r: Ring<T>, p: T): (r': Ring<T>)
    requires WellFormed(r)
    ensures WellFormed(r') && |r'.slots| == |r.slots|
    ensures r'.cursor == if r.cursor == |r.slots| - 1 then 0 else r.cursor + 1
    ensures r'.slots[r'.cursor] == p
    ensures forall j :: 0 <= j < |r.slots| && j != r'.cursor ==> r'.slots[j] == r.slots[j]
  {
    var c := (r.cursor + 1) % |r.slots|;
    Ring(r.slots[c := p], c)
  }

  /** The state after the successful sends `h`, first to last. */
  function WriteAll<T>(r: Ring<T>, h: seq<T>): (r': Ring<T>)
    requires WellFormed(r)
    ensures WellFormed(r') && |r'.slots| == |r.slots|
    decreases |h|
  {
    if h == [] then r else Write(WriteAll(r, h[..|h| - 1]), h[|h| - 1])
  }

  /** The ring's contents from the oldest entry to the newest: the slots after
      the cursor, then those up to and including it. */
  function Order<T>(r: Ring<T>): (s: seq<T>)
    requires WellFormed(r)
    ensures |s| == |r.slots|
    ensures s[|s| - 1] == r.slots[r.cursor]
  {
    r.slots[r.cursor + 1..] + r.slots[..r.cursor + 1]
  }

  /** The unsent count cut down to what the ring can hold. */
  function Clamp(n: int, c: nat): (k: nat)
    ensures k <= c
    ensures n <= 0 ==> k == 0
    ensures 0 < n <= c ==> k == n
    ensures n > c ==> k == c
  {
    if n <= 0 then 0 else if n > c then c else n
  }

  /** The slot the replay loop reads for its counter value `i`. */
  function ReplaySlot(cur: int, c: int, i: int): (k: int)
    requires c > 0
    ensures 0 <= k < c
  {
    (cur + c - i + 1) % c
  }

  /** What the replay loop has read once its counter, started at `n`, is
      down to `i`: the slots for counter values n, n-1, ..., i+1, in that
      order. */
  function LoopReads<T>(r: Ring<T>, n: int, i: int): (s: seq<T>)
    requires WellFormed(r) && 0 <= i <= n
    ensures |s| == n - i
    decreases n - i
  {
    if i == n then [] else LoopReads(r, n, i + 1) + [r.slots[ReplaySlot(r.cursor, |r.slots|, i + 1)]]
  }

  /** What a replay of `n` unsent payloads re-submits: the newest
      Clamp(n) entries of the ring, oldest first. */
  function Replay<T>(r: Ring<T>, n: int): (s: seq<T>)
    requires WellFormed(r)
    ensures n <= 0 ==> s == []
    ensures 0 < n <= |r.slots| ==> |s| == n
    ensures n >= |r.slots| ==> s == Order(r)
    ensures |s| > 0 ==> s[|s| - 1] == r.slots[r.cursor]
  {
    Order(r)[|r.slots| - Clamp(n, |r.slots|)..]
  }

  /** The slot read for counter value `i` holds the entry `i` places from the
      newest end of Order (counting the newest as 1). */
  lemma ReplaySlotIsOrder<T>(r: Ring<T>, i: int)
    requires WellFormed(r) && 1 <= i <= |r.slots|
    ensures 0 <= ReplaySlot(r.cursor, |r.slots|, i) < |r.slots|
    ensures r.slots[ReplaySlot(r.cursor, |r.slots|, i)] == Order(r)[|r.slots| - i]
  {
    var c, cur := |r.slots|, r.cursor;
    var o := Order(r);
    if cur + 1 - i >= 0 {
      ModBelowTwice(cur + 1 - i, c);
      assert o[c - i] == r.slots[..cur + 1][c - i - (c - cur - 1)];
    } else {
      ModBelowTwice(cur + c + 1 - i, c);
      assert o[c - i] == r.slots[cur + 1..][c - i];
    }
  }

  /** `(x + c) % c == x` for `0 <= x < c` and `x % c == x` likewise; the
      replay index relies on both. */
  lemma ModBelowTwice(x: int, c: int)
    requires 0 <= x < c
    ensures (x + c) % c == x && x % c == x
  {
  }

  /** A write drops the oldest entry of Order and appends the new one. */
  lemma WriteShiftsOrder<T>(r: Ring<T>, p: T)
    requires WellFormed(r)
    ensures Order(Write(r, p)) == Order(r)[1..] + [p]
  {
    var c, cur := |r.slots|, r.cursor;
    var w := Write(r, p);
    var lhs, rhs := Order(w), Order(r)[1..] + [p];
    assert |lhs| == |rhs|;
    forall j | 0 <= j < c
      ensures lhs[j] == rhs[j]
    {
      if j < c - 1 {
        // both sides name the slot (cur + 2 + j) mod c
        var s := if cur + 2 + j < c then cur + 2 + j else cur + 2 + j - c;
        assert Order(r)[j + 1] == r.slots[s];
        assert lhs[j] == w.slots[s];
        assert s != w.cursor;
      }
    }
  }

  /** After the sends `h` the ring holds exactly the newest |slots| entries
      of its old contents followed by `h`. */
  lemma {:induction false} WriteAllKeepsNewest<T>(r: Ring<T>, h: seq<T>)
    requires WellFormed(r)
    ensures Order(WriteAll(r, h)) == (Order(r) + h)[|h|..]
    decreases |h|
  {
    if h != [] {
      var h', p := h[..|h| - 1], h[|h| - 1];
      var o, w := Order(r), WriteAll(r, h');
      assert h == h' + [p];
      WriteAllKeepsNewest(r, h');
      WriteShiftsOrder(w, p);
      SliceShift(o + h', p, |h'|);
      calc {
        Order(WriteAll(r, h));
        Order(Write(w, p));
        Order(w)[1..] + [p];
        (o + h')[|h'|..][1..] + [p];
        ((o + h') + [p])[|h'| + 1..];
        { assert (o + h') + [p] == o + h; }
        (o + h)[|h|..];
      }
    }
  }

  /** Dropping the first of the newest entries and appending one more. */
  lemma SliceShift<T>(s: seq<T>, p: T, k: nat)
    requires k < |s|
    ensures s[k..][1..] + [p] == (s + [p])[k + 1..]
  {
  }

  /** A slice grows by the element at its end. */
  lemma SliceGrows<T>(s: seq<T>, a: int, b: int)
    requires 0 <= a <= b < |s|
    ensures s[a..b + 1] == s[a..b] + [s[b]]
  {
  }

  /** Down to counter value `i`, the loop has read the stretch of Order that
      starts `n` entries and ends `i` entries before the newest end. */
  lemma {:induction false} LoopReadsIsOrder<T>(r: Ring<T>, n: int, i: int)
    requires WellFormed(r) && 0 <= i <= n <= |r.slots|
    ensures LoopReads(r, n, i) == Order(r)[|r.slots| - n..|r.slots| - i]
    decreases n - i
  {
    if i < n {
      var c := |r.slots|;
      LoopReadsIsOrder(r, n, i + 1);
      ReplaySlotIsOrder(r, i + 1);
      SliceGrows(Order(r), c - n, c - i - 1);
    }
  }

  /** The replay loop, run from the clamped unsent count down to zero,
      reads exactly Replay. */
  lemma LoopReadsIsReplay<T>(r: Ring<T>, n: int)
    requires WellFormed(r)
    ensures LoopReads(r, Clamp(n, |r.slots|), 0) == Replay(r, n)
  {
    LoopReadsIsOrder(r, Clamp(n, |r.slots|), 0);
  }

  /** Replay after at least Clamp(n) sends re-submits exactly the newest
      Clamp(n) sends, oldest first. */
  lemma ReplayIsNewestSends<T>(r: Ring<T>, h: seq<T>, n: int)
    requires WellFormed(r) && Clamp(n, |r.slots|) <= |h|
    ensures Replay(WriteAll(r, h), n) == h[|h| - Clamp(n, |r.slots|)..]
  {
    WriteAllKeepsNewest(r, h);
  }

  /** Capacity 4 after only the sends A, B: an unsent count of 3 reaches
      back past the sends and replays a zero slot of the fresh ring first. */
  lemma FewSendsScenario()
    ensures Replay(WriteAll(Fresh(4, '-'), "AB"), 3) == "-AB"
  {
    WriteAllKeepsNewest(Fresh(4, '-'), "AB");
    assert Order(Fresh(4, '-')) == "----";
  }

  /** Capacity 4, sends A..F: an unsent count of 3 replays D, E, F and an
      unsent count of 10 is clamped to the 4 newest, C, D, E, F. */
  lemma CapacityFourScenario()
    ensures Replay(WriteAll(Fresh(4, '-'), "ABCDEF"), 3) == "DEF"
    ensures Replay(WriteAll(Fresh(4, '-'), "ABCDEF"), 10) == "CDEF"
  {
    ReplayIsNewestSends(Fresh(4, '-'), "ABCDEF", 3);
    ReplayIsNewestSends(Fresh(4, '-'), "ABCDEF", 10);
  }
}
