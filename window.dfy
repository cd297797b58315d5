/**
 * The capture window of listen_audio: a list of chunks that grows by one
 * chunk per read and drops its oldest chunk once it holds more than its
 * capacity.
 */
module Window {
  import opened Audio

  /** The newest `n` elements of `xs` (all of them when there are fewer). */
  function LastN<T>(xs: seq<T>, n: nat): (r: seq<T>)
    ensures |r| == if |xs| <= n then |xs| else n
    ensures r == xs[|xs| - |r|..]
  {
    if |xs| <= n then xs else xs[|xs| - n..]
  }

  /** `buffer.append(x)`, then `buffer.pop(0)` when the length exceeds the capacity. */
  function Slide<T>(window: seq<T>, x: T, capacity: nat): (r: seq<T>)
    ensures |window| <= capacity ==> |r| <= capacity
    ensures |window| < capacity ==> r == window + [x]
    ensures capacity > 0 ==> |r| > 0 && r[|r| - 1] == x
  {
    var grown := window + [x];
    if |grown| > capacity then grown[1..] else grown
  }

  /** Sliding a window that holds the newest chunks keeps it holding the newest chunks. */
  lemma SlideKeepsNewest<T>(xs: seq<T>, x: T, capacity: nat)
    ensures Slide(LastN(xs, capacity), x, capacity) == LastN(xs + [x], capacity)
  {
  }

  /** The `buffer` list of listen_audio. */
  class SlidingWindow {
    /** `buffer_size`. */
    const capacity: nat
    var chunks: seq<Chunk>

    ghost predicate Valid()
      reads this
    {
      |chunks| <= capacity
    }

    constructor (capacity: nat)
      ensures Valid()
      ensures this.capacity == capacity && chunks == []
    {
      this.capacity := capacity;
      chunks := [];
    }

    /** Appends a chunk, evicts the oldest if over capacity, and reports whether the window is full. */
    method Push(chunk: Chunk) returns (full: bool)
      requires Valid()
      modifies this
      ensures Valid()
      ensures chunks == Slide(old(chunks), chunk, capacity)
      ensures full <==> |chunks| == capacity
    {
      chunks := chunks + [chunk];
      if |chunks| > capacity {
        chunks := chunks[1..];
      }
      full := |chunks| == capacity;
    }

    /** `b''.join(buffer)`. */
    function Snapshot(): (audio: seq<Sample>)
      reads this
    {
      Flatten(chunks)
    }
  }
}
