/** A sequence kept in a fixed number of cells that wrap around. */
module RingBuffer {
  /** The ring's live cells in order, which may wrap around the end of the buffer. */
  function Unwrapped<V>(cells: seq<V>, head: nat, size: nat): (live: seq<V>)
    requires head < |cells| && size <= |cells|
    ensures |live| == size
  {
    if head + size <= |cells| then cells[head..head + size] else cells[head..] + cells[..head + size - |cells|]
  }

  function Wrap(i: nat, cap: nat): nat
    requires i < 2 * cap
  {
    if i < cap then i else i - cap
  }

  lemma RingPut<V>(cells: seq<V>, head: nat, size: nat, v: V)
    requires head < |cells| && size < |cells|
    ensures Unwrapped(cells[Wrap(head + size, |cells|) := v], head, size + 1) == Unwrapped(cells, head, size) + [v]
  {
  }

  lemma RingGet<V>(cells: seq<V>, head: nat, size: nat)
    requires head < |cells| && 0 < size <= |cells|
    ensures Unwrapped(cells, head, size)[0] == cells[head]
    ensures Unwrapped(cells, Wrap(head + 1, |cells|), size - 1) == Unwrapped(cells, head, size)[1..]
  {
  }

  /** The next index, as the remainder computes it. */
  function Succ(i: nat, n: nat): (r: nat)
    requires i < n
    ensures r == if i + 1 == n then 0 else i + 1
  {
    (i + 1) % n
  }
}
