// The bounded output log kept per process (src/process/buffer.rs): a FIFO
// of lines that drops its oldest line when a push finds it at capacity.

module OutputBuffer {

  function Min(a: nat, b: nat): nat { if a <= b then a else b }

  /// The lines a buffer holds after `push(line)` when it held `lines`:
  /// a full buffer first drops its front line (a no-op when it is empty),
  /// then the new line goes to the back.
  function Pushed(lines: seq<string>, capacity: nat, line: string): seq<string>
  {
    if |lines| >= capacity then (if |lines| > 0 then lines[1..] else []) + [line]
    else lines + [line]
  }

  /// The last `min(n, |lines|)` lines, in their original order.
  function LastN(lines: seq<string>, n: nat): seq<string>
  {
    lines[|lines| - Min(n, |lines|)..]
  }

  /// The most lines a buffer of this capacity can hold: a capacity of zero
  /// still keeps the line just pushed.
  function Bound(capacity: nat): nat { if capacity == 0 then 1 else capacity }

  lemma PushedWithinBound(lines: seq<string>, capacity: nat, line: string)
    requires |lines| <= Bound(capacity)
    ensures |Pushed(lines, capacity, line)| <= Bound(capacity)
    ensures capacity == 0 ==> Pushed(lines, capacity, line) == [line]
  {
  }

  /// Push appends at the back and keeps the order of what it keeps.
  lemma PushedAppends(lines: seq<string>, capacity: nat, line: string)
    ensures var r := Pushed(lines, capacity, line);
      |r| > 0 && r[|r| - 1] == line && r[..|r| - 1] == LastN(lines, |r| - 1)
  {
  }

  /// Below capacity nothing is dropped.
  lemma PushedBelowCapacity(lines: seq<string>, capacity: nat, line: string)
    requires |lines| < capacity
    ensures Pushed(lines, capacity, line) == lines + [line]
  {
  }

  /// On a full buffer exactly the oldest line goes: the result is the last
  /// `capacity` lines of the old contents followed by the new line.
  lemma PushedWhenFull(lines: seq<string>, capacity: nat, line: string)
    requires capacity >= 1 && |lines| == capacity
    ensures Pushed(lines, capacity, line) == LastN(lines + [line], capacity)
    ensures Pushed(lines, capacity, line) == lines[1..] + [line]
  {
    assert (lines + [line])[|lines| + 1 - capacity..] == lines[1..] + [line];
  }

  lemma LastNProperties(lines: seq<string>, n: nat)
    ensures |LastN(lines, n)| == Min(n, |lines|)
    ensures n == 0 ==> LastN(lines, n) == []
    ensures n >= |lines| ==> LastN(lines, n) == lines
    ensures lines == lines[..|lines| - Min(n, |lines|)] + LastN(lines, n)
  {
  }

  /// Taking the last n of the last m is taking the last min(n, m).
  lemma LastNOfLastN(lines: seq<string>, n: nat, m: nat)
    ensures LastN(LastN(lines, m), n) == LastN(lines, Min(n, m))
  {
  }

  class CircularBuffer {
    var lines: seq<string>
    const capacity: nat

    ghost predicate Valid()
      reads this
    {
      |lines| <= Bound(capacity)
    }

    constructor (capacity: nat)
      ensures Valid() && this.capacity == capacity && lines == []
    {
      this.capacity := capacity;
      lines := [];
    }

    method Push(line: string)
      requires Valid()
      modifies this
      ensures Valid()
      ensures lines == Pushed(old(lines), capacity, line)
    {
      if |lines| >= capacity {
        if |lines| > 0 {
          lines := lines[1..];
        }
      }
      lines := lines + [line];
    }

    method GetLastN(n: nat) returns (r: seq<string>)
      ensures r == LastN(lines, n)
    {
      var len := |lines|;
      var take := if n < len then n else len;
      r := lines[len - take..];
    }

    method GetAll() returns (r: seq<string>)
      ensures r == lines
    {
      r := lines;
    }

    method Clear()
      modifies this
      ensures Valid() && lines == []
    {
      lines := [];
    }

    method Len() returns (n: nat)
      ensures n == |lines|
    {
      n := |lines|;
    }
  }
}
