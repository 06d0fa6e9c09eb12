/** Small building blocks shared by the decoder and the chart widget:
    optional values, results, Java's 32-bit int and the running maximum
    that both classes compute with a loop. */
module Common {

  datatype Option<+T> = None | Some(value: T)

  datatype Result<+T, +E> = Ok(value: T) | Err(error: E)

  /** Integer.MIN_VALUE and Integer.MAX_VALUE. */
  const IntMin: int := -0x8000_0000
  const IntMax: int := 0x7fff_ffff

  predicate IsInt32(v: int) {
    IntMin <= v <= IntMax
  }

  /** Narrowing a Java long to int keeps the low 32 bits (two's complement). */
  function Int32Of(v: int): (r: int)
    ensures IsInt32(r)
    ensures (r - v) % 0x1_0000_0000 == 0
    ensures IsInt32(v) ==> r == v
  {
    (v - IntMin) % 0x1_0000_0000 + IntMin
  }

  /** The value of `m` after the loop
        for (x : s) if (x > m) m = x;
      the running-maximum idiom of both ChartData and ChartView. */
  function RunningMax(m: int, s: seq<int>): int
  {
    if s == [] then m
    else
      var p := RunningMax(m, s[..|s| - 1]);
      if s[|s| - 1] > p then s[|s| - 1] else p
  }

  /** The running maximum is the maximum of its start value and the elements. */
  lemma {:induction false} RunningMaxIsMax(m: int, s: seq<int>)
    ensures RunningMax(m, s) >= m
    ensures forall k :: 0 <= k < |s| ==> RunningMax(m, s) >= s[k]
    ensures RunningMax(m, s) == m || exists k :: 0 <= k < |s| && RunningMax(m, s) == s[k]
  {
    if s != [] {
      var init := s[..|s| - 1];
      RunningMaxIsMax(m, init);
      assert forall k :: 0 <= k < |s| - 1 ==> s[k] == init[k];
    }
  }
}
