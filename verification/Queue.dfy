/** The scaling signal: internal/queue. The metrics client is an arbitrary list or an error. */
module Queue {
  import opened Api

  /** Whole requests in a list of per-pod milli-values, before any 64-bit wrap. */
  function WholeRequests(values: seq<int64>): int {
    if values == [] then 0
    else WholeRequests(values[..|values| - 1]) + TruncDiv(values[|values| - 1], 1000)
  }

  function MilliTotal(values: seq<int64>): int {
    if values == [] then 0
    else MilliTotal(values[..|values| - 1]) + values[|values| - 1]
  }

  /** What reading the metric amounts to. */
  function DepthOf(read: Result<seq<int64>>): Result<int32> {
    match read
    case Err => Err
    case Ok(values) =>
      var total := Wrap64(WholeRequests(values));
      if total < 0 then Err else Ok(Min(total, INT32_MAX))
  }

  lemma WrapAdd(x: int, y: int)
    ensures Wrap64(Wrap64(x) + y) == Wrap64(x + y)
  {
    var k := (x + 0x8000_0000_0000_0000) / 0x1_0000_0000_0000_0000;
    assert x == Wrap64(x) + k * 0x1_0000_0000_0000_0000;
    assert x + y + 0x8000_0000_0000_0000
        == (Wrap64(x) + y + 0x8000_0000_0000_0000) + k * 0x1_0000_0000_0000_0000;
  }

  /** The accumulating loop, on a wrapping 64-bit total. */
  method Depth(read: Result<seq<int64>>) returns (depth: Result<int32>)
    ensures depth == DepthOf(read)
  {
    if read.Err? {
      return Err;
    }
    var values := read.value;
    var total: int64 := 0;
    for i := 0 to |values|
      invariant total == Wrap64(WholeRequests(values[..i]))
    {
      assert values[..i + 1][..i] == values[..i];
      WrapAdd(WholeRequests(values[..i]), TruncDiv(values[i], 1000));
      total := Wrap64(total + TruncDiv(values[i], 1000));
    }
    assert values[..|values|] == values;
    if total < 0 {
      return Err;
    }
    return Ok(Min(total, INT32_MAX));
  }

  /** One pod counts its whole requests, rounded toward zero. */
  lemma OnePod(v: int64)
    ensures var n := WholeRequests([v]);
            && (v >= 0 ==> n >= 0 && 1000 * n <= v < 1000 * (n + 1))
            && (v <= 0 ==> n <= 0 && 1000 * (n - 1) < v <= 1000 * n)
  {
    var one: seq<int64> := [v];
    assert one[..0] == [];
    assert WholeRequests(one) == WholeRequests([]) + TruncDiv(v, 1000);
  }

  /** The reading is an error exactly if there is none or the 64-bit total is negative; otherwise it is
      that total, saturated at 31 bits. */
  lemma DepthOfTotal(read: Result<seq<int64>>, total: int, wraps: int)
    requires read.Ok? ==> WholeRequests(read.value) == total + wraps * 0x1_0000_0000_0000_0000
    requires -0x8000_0000_0000_0000 <= total < 0x8000_0000_0000_0000
    ensures DepthOf(read).Err? <==> read.Err? || total < 0
    ensures DepthOf(read).Ok? ==> DepthOf(read).value == if total > 0x7FFF_FFFF then 0x7FFF_FFFF else total
  {
    if read.Ok? {
      assert Wrap64(WholeRequests(read.value)) == total;
    }
  }

  lemma {:induction false} WholeRequestsConcat(a: seq<int64>, b: seq<int64>)
    ensures WholeRequests(a + b) == WholeRequests(a) + WholeRequests(b)
  {
    if b == [] {
      assert a + b == a;
    } else {
      assert (a + b)[..|a + b| - 1] == a + b[..|b| - 1];
      WholeRequestsConcat(a, b[..|b| - 1]);
    }
  }

  lemma {:induction false} WholeRequestsPermutes(a: seq<int64>, b: seq<int64>)
    requires multiset(a) == multiset(b)
    ensures WholeRequests(a) == WholeRequests(b)
  {
    if a == [] {
      assert |multiset(b)| == 0;
    } else {
      var n := |a| - 1;
      assert a == a[..n] + [a[n]];
      assert a[n] in multiset(b);
      var k :| 0 <= k < |b| && b[k] == a[n];
      var rest := b[..k] + b[k + 1..];
      assert b == b[..k] + [b[k]] + b[k + 1..];
      assert multiset(rest) == multiset(b) - multiset{b[k]};
      assert multiset(a[..n]) == multiset(a) - multiset{a[n]};
      WholeRequestsPermutes(a[..n], rest);
      WholeRequestsConcat(b[..k], b[k + 1..]);
      WholeRequestsConcat(b[..k], [b[k]]);
      WholeRequestsConcat(b[..k] + [b[k]], b[k + 1..]);
      assert [b[k]][..0] == [];
      assert WholeRequests([b[k]]) == WholeRequests([]) + TruncDiv(b[k], 1000);
    }
  }

  /** The order in which the adapter lists the pods never matters, wrap and sign included. */
  lemma DepthOrderIndependent(a: seq<int64>, b: seq<int64>)
    requires multiset(a) == multiset(b)
    ensures DepthOf(Ok(a)) == DepthOf(Ok(b))
  {
    WholeRequestsPermutes(a, b);
  }

  ghost predicate NonNegative(values: seq<int64>) {
    forall i | 0 <= i < |values| :: values[i] >= 0
  }

  lemma {:induction false} RoundingLoss(values: seq<int64>)
    requires NonNegative(values)
    ensures 0 <= WholeRequests(values)
    ensures 0 <= MilliTotal(values) - 1000 * WholeRequests(values) <= 999 * |values|
  {
    if values != [] {
      RoundingLoss(values[..|values| - 1]);
    }
  }

  /** For readings that cannot be negative and fit 64 bits the depth is the saturated sum of the
      per-pod floors; below saturation it misses less than one request per pod. */
  lemma DepthIsSaturatedSum(values: seq<int64>)
    requires NonNegative(values) && WholeRequests(values) <= INT64_MAX
    ensures DepthOf(Ok(values)) == Ok(Min(WholeRequests(values), INT32_MAX))
    ensures WholeRequests(values) < INT32_MAX && values != [] ==>
              var depth := DepthOf(Ok(values)).value;
              1000 * depth <= MilliTotal(values) < 1000 * (depth + |values|)
  {
    RoundingLoss(values);
  }
}
