/** Scaling of the channels of one node to a target average, over the reals. */
module Volume {
  import opened Basics

  const SILENCE: real := 0.000001
  const MAX_CHANNELS: nat := 64
  const FLOAT_MAX: real := 340282346638528859811704183484516925440.0

  function Sum(values: seq<real>): real {
    if values == [] then 0.0 else Sum(values[..|values| - 1]) + values[|values| - 1]
  }

  function Average(values: seq<real>): real
    requires values != []
  {
    Sum(values) / |values| as real
  }

  function Cube(x: real): real {
    x * x * x
  }

  predicate Acceptable(volumes: seq<real>, target: real) {
    && 0 < |volumes| <= MAX_CHANNELS
    && 0.0 <= target <= 1.0
    && forall i :: 0 <= i < |volumes| ==> volumes[i] >= 0.0
  }

  function Visual(current: real, average: real, target: real): real {
    if average <= SILENCE then target else current * target / average
  }

  // What the user sees after the write: the cube root of what is written.
  function Visuals(volumes: seq<real>, target: real): (r: seq<real>)
    requires volumes != []
    ensures |r| == |volumes|
  {
    seq(|volumes|, i requires 0 <= i < |volumes| => Visual(volumes[i], Average(volumes), target))
  }

  function Cubes(values: seq<real>): (r: seq<real>)
    ensures |r| == |values|
  {
    seq(|values|, i requires 0 <= i < |values| => Cube(values[i]))
  }

  predicate Representable(values: seq<real>) {
    forall i :: 0 <= i < |values| ==> values[i] <= FLOAT_MAX
  }

  function Scaled(volumes: seq<real>, target: real): Option<seq<real>> {
    if !Acceptable(volumes, target) || !Representable(Cubes(Visuals(volumes, target))) then None
    else Some(Cubes(Visuals(volumes, target)))
  }

  method ProportionalCubicVolumes(volumes: seq<real>, target: real) returns (r: Option<seq<real>>)
    ensures r == Scaled(volumes, target)
  {
    if volumes == [] || |volumes| > MAX_CHANNELS || target < 0.0 || target > 1.0 { return None; }
    var k := 0;
    while k < |volumes|
      invariant 0 <= k <= |volumes|
      invariant forall i :: 0 <= i < k ==> volumes[i] >= 0.0
    {
      if volumes[k] < 0.0 { return None; }
      k := k + 1;
    }
    var total := 0.0;
    k := 0;
    while k < |volumes|
      invariant 0 <= k <= |volumes|
      invariant total == Sum(volumes[..k])
    {
      assert volumes[..k + 1][..k] == volumes[..k];
      total := total + volumes[k];
      k := k + 1;
    }
    assert volumes[..k] == volumes;
    var average := total / |volumes| as real;
    var cubic: seq<real> := [];
    ghost var whole := Cubes(Visuals(volumes, target));
    k := 0;
    while k < |volumes|
      invariant 0 <= k <= |volumes|
      invariant cubic == whole[..k] && Representable(cubic)
    {
      var visual := if average <= SILENCE then target else volumes[k] * target / average;
      var written := visual * visual * visual;
      assert written == whole[k];
      if written > FLOAT_MAX { return None; }
      cubic := cubic + [written];
      k := k + 1;
    }
    assert cubic == whole;
    return Some(cubic);
  }

  // ---- Sums ----

  lemma {:induction false} SumScaled(values: seq<real>, scaled: seq<real>, factor: real)
    requires |scaled| == |values|
    requires forall i :: 0 <= i < |values| ==> scaled[i] == values[i] * factor
    ensures Sum(scaled) == Sum(values) * factor
  {
    if values != [] {
      SumScaled(values[..|values| - 1], scaled[..|values| - 1], factor);
    }
  }

  lemma {:induction false} SumConstant(values: seq<real>, c: real)
    requires forall i :: 0 <= i < |values| ==> values[i] == c
    ensures Sum(values) == |values| as real * c
  {
    if values != [] {
      SumConstant(values[..|values| - 1], c);
    }
  }

  lemma {:induction false} SumBounds(values: seq<real>, k: nat)
    requires k < |values|
    requires forall i :: 0 <= i < |values| ==> values[i] >= 0.0
    ensures values[k] <= Sum(values)
  {
    var rest := values[..|values| - 1];
    SumNonNegative(rest);
    if k < |rest| {
      SumBounds(rest, k);
    }
  }

  lemma {:induction false} SumNonNegative(values: seq<real>)
    requires forall i :: 0 <= i < |values| ==> values[i] >= 0.0
    ensures Sum(values) >= 0.0
  {
    if values != [] {
      SumNonNegative(values[..|values| - 1]);
    }
  }

  // ---- Products ----

  lemma DivideBack(a: real, b: real)
    requires b > 0.0
    ensures a / b * b == a && a * b / b == a
  {
  }

  lemma VisualFactor(current: real, average: real, target: real)
    requires average > 0.0
    ensures current * target / average == current * (target / average)
  {
  }

  lemma Reorder(a: real, b: real, c: real)
    ensures (a * b) * c == (a * c) * b == (b * c) * a
  {
  }

  lemma ProductMonotone(a: real, b: real, c: real)
    requires 0.0 <= a <= b && c >= 0.0
    ensures 0.0 <= a * c <= b * c
  {
  }

  lemma AverageTimes(values: seq<real>)
    requires values != []
    ensures Average(values) * |values| as real == Sum(values)
  {
    DivideBack(Sum(values), |values| as real);
  }

  // Audible channels are all multiplied by one factor.
  lemma Factor(volumes: seq<real>, target: real) returns (share: real)
    requires volumes != [] && Average(volumes) > SILENCE && target >= 0.0
    ensures share >= 0.0 && share * Average(volumes) == target
    ensures forall i :: 0 <= i < |volumes| ==> Visuals(volumes, target)[i] == volumes[i] * share
  {
    hide Sum, Average;
    var average := Average(volumes);
    share := target / average;
    DivideBack(target, average);
    forall i | 0 <= i < |volumes|
      ensures Visuals(volumes, target)[i] == volumes[i] * share
    {
      VisualFactor(volumes[i], average, target);
    }
  }

  // ---- What a write does ----

  lemma ScaledSum(volumes: seq<real>, target: real)
    requires Acceptable(volumes, target) && Average(volumes) > SILENCE
    ensures Sum(Visuals(volumes, target)) == target * |volumes| as real
  {
    hide Visuals, Visual, Average, Sum;
    var share := Factor(volumes, target);
    SumScaled(volumes, Visuals(volumes, target), share);
    AverageTimes(volumes);
    WholeShare(Average(volumes), |volumes| as real, share, target);
  }

  lemma WholeShare(average: real, n: real, share: real, target: real)
    requires share * average == target
    ensures (average * n) * share == target * n
  {
    Reorder(average, n, share);
    assert average * share == share * average;
  }

  // The scaled channels average exactly to the target.
  lemma AverageIsTarget(volumes: seq<real>, target: real)
    requires Acceptable(volumes, target)
    ensures Average(Visuals(volumes, target)) == target
  {
    var n := |volumes| as real;
    var average := Average(volumes);
    var scaled := Visuals(volumes, target);
    if average <= SILENCE {
      SumConstant(scaled, target);
      DivideBack(target, n);
    } else {
      ScaledSum(volumes, target);
      DivideBack(target, n);
    }
  }

  // Audible channels keep their ratios; silent ones share the target equally.
  lemma RatiosKept(volumes: seq<real>, target: real, i: nat, j: nat)
    requires Acceptable(volumes, target) && i < |volumes| && j < |volumes|
    ensures var scaled := Visuals(volumes, target);
            if Average(volumes) > SILENCE then scaled[i] * volumes[j] == scaled[j] * volumes[i]
            else scaled[i] == scaled[j] == target
  {
    if Average(volumes) > SILENCE {
      var share := Factor(volumes, target);
      hide Visuals, Visual, Average;
      Reorder(volumes[i], share, volumes[j]);
      Reorder(volumes[j], share, volumes[i]);
    }
  }

  lemma ChannelBound(volumes: seq<real>, target: real, i: nat)
    requires Acceptable(volumes, target) && i < |volumes|
    ensures 0.0 <= Visuals(volumes, target)[i] <= |volumes| as real * target
    ensures Visuals(volumes, target)[i] <= 64.0 * target
  {
    hide Visuals, Average, Visual;
    var n := |volumes| as real;
    if Average(volumes) > SILENCE {
      AudibleBound(volumes, target, i);
    } else {
      SilentChannels(volumes, target);
      ProductMonotone(1.0, n, target);
    }
    AtMostAll(Visuals(volumes, target)[i], n, target);
  }

  lemma AtMostAll(channel: real, n: real, target: real)
    requires channel <= n * target && 0.0 <= n <= 64.0 && target >= 0.0
    ensures channel <= 64.0 * target
  {
    ProductMonotone(n, 64.0, target);
  }

  lemma AudibleBound(volumes: seq<real>, target: real, i: nat)
    requires Acceptable(volumes, target) && i < |volumes| && Average(volumes) > SILENCE
    ensures 0.0 <= Visuals(volumes, target)[i] <= |volumes| as real * target
  {
    hide Visual, Visuals, Average, Sum;
    var share := Factor(volumes, target);
    SumBounds(volumes, i);
    AverageTimes(volumes);
    WithinTotal(volumes[i], Average(volumes), |volumes| as real, share, target);
  }

  lemma WithinTotal(current: real, average: real, n: real, share: real, target: real)
    requires 0.0 <= current <= average * n && share >= 0.0 && share * average == target
    ensures 0.0 <= current * share <= n * target
  {
    ProductMonotone(current, average * n, share);
    Reorder(average, n, share);
    assert average * share == share * average && target * n == n * target;
  }

  // The overflow rejection cannot happen: acceptable input is always scaled.
  lemma OverflowUnreachable(volumes: seq<real>, target: real)
    ensures Scaled(volumes, target).Some? <==> Acceptable(volumes, target)
  {
    if Acceptable(volumes, target) {
      var scaled := Visuals(volumes, target);
      forall i | 0 <= i < |volumes|
        ensures Cube(scaled[i]) <= FLOAT_MAX
      {
        ChannelBound(volumes, target, i);
        CubeBound(scaled[i], 64.0);
      }
    }
  }

  lemma CubeBound(x: real, bound: real)
    requires 0.0 <= x <= bound
    ensures Cube(x) <= Cube(bound)
  {
    Products(x, bound, x, bound);
    Products(x * x, bound * bound, x, bound);
  }

  lemma Products(a: real, b: real, c: real, d: real)
    requires 0.0 <= a <= b && 0.0 <= c <= d
    ensures 0.0 <= a * c <= b * d
  {
    ProductMonotone(a, b, c);
    ProductMonotoneRight(b, c, d);
    Between(a * c, b * c, b * d);
  }

  lemma Between(p: real, q: real, r: real)
    requires 0.0 <= p <= q && q <= r
    ensures 0.0 <= p <= r
  {
  }

  lemma ProductMonotoneRight(b: real, c: real, d: real)
    requires b >= 0.0 && 0.0 <= c <= d
    ensures 0.0 <= b * c <= b * d
  {
  }

  // Only one non-negative volume has a given cube: the one read back is the one shown.
  lemma CubeInjective(x: real, y: real)
    requires x >= 0.0 && y >= 0.0 && Cube(x) == Cube(y)
    ensures x == y
  {
    if x < y {
      CubeStrict(x, y);
    } else if y < x {
      CubeStrict(y, x);
    }
  }

  lemma StrictProduct(a: real, b: real, c: real)
    requires a < b && c > 0.0
    ensures a * c < b * c
  {
  }

  lemma CubeStrict(x: real, y: real)
    requires 0.0 <= x < y
    ensures Cube(x) < Cube(y)
  {
    StrictProduct(x, y, y);
    ProductMonotone(x, y, x);
    assert x * y == y * x;
    var small, large := x * x, y * y;
    ProductMonotone(small, large, x);
    StrictProduct(x, y, large);
    assert x * large == large * x && y * large == large * y;
  }

  // ---- Two writes in a row ----

  ghost predicate AllEqual(values: seq<real>) {
    forall i, j :: 0 <= i < |values| && 0 <= j < |values| ==> values[i] == values[j]
  }

  // Reading back what the first write stored and writing again equals writing the second
  // target at once, exactly when the first target was audible or ratios do not matter.
  lemma TwoWrites(volumes: seq<real>, first: real, second: real, read: seq<real>)
    requires Acceptable(volumes, first) && Acceptable(volumes, second)
    requires |read| == |volumes| && (forall i :: 0 <= i < |read| ==> read[i] >= 0.0)
    requires Cubes(read) == Cubes(Visuals(volumes, first))
    ensures Visuals(read, second) == Visuals(volumes, second)
            <==> first > SILENCE || Average(volumes) <= SILENCE || second == 0.0 || AllEqual(volumes)
  {
    var shown := Visuals(volumes, first);
    forall i | 0 <= i < |read|
      ensures read[i] == shown[i]
    {
      ChannelBound(volumes, first, i);
      assert Cubes(read)[i] == Cubes(shown)[i];
      CubeInjective(read[i], shown[i]);
    }
    assert read == shown;
    AverageIsTarget(volumes, first);
    if first > SILENCE {
      TwiceAudible(volumes, first, second);
    } else if Average(volumes) > SILENCE {
      SplitAgain(volumes, second);
      assert Visuals(read, second) == Flat(volumes, second);
    }
  }

  function Flat(volumes: seq<real>, value: real): seq<real> {
    seq(|volumes|, i requires 0 <= i < |volumes| => value)
  }

  lemma TwiceAudible(volumes: seq<real>, first: real, second: real)
    requires Acceptable(volumes, first) && Acceptable(volumes, second) && first > SILENCE
    ensures Visuals(Visuals(volumes, first), second) == Visuals(volumes, second)
  {
    hide Visual, Visuals, Average, Sum;
    var shown := Visuals(volumes, first);
    AverageIsTarget(volumes, first);
    var again := Factor(shown, second);
    assert |Visuals(shown, second)| == |Visuals(volumes, second)|;
    if Average(volumes) > SILENCE {
      var one := Factor(volumes, first);
      var direct := Factor(volumes, second);
      SameFactor(one, again, direct, Average(volumes), first, second);
      forall i | 0 <= i < |volumes|
        ensures Visuals(shown, second)[i] == Visuals(volumes, second)[i]
      {
        Associate(volumes[i], one, again);
      }
    } else {
      SilentChannels(volumes, first);
      SilentChannels(volumes, second);
      forall i | 0 <= i < |volumes|
        ensures Visuals(shown, second)[i] == Visuals(volumes, second)[i]
      {
        assert shown[i] == first && first * again == again * first;
      }
    }
    assert Visuals(shown, second) == Visuals(volumes, second);
  }

  lemma Associate(a: real, b: real, c: real)
    ensures (a * b) * c == a * (b * c)
  {
  }

  lemma SilentChannels(volumes: seq<real>, target: real)
    requires volumes != [] && Average(volumes) <= SILENCE
    ensures forall i :: 0 <= i < |volumes| ==> Visuals(volumes, target)[i] == target
  {
  }

  lemma SameFactor(one: real, again: real, direct: real, average: real, first: real, second: real)
    requires average > 0.0 && one * average == first && again * first == second && direct * average == second
    ensures one * again == direct
  {
    Reorder(one, average, again);
    assert (one * again) * average == direct * average;
    Same(one * again, direct, average);
  }

  lemma AverageOfEqual(volumes: seq<real>)
    requires volumes != [] && AllEqual(volumes)
    ensures Average(volumes) == volumes[0]
  {
    hide Sum;
    SumConstant(volumes, volumes[0]);
    AverageTimes(volumes);
    Quotient(volumes[0], |volumes| as real);
  }

  lemma Quotient(a: real, n: real)
    requires n > 0.0
    ensures n * a / n == a
  {
  }

  lemma EqualSplit(volumes: seq<real>, second: real)
    requires Acceptable(volumes, second) && Average(volumes) > SILENCE && AllEqual(volumes)
    ensures Visuals(volumes, second) == Flat(volumes, second)
  {
    hide Visuals, Visual, Average;
    AverageOfEqual(volumes);
    var share := Factor(volumes, second);
    EachSecond(volumes, share, second);
  }

  lemma EachSecond(volumes: seq<real>, share: real, second: real)
    requires volumes != [] && AllEqual(volumes) && share * volumes[0] == second
    ensures forall i :: 0 <= i < |volumes| ==> volumes[i] * share == second
  {
    forall i | 0 <= i < |volumes|
      ensures volumes[i] * share == second
    {
      assert volumes[i] == volumes[0];
    }
  }

  lemma UnequalSplit(volumes: seq<real>, second: real, i: nat, j: nat)
    requires Acceptable(volumes, second) && Average(volumes) > SILENCE
    requires i < |volumes| && j < |volumes| && volumes[i] != volumes[j] && second != 0.0
    ensures Visuals(volumes, second)[i] != Visuals(volumes, second)[j]
  {
    hide Visuals, Visual, Average;
    var share := Factor(volumes, second);
    Apart(volumes[i], volumes[j], share, Average(volumes), second);
  }

  lemma Apart(a: real, b: real, share: real, average: real, second: real)
    requires share >= 0.0 && share * average == second && second != 0.0 && a != b
    ensures a * share != b * share
  {
    assert share > 0.0;
    assert (a - b) * share == a * share - b * share;
    assert (a - b) * share != 0.0;
  }

  lemma NothingAsked(volumes: seq<real>)
    requires Acceptable(volumes, 0.0) && Average(volumes) > SILENCE
    ensures Visuals(volumes, 0.0) == Flat(volumes, 0.0)
  {
    var share := Factor(volumes, 0.0);
    hide Visuals, Visual, Average;
    ZeroFactor(share, Average(volumes));
    forall i | 0 <= i < |volumes|
      ensures Visuals(volumes, 0.0)[i] == 0.0
    {
      assert volumes[i] * share == 0.0;
    }
  }

  lemma SplitAgain(volumes: seq<real>, second: real)
    requires Acceptable(volumes, second) && Average(volumes) > SILENCE
    ensures Visuals(volumes, second) == Flat(volumes, second) <==> second == 0.0 || AllEqual(volumes)
  {
    hide Visuals, Average;
    if second == 0.0 {
      NothingAsked(volumes);
    } else if AllEqual(volumes) {
      EqualSplit(volumes, second);
    } else {
      var i, j :| 0 <= i < |volumes| && 0 <= j < |volumes| && volumes[i] != volumes[j];
      UnequalSplit(volumes, second, i, j);
    }
  }

  lemma ZeroFactor(share: real, average: real)
    requires average > 0.0 && share * average == 0.0
    ensures share == 0.0
  {
  }

  lemma Same(a: real, b: real, n: real)
    requires n > 0.0 && a * n == b * n
    ensures a == b
  {
    assert (a - b) * n == 0.0;
    ZeroFactor(a - b, n);
  }
}
