/** The searches of tools/protocol_rates.py over exact reals: a logarithmic grid refined by a golden
    section (`best_over`), and the bisection of `max_distance`. */
module GoldenSection {
  import opened Series

  const GRID_POINTS := 61
  const GOLDEN_STEPS := 48

  /** The golden ratio conjugate, by what is used of it. */
  predicate Golden(phi: real) { 0.5 < phi < 1.0 && phi * phi == 1.0 - phi }

  function Grid(lo: real, ratio: real, i: nat): real { lo * Pow(ratio, i) }

  /** fn rises strictly up to `m` and falls strictly after it. */
  ghost predicate Unimodal(fn: real -> real, lo: real, hi: real, m: real) {
    && lo <= m <= hi
    && (forall x, y :: lo <= x < y <= m ==> fn(x) < fn(y))
    && (forall x, y :: m <= x < y <= hi ==> fn(x) > fn(y))
  }

  function Left(a: real, b: real, phi: real): real { b - phi * (b - a) }

  function Right(a: real, b: real, phi: real): real { a + phi * (b - a) }

  // ------------------------------------------------------------ the golden positions

  /** Dropping the right part keeps the left probe as the new right probe, and mirrored. */
  lemma Reuse(a: real, b: real, phi: real)
    requires Golden(phi)
    ensures Right(a, Right(a, b, phi), phi) == Left(a, b, phi)
    ensures Left(Left(a, b, phi), b, phi) == Right(a, b, phi)
    ensures Right(a, b, phi) - a == phi * (b - a) && b - Left(a, b, phi) == phi * (b - a)
  {
    var w := b - a;
    assert phi * (phi * w) == (1.0 - phi) * w;
  }

  lemma Inside(a: real, b: real, phi: real)
    requires Golden(phi) && a < b
    ensures a < Left(a, b, phi) < Right(a, b, phi) < b
  {
    var w := b - a;
    Positive(phi, w, phi * w);
    var rest, mid := 1.0 - phi, phi - 0.5;
    Positive(rest, w, rest * w);
    Positive(mid, w, mid * w);
    assert rest * w == w - phi * w && mid * w == phi * w - 0.5 * w;
  }

  // ------------------------------------------------------------ the grid

  lemma {:induction false} GridRises(lo: real, ratio: real, i: nat, j: nat)
    requires lo > 0.0 && ratio > 1.0 && i < j
    ensures 0.0 < Grid(lo, ratio, i) < Grid(lo, ratio, j)
    decreases j
  {
    PowPositive(ratio, i);
    PowPositive(ratio, j - 1);
    Positive(lo, Pow(ratio, i), Grid(lo, ratio, i));
    var p, up := Grid(lo, ratio, j - 1), ratio - 1.0;
    Positive(lo, Pow(ratio, j - 1), p);
    Positive(up, p, up * p);
    assert lo * (ratio * Pow(ratio, j - 1)) == ratio * p;
    assert Grid(lo, ratio, j) == p + up * p;
    if i < j - 1 {
      GridRises(lo, ratio, i, j - 1);
    }
  }

  /** fn has a single peak between the ends of the grid. */
  ghost predicate Peak(fn: real -> real, lo: real, ratio: real, m: real) {
    Unimodal(fn, Grid(lo, ratio, 0), Grid(lo, ratio, GRID_POINTS - 1), m)
  }

  /** `i` is one of the best grid points. */
  ghost predicate BestGrid(fn: real -> real, lo: real, ratio: real, i: nat) {
    i < GRID_POINTS && forall k :: 0 <= k < GRID_POINTS ==> fn(Grid(lo, ratio, k)) <= fn(Grid(lo, ratio, i))
  }

  function GridLow(i: nat): nat { if i == 0 then 0 else i - 1 }

  function GridHigh(i: nat): nat { if i + 1 < GRID_POINTS then i + 1 else GRID_POINTS - 1 }

  /** The peak lies between the neighbours of the best grid point. */
  lemma PeakNearBest(fn: real -> real, lo: real, ratio: real, i: nat, m: real)
    requires lo > 0.0 && ratio > 1.0 && BestGrid(fn, lo, ratio, i)
    requires Peak(fn, lo, ratio, m)
    ensures Grid(lo, ratio, GridLow(i)) <= m <= Grid(lo, ratio, GridHigh(i))
  {
    var x := Grid(lo, ratio, i);
    if i > 0 {
      var before := Grid(lo, ratio, i - 1);
      GridRises(lo, ratio, i - 1, i);
      if i < GRID_POINTS - 1 { GridRises(lo, ratio, i, GRID_POINTS - 1); }
      assert fn(before) <= fn(x);
    }
    if i < GRID_POINTS - 1 {
      var after := Grid(lo, ratio, i + 1);
      GridRises(lo, ratio, i, i + 1);
      if i > 0 { GridRises(lo, ratio, 0, i); }
      assert fn(after) <= fn(x);
    }
  }

  // ------------------------------------------------------------ the search

  /** What the loop of the golden section keeps; `a0` and `b0` are the ends it started from. */
  ghost predicate Bracket(fn: real -> real, phi: real, a0: real, b0: real, k: nat,
                          a: real, b: real, c: real, d: real, fc: real, fd: real) {
    && a0 <= a < b <= b0 && b - a == Pow(phi, k) * (b0 - a0)
    && c == Left(a, b, phi) && d == Right(a, b, phi) && fc == fn(c) && fd == fn(d)
    && (a == a0 || fn(a) <= fc || fn(a) <= fd) && (b == b0 || fn(b) <= fc || fn(b) <= fd)
  }

  lemma Narrowed(phi: real, k: nat, w0: real, w: real)
    requires w == Pow(phi, k) * w0
    ensures phi * w == Pow(phi, k + 1) * w0
  {
  }

  lemma DropRight(fn: real -> real, phi: real, a0: real, b0: real, k: nat, a: real, b: real, c: real, d: real,
                  fc: real, fd: real)
    requires Golden(phi) && Bracket(fn, phi, a0, b0, k, a, b, c, d, fc, fd) && fc > fd
    ensures Bracket(fn, phi, a0, b0, k + 1, a, d, Left(a, d, phi), c, fn(Left(a, d, phi)), fc)
    ensures forall m :: Unimodal(fn, a0, b0, m) && a <= m <= b ==> m <= d
  {
    Inside(a, b, phi);
    Reuse(a, b, phi);
    Narrowed(phi, k, b0 - a0, b - a);
    forall m | Unimodal(fn, a0, b0, m) && a <= m <= b ensures m <= d {
      assert m > d ==> fn(c) < fn(d);
    }
  }

  lemma DropLeft(fn: real -> real, phi: real, a0: real, b0: real, k: nat, a: real, b: real, c: real, d: real, fc: real,
                 fd: real)
    requires Golden(phi) && Bracket(fn, phi, a0, b0, k, a, b, c, d, fc, fd) && fc <= fd
    ensures Bracket(fn, phi, a0, b0, k + 1, c, b, d, Right(c, b, phi), fd, fn(Right(c, b, phi)))
    ensures forall m :: Unimodal(fn, a0, b0, m) && a <= m <= b ==> c <= m
  {
    Inside(a, b, phi);
    Reuse(a, b, phi);
    Narrowed(phi, k, b0 - a0, b - a);
    forall m | Unimodal(fn, a0, b0, m) && a <= m <= b ensures c <= m {
      assert m < c ==> fn(c) > fn(d);
    }
  }

  /** The width the golden section ends with. */
  function Shrunk(phi: real, a0: real, b0: real): real { Pow(phi, GOLDEN_STEPS) * (b0 - a0) }

  /** The refinement of `best_over`: `v` is a real sample, and a peak in the starting bracket is
      still in the final one, whose width is phi^48 of the first. */
  method Refine(fn: real -> real, phi: real, a0: real, b0: real)
    returns (v: real, at: real, ghost a: real, ghost b: real)
    requires Golden(phi) && a0 < b0
    ensures v == fn(at) && a0 <= a < at < b <= b0
    ensures b - a == Shrunk(phi, a0, b0)
    ensures (a == a0 || fn(a) <= v) && (b == b0 || fn(b) <= v)
    ensures forall m :: Unimodal(fn, a0, b0, m) ==> a <= m <= b
  {
    var x, y := a0, b0;
    var c, d := Left(x, y, phi), Right(x, y, phi);
    var fc, fd := fn(c), fn(d);
    for k := 0 to GOLDEN_STEPS
      invariant Bracket(fn, phi, a0, b0, k, x, y, c, d, fc, fd)
      invariant forall m :: Unimodal(fn, a0, b0, m) ==> x <= m <= y
    {
      if fc > fd {
        DropRight(fn, phi, a0, b0, k, x, y, c, d, fc, fd);
        y, d, fd := d, c, fc;
        c := Left(x, y, phi);
        fc := fn(c);
      } else {
        DropLeft(fn, phi, a0, b0, k, x, y, c, d, fc, fd);
        x, c, fc := c, d, fd;
        d := Right(x, y, phi);
        fd := fn(d);
      }
    }
    Inside(x, y, phi);
    a, b := x, y;
    at := if fc > fd then c else d;
    v := if fc > fd then fc else fd;
  }

  /** What is left of a peak's neighbourhood outside the final bracket is lower than the samples. */
  lemma FallbackIsInside(fn: real -> real, a0: real, b0: real, a: real, b: real, v: real, x: real, m: real)
    requires a0 <= x <= b0 && a0 <= a <= m <= b <= b0 && Unimodal(fn, a0, b0, m)
    requires (a == a0 || fn(a) <= v) && (b == b0 || fn(b) <= v) && v < fn(x)
    ensures a <= x <= b
  {
    assert x < a ==> fn(x) < fn(a);
    assert x > b ==> fn(x) < fn(b);
  }

  ghost predicate Near(at: real, m: real, width: real) { -width <= at - m <= width }

  lemma UnimodalPart(fn: real -> real, lo: real, hi: real, a: real, b: real, m: real)
    requires Unimodal(fn, lo, hi, m) && lo <= a <= m <= b <= hi
    ensures Unimodal(fn, a, b, m)
  {
  }

  /** How close to the peak the search comes: phi^48 of the width of the grid neighbourhood. */
  function Accuracy(lo: real, ratio: real, phi: real, i: nat): real {
    Shrunk(phi, Grid(lo, ratio, GridLow(i)), Grid(lo, ratio, GridHigh(i)))
  }

  /** Both candidates for the result lie in the final bracket, together with the peak. */
  lemma CloseToPeak(fn: real -> real, lo: real, ratio: real, i: nat, a: real, b: real, v: real, m: real)
    requires lo > 0.0 && ratio > 1.0 && BestGrid(fn, lo, ratio, i) && Peak(fn, lo, ratio, m)
    requires var a0, b0 := Grid(lo, ratio, GridLow(i)), Grid(lo, ratio, GridHigh(i));
             a0 <= a < b <= b0 && (Unimodal(fn, a0, b0, m) ==> a <= m <= b)
             && (a == a0 || fn(a) <= v) && (b == b0 || fn(b) <= v)
    ensures a <= m <= b && (v < fn(Grid(lo, ratio, i)) ==> a <= Grid(lo, ratio, i) <= b)
  {
    var a0, b0, x := Grid(lo, ratio, GridLow(i)), Grid(lo, ratio, GridHigh(i)), Grid(lo, ratio, i);
    BracketInGrid(lo, ratio, i);
    PeakNearBest(fn, lo, ratio, i, m);
    UnimodalPart(fn, Grid(lo, ratio, 0), Grid(lo, ratio, GRID_POINTS - 1), a0, b0, m);
    if v < fn(x) { FallbackIsInside(fn, a0, b0, a, b, v, x, m); }
  }

  lemma FoundPeak(fn: real -> real, lo: real, ratio: real, phi: real, i: nat, a: real, b: real, v: real, at: real,
                  m: real)
    requires lo > 0.0 && ratio > 1.0 && BestGrid(fn, lo, ratio, i) && Peak(fn, lo, ratio, m)
    requires var a0, b0 := Grid(lo, ratio, GridLow(i)), Grid(lo, ratio, GridHigh(i));
             a0 <= a < b <= b0 && (Unimodal(fn, a0, b0, m) ==> a <= m <= b)
             && (a == a0 || fn(a) <= v) && (b == b0 || fn(b) <= v)
    requires b - a == Accuracy(lo, ratio, phi, i)
    requires a <= at <= b || (v < fn(Grid(lo, ratio, i)) && at == Grid(lo, ratio, i))
    ensures Near(at, m, Accuracy(lo, ratio, phi, i))
  {
    CloseToPeak(fn, lo, ratio, i, a, b, v, m);
  }

  method BestOnGrid(fn: real -> real, lo: real, ratio: real) returns (bestV: real, bestI: nat)
    ensures BestGrid(fn, lo, ratio, bestI) && bestV == fn(Grid(lo, ratio, bestI))
  {
    bestI, bestV := 0, fn(Grid(lo, ratio, 0));
    for k := 0 to GRID_POINTS
      invariant bestI < GRID_POINTS && bestV == fn(Grid(lo, ratio, bestI))
      invariant forall j :: 0 <= j < k ==> fn(Grid(lo, ratio, j)) <= bestV
    {
      var w := fn(Grid(lo, ratio, k));
      if w > bestV {
        bestV, bestI := w, k;
      }
    }
  }

  /** `best_over`: the result is a real sample at least as good as all grid points; of a function
      with a single peak it finds the peak up to `Accuracy`. */
  method BestOver(fn: real -> real, lo: real, ratio: real, phi: real) returns (v: real, at: real, ghost i: nat)
    requires lo > 0.0 && ratio > 1.0 && Golden(phi)
    ensures v == fn(at) && BestGrid(fn, lo, ratio, i) && v >= fn(Grid(lo, ratio, i))
    ensures Grid(lo, ratio, 0) <= at <= Grid(lo, ratio, GRID_POINTS - 1)
    ensures forall m :: Peak(fn, lo, ratio, m) ==> Near(at, m, Accuracy(lo, ratio, phi, i))
  {
    var bestV, bestI := BestOnGrid(fn, lo, ratio);
    BracketInGrid(lo, ratio, bestI);
    var a0, b0 := Grid(lo, ratio, GridLow(bestI)), Grid(lo, ratio, GridHigh(bestI));
    ghost var a, b;
    v, at, a, b := Refine(fn, phi, a0, b0);
    i := bestI;
    ghost var refined := v;
    if v < bestV {
      v, at := bestV, Grid(lo, ratio, bestI);
    }
    forall m | Peak(fn, lo, ratio, m) ensures Near(at, m, Accuracy(lo, ratio, phi, i)) {
      FoundPeak(fn, lo, ratio, phi, i, a, b, refined, at, m);
    }
  }

  lemma BracketInGrid(lo: real, ratio: real, i: nat)
    requires lo > 0.0 && ratio > 1.0 && i < GRID_POINTS
    ensures Grid(lo, ratio, 0) <= Grid(lo, ratio, GridLow(i)) <= Grid(lo, ratio, i)
    ensures Grid(lo, ratio, i) <= Grid(lo, ratio, GridHigh(i)) <= Grid(lo, ratio, GRID_POINTS - 1)
    ensures Grid(lo, ratio, GridLow(i)) < Grid(lo, ratio, GridHigh(i))
  {
    if i > 0 { GridRises(lo, ratio, i - 1, i); }
    if i > 1 { GridRises(lo, ratio, 0, i - 1); }
    if i < GRID_POINTS - 1 { GridRises(lo, ratio, i, i + 1); }
    if i < GRID_POINTS - 2 { GridRises(lo, ratio, i + 1, GRID_POINTS - 1); }
  }

  // ------------------------------------------------------------ the longest fibre

  /** Key at one length means key at every shorter one. */
  ghost predicate FallsOff(positive: real -> bool) {
    forall x, y :: 0.0 <= y <= x && positive(x) ==> positive(y)
  }

  /** The nearest whole number, the even one of two. */
  function Nearest(y: real): int {
    var t := y.Floor;
    var rest := y - t as real;
    if rest < 0.5 || (rest == 0.5 && t % 2 == 0) then t else t + 1
  }

  lemma NearestIsNear(y: real, t: int)
    ensures t == Nearest(y) <==> -0.5 <= y - t as real <= 0.5 && (y - t as real in {-0.5, 0.5} ==> t % 2 == 0)
  {
  }

  /** `round(x, 1)` */
  function ToTenth(x: real): real { Nearest(x * 10.0) as real / 10.0 }

  lemma TenthIsNear(x: real)
    ensures x - 0.05 <= ToTenth(x) <= x + 0.05
  {
    NearestIsNear(x * 10.0, Nearest(x * 10.0));
  }

  /** `max_distance`: the length before rounding has key and lies within 0.1 km below one that has none,
      unless there is key nowhere or at the top. If key falls off with the length, that is the end of it. */
  method MaxDistance(positive: real -> bool, top: real) returns (km: real, ghost far: real)
    requires top > 0.0
    ensures 0.0 <= far <= top && (positive(0.0) ==> positive(far))
    ensures !positive(0.0) ==> km == far == 0.0
    ensures positive(0.0) && positive(top) ==> km == far == top
    ensures positive(0.0) && !positive(top) ==>
              km == Nearest(far * 10.0) as real / 10.0 && far - 0.05 <= km <= far + 0.05
    ensures positive(0.0) && !positive(top) ==> exists hi :: far < hi <= far + 0.1 && hi <= top && !positive(hi)
    ensures FallsOff(positive) && positive(0.0) && !positive(top) ==>
              forall x :: (0.0 <= x <= far ==> positive(x)) && (x >= far + 0.1 ==> !positive(x))
  {
    if !positive(0.0) {
      return 0.0, 0.0;
    }
    var lo, hi := 0.0, top;
    if positive(hi) {
      return hi, hi;
    }
    while hi - lo > 0.1
      invariant 0.0 <= lo < hi <= top && positive(lo) && !positive(hi)
      decreases ((hi - lo) * 20.0).Floor
    {
      var mid := (lo + hi) / 2.0;
      if positive(mid) {
        lo := mid;
      } else {
        hi := mid;
      }
    }
    TenthIsNear(lo);
    km, far := ToTenth(lo), lo;
  }
}
