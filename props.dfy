/** Random scattering of seafloor props (main.js:199-207, 241-258): the
    `randm` helper, the per-kind scale table and the placement drawn for each
    prop. `Math.random()` is passed in as the values it returned. */
module Props {
  import opened World

  /** Horizontal scatter area of the props. */
  const X_MIN: real := -200.0
  const X_MAX: real := 200.0
  const Z_MIN: real := -200.0
  const Z_MAX: real := 200.0

  /** The kinds spawnAntekAntek distinguishes; every other tag falls to Other. */
  datatype PropKind = Coral | Rock | CoralB | Kelp | Other

  /** A value `Math.random()` can return. */
  predicate IsUnit(u: real)
  {
    0.0 <= u < 1.0
  }

  /** The values `Math.random()` can return. */
  type Unit = u: real | IsUnit(u) witness 0.0

  /** `randm(lo, hi)` once `Math.random()` has returned `u`. */
  function Randm(lo: real, hi: real, u: real): (r: real)
    requires IsUnit(u)
    ensures lo <= hi ==> lo <= r <= hi
    ensures lo < hi ==> r < hi
    ensures hi <= lo ==> hi <= r <= lo
    ensures u == 0.0 ==> r == lo
  {
    var d := hi - lo;
    ScaledDraw(u, d);
    lo + Mul(u, d)
  }

  /** A draw scales a span to a point between 0 and the span. */
  lemma ScaledDraw(u: real, d: real)
    requires IsUnit(u)
    ensures d >= 0.0 ==> 0.0 <= Mul(u, d) <= d
    ensures d > 0.0 ==> Mul(u, d) < d
    ensures d <= 0.0 ==> d <= Mul(u, d) <= 0.0
  {
    if d > 0.0 {
      MulMono(d, 0.0, u);
      MulStrict(d, u, 1.0);
      assert Mul(d, u) == Mul(u, d);
    } else if d < 0.0 {
      MulMono(-d, 0.0, u);
      MulMono(-d, u, 1.0);
      assert Mul(-d, u) == -Mul(u, d);
    }
  }

  /** The draw can be read back from the value: randm is a bijection from
      [0, 1) onto [lo, hi) when lo < hi. */
  lemma RandmInverse(lo: real, hi: real, u: real)
    requires IsUnit(u) && lo < hi
    ensures (Randm(lo, hi, u) - lo) / (hi - lo) == u
  {
    var d := hi - lo;
    assert Randm(lo, hi, u) - lo == u * d;
    assert (u * d) / d == u;
  }

  /** Larger draws give larger values. */
  lemma RandmMonotone(lo: real, hi: real, u: real, v: real)
    requires IsUnit(u) && IsUnit(v) && lo < hi && u < v
    ensures Randm(lo, hi, u) < Randm(lo, hi, v)
  {
    var d := hi - lo;
    MulStrict(d, u, v);
    assert Mul(d, u) == Mul(u, d) && Mul(d, v) == Mul(v, d);
  }

  /** The scale interval [s_min, s_max] for each kind. */
  function ScaleRange(kind: PropKind): (range: (real, real))
    ensures 0.0 < range.0 <= range.1
    ensures kind.Kelp? || kind.Other? <==> range.0 == range.1
    ensures range.1 <= 100.0
  {
    match kind
    case Coral => (30.0, 50.0)
    case Rock => (50.0, 100.0)
    case CoralB => (10.0, 25.0)
    case Kelp => (5.0, 5.0)
    case Other => (1.0, 1.0)
  }

  /** `Math.PI * 2` as the double the code computes. */
  const TWO_PI: real := 6.283185307179586

  /** Where a prop lands, how large it is, and its heading about the
      vertical axis. */
  datatype Placement = Placement(x: real, z: real, scale: real, heading: real)

  /** The placement of one prop from the six `Math.random()` values it
      consumes, in the order the code makes them: a first position (two
      draws, immediately overwritten), the scale, the kept position, and the
      heading. */
  function Place(kind: PropKind, u: seq<Unit>): (p: Placement)
    requires |u| == 6
    ensures X_MIN <= p.x < X_MAX && Z_MIN <= p.z < Z_MAX
    ensures ScaleRange(kind).0 <= p.scale <= ScaleRange(kind).1
    ensures 0.0 <= p.heading < TWO_PI
  {
    var (sMin, sMax) := ScaleRange(kind);
    var s := Randm(sMin, sMax, u[2]);
    Placement(Randm(X_MIN, X_MAX, u[3]), Randm(Z_MIN, Z_MAX, u[4]), s, Randm(0.0, TWO_PI, u[5]))
  }

  /** The first position drawn for a prop has no effect on where it lands. */
  lemma FirstPositionDiscarded(kind: PropKind, u: seq<Unit>, a: Unit, b: Unit)
    requires |u| == 6
    ensures Place(kind, u[0 := a][1 := b]) == Place(kind, u)
  {
  }
}
