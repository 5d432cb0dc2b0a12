/**
  Where to put the face on a body shape: the shift of least length, among twelve directions, that
  gives every eye its room. How much room a shift leaves is a function of the trial; the rest of the
  solver follows the code, on reals and before the result is rounded.
*/
module EyeFit {
  import opened Wrappers

  datatype Point = Point(x: real, y: real)

  // ---------------------------------------------------------------- the nearest approach of a contour to a segment

  function Mul(a: real, b: real): real {
    a * b
  }

  function Scale(u: Point, r: real): Point {
    Point(Mul(u.x, r), Mul(u.y, r))
  }

  function Dot(a: Point, b: Point): real {
    Mul(a.x, b.x) + Mul(a.y, b.y)
  }

  function Minus(a: Point, b: Point): Point {
    Point(a.x - b.x, a.y - b.y)
  }

  /** The point at the part `t` of the way from `p` to `q`. */
  function Along(p: Point, q: Point, t: real): Point {
    Point(p.x + Mul(t, q.x - p.x), p.y + Mul(t, q.y - p.y))
  }

  function Distance2(a: Point, b: Point): real {
    Dot(Minus(a, b), Minus(a, b))
  }

  function Clamp(t: real): real {
    if t < 0.0 then 0.0 else if t > 1.0 then 1.0 else t
  }

  /** The part of the segment where the code looks for the point nearest to `c`. */
  function Projected(p: Point, q: Point, c: Point): real {
    var s := Minus(q, p);
    var len2 := Dot(s, s);
    if len2 > 0.0 then Clamp(Dot(Minus(c, p), s) / len2) else 0.0
  }

  lemma OneAxis(a: real, s: real, t: real)
    ensures Mul(a + Mul(t, s), a + Mul(t, s)) == Mul(a, a) + Mul(t, Mul(a, s)) + Mul(t, Mul(a, s)) + Mul(Mul(t, t), Mul(s, s))
  {
  }

  lemma Distributes(t: real, a: real, b: real)
    ensures Mul(t, a + b) == Mul(t, a) + Mul(t, b)
  {
  }

  /** How much the squared distance has changed at the part `t` of a segment of squared length `l`. */
  function Excess(b: real, l: real, t: real): real {
    Mul(t, b) + Mul(t, b) + Mul(Mul(t, t), l)
  }

  lemma Expands(p: Point, q: Point, c: Point, t: real)
    ensures var s, a := Minus(q, p), Minus(p, c);
      Distance2(Along(p, q, t), c) == Dot(a, a) + Excess(Dot(a, s), Dot(s, s), t)
  {
    var s, a := Minus(q, p), Minus(p, c);
    OneAxis(a.x, s.x, t);
    OneAxis(a.y, s.y, t);
    Distributes(t, Mul(a.x, s.x), Mul(a.y, s.y));
    Distributes(Mul(t, t), Mul(s.x, s.x), Mul(s.y, s.y));
    assert Minus(Along(p, q, t), c).x == a.x + Mul(t, s.x);
    assert Minus(Along(p, q, t), c).y == a.y + Mul(t, s.y);
  }

  lemma Differs(b: real, l: real, s: real, t: real)
    ensures Excess(b, l, s) - Excess(b, l, t) == Mul(s - t, b + b + Mul(s + t, l))
  {
  }

  lemma Sign(a: real, b: real)
    requires (a >= 0.0 && b >= 0.0) || (a <= 0.0 && b <= 0.0)
    ensures Mul(a, b) >= 0.0
  {
  }

  lemma LeastBelow(b: real, l: real, s: real)
    requires l > 0.0 && 0.0 <= s && b >= 0.0
    ensures Excess(b, l, 0.0) <= Excess(b, l, s)
  {
    Differs(b, l, s, 0.0);
    Sign(s, l);
    Sign(s, b + b + Mul(s, l));
  }

  lemma LeastAbove(b: real, l: real, s: real)
    requires l > 0.0 && s <= 1.0 && b + l <= 0.0
    ensures Excess(b, l, 1.0) <= Excess(b, l, s)
  {
    Differs(b, l, s, 1.0);
    Sign(1.0 - s, l);
    assert Mul(s + 1.0, l) == l + l - Mul(1.0 - s, l);
    Sign(s - 1.0, b + b + Mul(s + 1.0, l));
  }

  lemma LeastBetween(b: real, l: real, t: real, s: real)
    requires l > 0.0 && Mul(t, l) == -b
    ensures Excess(b, l, t) <= Excess(b, l, s)
  {
    Differs(b, l, s, t);
    assert Mul(s + t, l) == Mul(s - t, l) + Mul(t, l) + Mul(t, l);
    assert Mul(s - t, Mul(s - t, l)) == Mul(Mul(s - t, s - t), l);
    Sign(s - t, s - t);
    Sign(Mul(s - t, s - t), l);
  }

  lemma Quotient(b: real, l: real, r: real)
    requires l > 0.0 && r == (-b) / l
    ensures Mul(r, l) == -b && (r < 0.0 ==> b >= 0.0) && (r > 1.0 ==> b + l <= 0.0)
  {
    assert Mul(r, l) == -b;
    if r < 0.0 {
      Sign(-r, l);
      assert Mul(-r, l) == -Mul(r, l);
    } else if r > 1.0 {
      Sign(r - 1.0, l);
      assert Mul(r - 1.0, l) == Mul(r, l) - l;
    }
  }

  lemma Least(b: real, l: real, n: real, s: real)
    requires l > 0.0 && 0.0 <= s <= 1.0 && n == -b
    ensures Excess(b, l, Clamp(n / l)) <= Excess(b, l, s)
  {
    var r := n / l;
    Quotient(b, l, r);
    if r < 0.0 {
      LeastBelow(b, l, s);
    } else if r > 1.0 {
      LeastAbove(b, l, s);
    } else {
      LeastBetween(b, l, r, s);
    }
  }

  lemma Opposites(x: real)
    ensures Mul(x, x) == Mul(-x, -x)
  {
    assert (-x) * (-x) == x * x;
  }

  lemma Positive(a: real, b: real)
    requires a > 0.0 && b > 0.0
    ensures Mul(a, b) > 0.0
  {
  }

  lemma Square(x: real)
    ensures Mul(x, x) >= 0.0 && (x != 0.0 ==> Mul(x, x) > 0.0)
  {
    Sign(x, x);
    if x > 0.0 {
      Positive(x, x);
    } else if x < 0.0 {
      Positive(-x, -x);
      Opposites(x);
    }
  }

  lemma Facing(p: Point, c: Point, d: Point)
    ensures Dot(Minus(c, p), d) == -Dot(Minus(p, c), d)
  {
  }

  lemma NoLength(p: Point, q: Point)
    requires !(Dot(Minus(q, p), Minus(q, p)) > 0.0)
    ensures p == q
  {
    var d := Minus(q, p);
    Square(d.x);
    Square(d.y);
  }

  lemma StandsStill(p: Point, t: real)
    ensures Along(p, p, t) == p
  {
  }

  /** It is the nearest of the whole segment, even one of no length. */
  lemma ProjectionIsNearest(p: Point, q: Point, c: Point, s: real)
    requires 0.0 <= s <= 1.0
    ensures Distance2(Along(p, q, Projected(p, q, c)), c) <= Distance2(Along(p, q, s), c)
  {
    var d := Minus(q, p);
    if Dot(d, d) > 0.0 {
      Facing(p, c, d);
      Least(Dot(Minus(p, c), d), Dot(d, d), Dot(Minus(c, p), d), s);
      Expands(p, q, c, s);
      Expands(p, q, c, Projected(p, q, c));
    } else {
      NoLength(p, q);
      StandsStill(p, s);
      StandsStill(p, Projected(p, q, c));
    }
  }

  /**
    `approche`, with the distance squared: no point of the contour is nearer to any point of the
    segment, and the vector leads from a contour point to the segment over that distance.
  */
  method Approche(pts: seq<Point>, p: Point, q: Point) returns (best: Option<real>, v: Point)
    ensures best.None? <==> pts == []
    ensures best.Some? ==> forall i, s | 0 <= i < |pts| && 0.0 <= s <= 1.0 :: best.value <= Distance2(Along(p, q, s), pts[i])
    ensures best.Some? ==>
              exists i: nat, s: real :: i < |pts| && 0.0 <= s <= 1.0 && v == Minus(Along(p, q, s), pts[i])
                && best.value == Distance2(Along(p, q, s), pts[i])
  {
    best, v := None, Point(0.0, 0.0);
    ghost var at: nat := 0;
    for i := 0 to |pts|
      invariant best.None? <==> i == 0
      invariant best.Some? ==> forall j, s | 0 <= j < i && 0.0 <= s <= 1.0 :: best.value <= Distance2(Along(p, q, s), pts[j])
      invariant best.Some? ==> at < i && v == Minus(Along(p, q, Projected(p, q, pts[at])), pts[at])
      invariant best.Some? ==> best.value == Distance2(Along(p, q, Projected(p, q, pts[at])), pts[at])
    {
      var e := Minus(Along(p, q, Projected(p, q, pts[i])), pts[i]);
      var d2 := Dot(e, e);
      forall s | 0.0 <= s <= 1.0 ensures d2 <= Distance2(Along(p, q, s), pts[i]) {
        ProjectionIsNearest(p, q, pts[i], s);
      }
      if best.None? || d2 < best.value {
        best, v := Some(d2), e;
        at := i;
      }
    }
    if best.Some? {
      assert 0.0 <= Projected(p, q, pts[at]) <= 1.0;
    }
  }

  // ---------------------------------------------------------------- margins

  /** One trial: the margin a shift leaves on the body, and the margin on the original profile. */
  datatype Trial = Trial(margin: Point -> real, reference: real)

  function Min(a: real, b: real): real {
    if a < b then a else b
  }

  function Max(a: real, b: real): real {
    if a > b then a else b
  }

  /** The tightest margin over all trials. */
  function Marge(trials: seq<Trial>, shift: Point): real
    requires trials != []
  {
    var m := trials[|trials| - 1].margin(shift);
    if |trials| == 1 then m else Min(Marge(trials[..|trials| - 1], shift), m)
  }

  lemma {:induction false} MargeIsTightest(trials: seq<Trial>, shift: Point, least: real)
    requires trials != []
    ensures Marge(trials, shift) >= least <==> forall i :: 0 <= i < |trials| ==> trials[i].margin(shift) >= least
    decreases |trials|
  {
    if |trials| > 1 {
      var shorter := trials[..|trials| - 1];
      MargeIsTightest(shorter, shift, least);
      assert forall i :: 0 <= i < |trials| ==> (i < |shorter| && trials[i] == shorter[i]) || i == |trials| - 1;
    }
  }

  method MargeOf(trials: seq<Trial>, shift: Point) returns (m: real)
    requires trials != []
    ensures m == Marge(trials, shift)
  {
    m := trials[0].margin(shift);
    for i := 1 to |trials|
      invariant m == Marge(trials[..i], shift)
    {
      assert trials[..i + 1][..i] == trials[..i];
      m := Min(m, trials[i].margin(shift));
    }
    assert trials[..|trials|] == trials;
  }

  function Reference(trials: seq<Trial>): real
    requires trials != []
  {
    var r := trials[|trials| - 1].reference;
    if |trials| == 1 then r else Min(Reference(trials[..|trials| - 1]), r)
  }

  method ReferenceOf(trials: seq<Trial>) returns (r: real)
    requires trials != []
    ensures r == Reference(trials)
  {
    r := trials[0].reference;
    for i := 1 to |trials|
      invariant r == Reference(trials[..i])
    {
      assert trials[..i + 1][..i] == trials[..i];
      r := Min(r, trials[i].reference);
    }
    assert trials[..|trials|] == trials;
  }

  // ---------------------------------------------------------------- one direction

  const DICHOTOMIE: nat := 8

  function Half(x: real): real {
    x / 2.0
  }

  function Halved(x: real, n: nat): real {
    if n == 0 then x else Half(Halved(x, n - 1))
  }

  datatype Bracket = Bracket(bas: real, haut: real)

  function Narrowed(trials: seq<Trial>, u: Point, cible: real, b: Bracket): Bracket
    requires trials != []
  {
    var mid := Half(b.bas + b.haut);
    if Marge(trials, Scale(u, mid)) >= cible then b.(haut := mid) else b.(bas := mid)
  }

  function Bisected(trials: seq<Trial>, u: Point, cible: real, course: real, n: nat): Bracket
    requires trials != []
  {
    if n == 0 then Bracket(0.0, course) else Narrowed(trials, u, cible, Bisected(trials, u, cible, course, n - 1))
  }

  /** The target is missed at `bas` and met at `haut`. */
  ghost predicate Brackets(trials: seq<Trial>, u: Point, cible: real, b: Bracket)
    requires trials != []
  {
    Marge(trials, Scale(u, b.bas)) < cible <= Marge(trials, Scale(u, b.haut))
  }

  lemma Halves(x: real)
    ensures Half(x) + Half(x) == x
  {
  }

  lemma MidPoint(a: real, b: real)
    ensures Half(a + b) - a == Half(b - a) && b - Half(a + b) == Half(b - a)
  {
  }

  /** Whatever the margin does in between, every step keeps a bracket, and halves it. */
  lemma {:induction false} BisectionBrackets(trials: seq<Trial>, u: Point, cible: real, course: real, n: nat)
    requires trials != [] && course > 0.0
    requires Brackets(trials, u, cible, Bracket(0.0, course))
    ensures var b := Bisected(trials, u, cible, course, n);
            && Brackets(trials, u, cible, b)
            && 0.0 <= b.bas < b.haut <= course && b.haut - b.bas == Halved(course, n)
  {
    if n > 0 {
      BisectionBrackets(trials, u, cible, course, n - 1);
      var b := Bisected(trials, u, cible, course, n - 1);
      MidPoint(b.bas, b.haut);
      Halves(b.haut - b.bas);
    }
  }

  /** Once far enough, always far enough. */
  ghost predicate MonotoneAlong(trials: seq<Trial>, u: Point, cible: real)
    requires trials != []
  {
    forall r, s | r <= s && Marge(trials, Scale(u, r)) >= cible :: Marge(trials, Scale(u, s)) >= cible
  }

  /** On a direction that clears once and for all, no distance shorter by a 256th of the course would do. */
  lemma BisectionIsNearOptimal(trials: seq<Trial>, u: Point, cible: real, course: real, r: real)
    requires trials != [] && course > 0.0
    requires Brackets(trials, u, cible, Bracket(0.0, course)) && MonotoneAlong(trials, u, cible)
    requires Marge(trials, Scale(u, r)) >= cible
    ensures Bisected(trials, u, cible, course, DICHOTOMIE).haut < r + Halved(course, DICHOTOMIE)
  {
    BisectionBrackets(trials, u, cible, course, DICHOTOMIE);
    var b := Bisected(trials, u, cible, course, DICHOTOMIE);
    assert r > b.bas;
  }

  method Dichotomie(trials: seq<Trial>, u: Point, cible: real, course: real) returns (haut: real)
    requires trials != []
    ensures haut == Bisected(trials, u, cible, course, DICHOTOMIE).haut
  {
    var bas := 0.0;
    haut := course;
    for i := 0 to DICHOTOMIE
      invariant Bracket(bas, haut) == Bisected(trials, u, cible, course, i)
    {
      var mid := Half(bas + haut);
      var m := MargeOf(trials, Scale(u, mid));
      if m >= cible { haut := mid; } else { bas := mid; }
    }
  }

  // ---------------------------------------------------------------- the solver

  const ORIGIN: Point := Point(0.0, 0.0)

  /** What is asked: no tighter than on the original profile, nor than the shape allows at its centre. */
  function Requis(trials: seq<Trial>, centre: Point): real
    requires trials != []
  {
    Min(Reference(trials), Marge(trials, centre))
  }

  function Cible(trials: seq<Trial>, centre: Point): real
    requires trials != []
  {
    Max(Requis(trials, centre), 0.0)
  }

  predicate AlreadyGood(trials: seq<Trial>, centre: Point)
    requires trials != []
  {
    Marge(trials, ORIGIN) >= Requis(trials, centre) && Marge(trials, ORIGIN) >= 0.0
  }

  /** At the end of this direction the target is met. */
  predicate Solvable(trials: seq<Trial>, u: Point, cible: real, course: real)
    requires trials != []
  {
    Marge(trials, Scale(u, course)) >= cible
  }

  function Distance(trials: seq<Trial>, u: Point, cible: real, course: real): real
    requires trials != []
  {
    Bisected(trials, u, cible, course, DICHOTOMIE).haut
  }

  const PROBES: seq<real> := [0.3, 0.6, 1.0]

  function Probe(u: Point, course: real, i: nat): Point
    requires i < |PROBES|
  {
    Scale(Scale(u, course), PROBES[i])
  }

  /** Among the first `n` directions, `k` is the first solvable one of least distance. */
  ghost predicate Best(trials: seq<Trial>, us: seq<Point>, n: nat, k: nat, cible: real, course: real)
    requires trials != [] && n <= |us|
  {
    && k < n && Solvable(trials, us[k], cible, course)
    && forall j | 0 <= j < n && Solvable(trials, us[j], cible, course) ::
         && Distance(trials, us[k], cible, course) <= Distance(trials, us[j], cible, course)
         && (j < k ==> Distance(trials, us[k], cible, course) < Distance(trials, us[j], cible, course))
  }

  /** `shift` is how far direction `k`, the best one, has to be followed. */
  ghost predicate Nearest(trials: seq<Trial>, us: seq<Point>, k: nat, shift: Point, cible: real, course: real)
    requires trials != []
  {
    Best(trials, us, |us|, k, cible, course) && shift == Scale(us[k], Distance(trials, us[k], cible, course))
  }

  ghost predicate NoneSolvable(trials: seq<Trial>, us: seq<Point>, n: nat, cible: real, course: real)
    requires trials != [] && n <= |us|
  {
    forall j :: 0 <= j < n ==> !Solvable(trials, us[j], cible, course)
  }

  /** No probe along a direction that leads nowhere clears more than `s`, and `s` no less than staying put. */
  ghost predicate Rescue(trials: seq<Trial>, us: seq<Point>, n: nat, s: Point, cible: real, course: real)
    requires trials != [] && n <= |us|
  {
    && Marge(trials, s) >= Marge(trials, ORIGIN)
    && (s == ORIGIN || exists j, i :: 0 <= j < n && 0 <= i < |PROBES| && s == Probe(us[j], course, i))
    && forall j, i | 0 <= j < n && 0 <= i < |PROBES| && !Solvable(trials, us[j], cible, course) ::
         Marge(trials, Probe(us[j], course, i)) <= Marge(trials, s)
  }

  /** What the solver returns. */
  ghost predicate Answer(trials: seq<Trial>, centre: Point, course: real, us: seq<Point>, shift: Point)
    requires trials != []
  {
    var cible := Cible(trials, centre);
    if AlreadyGood(trials, centre) then shift == ORIGIN
    else
      || (NoneSolvable(trials, us, |us|, cible, course) && Rescue(trials, us, |us|, shift, cible, course))
      || exists k: nat :: Nearest(trials, us, k, shift, cible, course)
  }

  /** The best clearance among `best` and the three probes along `u`. */
  method ProbeAlong(trials: seq<Trial>, u: Point, course: real, best: Point) returns (r: Point)
    requires trials != []
    ensures r == best || exists i: nat :: i < |PROBES| && r == Probe(u, course, i)
    ensures Marge(trials, r) >= Marge(trials, best)
    ensures forall i :: 0 <= i < |PROBES| ==> Marge(trials, Probe(u, course, i)) <= Marge(trials, r)
  {
    r := best;
    for i := 0 to |PROBES|
      invariant r == best || exists j: nat :: j < i && r == Probe(u, course, j)
      invariant Marge(trials, r) >= Marge(trials, best)
      invariant forall j :: 0 <= j < i ==> Marge(trials, Probe(u, course, j)) <= Marge(trials, r)
    {
      var m := MargeOf(trials, Probe(u, course, i));
      var kept := MargeOf(trials, r);
      if m > kept { r := Probe(u, course, i); }
    }
  }

  /** `us` are the twelve directions; `course` how far to look, `centre` the shift to the middle of the body. */
  method Resous(trials: seq<Trial>, centre: Point, course: real, us: seq<Point>) returns (shift: Point)
    ensures trials == [] ==> shift == ORIGIN
    ensures trials != [] ==> Answer(trials, centre, course, us, shift)
  {
    if trials == [] { return ORIGIN; }
    var reference := ReferenceOf(trials);
    var atCentre := MargeOf(trials, centre);
    var requis := Min(reference, atCentre);
    var depart := MargeOf(trials, ORIGIN);
    if depart >= requis && depart >= 0.0 { return ORIGIN; }
    shift := Search(trials, course, us, Max(requis, 0.0));
  }

  method Search(trials: seq<Trial>, course: real, us: seq<Point>, cible: real) returns (shift: Point)
    requires trials != []
    ensures
      || (NoneSolvable(trials, us, |us|, cible, course) && Rescue(trials, us, |us|, shift, cible, course))
      || exists k: nat :: Nearest(trials, us, k, shift, cible, course)
  {
    var secours := ORIGIN;
    var best: Option<nat> := None;
    var norme := 0.0;
    for d := 0 to |us|
      invariant best.None? ==> NoneSolvable(trials, us, d, cible, course)
      invariant best.Some? ==> Best(trials, us, d, best.value, cible, course)
      invariant best.Some? ==> norme == Distance(trials, us[best.value], cible, course)
      invariant Rescue(trials, us, d, secours, cible, course)
    {
      var end := MargeOf(trials, Scale(us[d], course));
      if end < cible {
        secours := ProbeAlong(trials, us[d], course, secours);
      } else {
        var haut := Dichotomie(trials, us[d], cible, course);
        if best.None? || haut < norme {
          best, norme := Some(d), haut;
        }
      }
    }
    if best.None? { return secours; }
    shift := Scale(us[best.value], norme);
    assert Nearest(trials, us, best.value, shift, cible, course);
  }

  // ---------------------------------------------------------------- what an answer is good for

  /** Off the origin the target is missed, so every solvable direction starts with a bracket. */
  lemma SolvableBrackets(trials: seq<Trial>, centre: Point, course: real, u: Point)
    requires trials != [] && !AlreadyGood(trials, centre)
    requires Solvable(trials, u, Cible(trials, centre), course)
    ensures Brackets(trials, u, Cible(trials, centre), Bracket(0.0, course))
  {
    assert Scale(u, 0.0) == ORIGIN;
  }

  lemma NearestMeetsTarget(trials: seq<Trial>, centre: Point, course: real, us: seq<Point>, k: nat, shift: Point)
    requires trials != [] && course > 0.0 && !AlreadyGood(trials, centre)
    requires Nearest(trials, us, k, shift, Cible(trials, centre), course)
    ensures Marge(trials, shift) >= Cible(trials, centre)
    ensures 0.0 < Distance(trials, us[k], Cible(trials, centre), course) <= course
  {
    SolvableBrackets(trials, centre, course, us[k]);
    BisectionBrackets(trials, us[k], Cible(trials, centre), course, DICHOTOMIE);
  }

  /** The tightest margin never gets worse, whatever the margins are like. */
  lemma AnswerIsNeverWorse(trials: seq<Trial>, centre: Point, course: real, us: seq<Point>, shift: Point)
    requires trials != [] && course > 0.0 && Answer(trials, centre, course, us, shift)
    ensures Marge(trials, shift) >= Marge(trials, ORIGIN)
  {
    var cible := Cible(trials, centre);
    if !AlreadyGood(trials, centre) && !(NoneSolvable(trials, us, |us|, cible, course) && Rescue(trials, us, |us|, shift, cible, course)) {
      var k: nat :| Nearest(trials, us, k, shift, cible, course);
      NearestMeetsTarget(trials, centre, course, us, k, shift);
    }
  }

  /** If anything can be done along one of the directions, every trial keeps the eyes in and as free as asked. */
  lemma AnswerMeetsTarget(trials: seq<Trial>, centre: Point, course: real, us: seq<Point>, shift: Point)
    requires trials != [] && course > 0.0 && Answer(trials, centre, course, us, shift)
    requires AlreadyGood(trials, centre) || !NoneSolvable(trials, us, |us|, Cible(trials, centre), course)
    ensures forall i :: 0 <= i < |trials| ==> trials[i].margin(shift) >= Cible(trials, centre)
  {
    if !AlreadyGood(trials, centre) {
      var k: nat :| Nearest(trials, us, k, shift, Cible(trials, centre), course);
      NearestMeetsTarget(trials, centre, course, us, k, shift);
    }
    MargeIsTightest(trials, shift, Cible(trials, centre));
  }

  /**
    The shift is never longer than the course, and against any direction that clears once and for all
    it is the least up to a 256th of the course.
  */
  lemma AnswerIsNearest(trials: seq<Trial>, centre: Point, course: real, us: seq<Point>, shift: Point, d: nat, r: real)
    returns (k: nat)
    requires trials != [] && course > 0.0 && Answer(trials, centre, course, us, shift)
    requires !AlreadyGood(trials, centre) && d < |us| && Solvable(trials, us[d], Cible(trials, centre), course)
    ensures Nearest(trials, us, k, shift, Cible(trials, centre), course)
    ensures 0.0 < Distance(trials, us[k], Cible(trials, centre), course) <= course
    ensures MonotoneAlong(trials, us[d], Cible(trials, centre)) && Marge(trials, Scale(us[d], r)) >= Cible(trials, centre)
            ==> Distance(trials, us[k], Cible(trials, centre), course) < r + Halved(course, DICHOTOMIE)
  {
    var cible := Cible(trials, centre);
    k :| Nearest(trials, us, k, shift, cible, course);
    NearestMeetsTarget(trials, centre, course, us, k, shift);
    if MonotoneAlong(trials, us[d], cible) && Marge(trials, Scale(us[d], r)) >= cible {
      SolvableBrackets(trials, centre, course, us[d]);
      BisectionIsNearOptimal(trials, us[d], cible, course, r);
    }
  }
}
