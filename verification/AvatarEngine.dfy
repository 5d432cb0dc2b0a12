/**
  The clock-free avatar engine: poses are blended from wherever the picture was when the state changed,
  and the gaze glides from wherever it was when its target changed. Numbers are reals; trigonometry,
  colours and the pose tables stay abstract.
*/
module AvatarEngine {
  import opened Wrappers

  // ---------------------------------------------------------------- numbers

  /** The part `t` of `d`. Products go through this name, so that proofs about them stay linear. */
  function Part(d: real, t: real): real {
    d * t
  }

  lemma Shrinks(d: real, t: real)
    requires d >= 0.0 && 0.0 <= t <= 1.0
    ensures 0.0 <= Part(d, t) <= d
  {
    assert d * (1.0 - t) >= 0.0;
    assert d * (1.0 - t) == d - d * t;
  }

  lemma Opposite(d: real, t: real)
    ensures Part(-d, t) == -Part(d, t)
  {
  }

  lemma ShrinksUp(d: real, t: real)
    requires d <= 0.0 && 0.0 <= t <= 1.0
    ensures d <= Part(d, t) <= 0.0
  {
    Shrinks(-d, t);
    Opposite(d, t);
  }

  function Lerp(a: real, b: real, t: real): real {
    a + Part(b - a, t)
  }

  lemma LerpEnds(a: real, b: real)
    ensures Lerp(a, b, 0.0) == a && Lerp(a, b, 1.0) == b
  {
  }

  lemma LerpWithin(a: real, b: real, t: real, lo: real, hi: real)
    requires lo <= a <= hi && lo <= b <= hi && 0.0 <= t <= 1.0
    ensures lo <= Lerp(a, b, t) <= hi
  {
    if a <= b { Shrinks(b - a, t); } else { ShrinksUp(b - a, t); }
  }

  function Clamp(v: real): real {
    if v < 0.0 then 0.0 else if v > 1.0 then 1.0 else v
  }

  function Pow(x: real, n: nat): real {
    if n == 0 then 1.0 else Part(x, Pow(x, n - 1))
  }

  const QUINT: nat := 5

  function EaseOutQuint(t: real): real {
    1.0 - Pow(1.0 - t, QUINT)
  }

  function Abs(x: real): real {
    if x < 0.0 then -x else x
  }

  lemma OneMoreFactor(x: real, y: real, p: real, q: real)
    requires 0.0 <= y <= x <= 1.0 && 0.0 <= q <= p <= 1.0
    ensures 0.0 <= Part(y, q) <= Part(x, p) <= 1.0
    ensures Part(x, p) - Part(y, q) <= (p - q) + (x - y)
  {
    Shrinks(p - q, x);
    Shrinks(x - y, q);
    Shrinks(x, p);
    Shrinks(y, q);
    Differences(x, y, p, q);
  }

  lemma Differences(x: real, y: real, p: real, q: real)
    ensures Part(x, p) - Part(y, q) == Part(p - q, x) + Part(x - y, q)
  {
  }

  function Times(n: nat, d: real): real {
    if n == 0 then 0.0 else Times(n - 1, d) + d
  }

  lemma {:induction false} TimesGrows(n: nat, d: real, e: real)
    requires d <= e
    ensures Times(n, d) <= Times(n, e)
  {
    if n > 0 { TimesGrows(n - 1, d, e); }
  }

  /** Between 0 and 1 a power changes no more than `n` times as fast as its base. */
  lemma {:induction false} PowSlope(x: real, y: real, n: nat)
    requires 0.0 <= y <= x <= 1.0
    ensures 0.0 <= Pow(y, n) <= Pow(x, n) <= 1.0
    ensures Pow(x, n) - Pow(y, n) <= Times(n, x - y)
  {
    if n > 0 {
      PowSlope(x, y, n - 1);
      OneMoreFactor(x, y, Pow(x, n - 1), Pow(y, n - 1));
    }
  }

  lemma {:induction false} PowEnds(x: real, n: nat)
    requires n > 0
    ensures x == 0.0 ==> Pow(x, n) == 0.0
    ensures x == 1.0 ==> Pow(x, n) == 1.0
  {
    if n > 1 { PowEnds(x, n - 1); }
    PartEnds(x, Pow(x, n - 1));
  }

  lemma PartEnds(d: real, t: real)
    ensures t == 0.0 || d == 0.0 ==> Part(d, t) == 0.0
    ensures t == 1.0 ==> Part(d, t) == d
  {
  }

  function Ease(k: real): real {
    EaseOutQuint(Clamp(k))
  }

  /** The easing climbs from 0 to 1, never back, and never more than five times as fast as time. */
  lemma EasingClimbs(x: real, y: real)
    requires x <= y
    ensures 0.0 <= Ease(x) <= Ease(y) <= 1.0
    ensures Ease(y) - Ease(x) <= Times(QUINT, y - x)
  {
    var s, t := 1.0 - Clamp(x), 1.0 - Clamp(y);
    PowSlope(s, t, QUINT);
    TimesGrows(QUINT, s - t, y - x);
  }

  lemma EasingEnds(x: real)
    ensures x <= 0.0 ==> Ease(x) == 0.0
    ensures x >= 1.0 ==> Ease(x) == 1.0
  {
    PowEnds(1.0 - Clamp(x), QUINT);
  }

  function Ratio(x: real, d: real): real
    requires d > 0.0
  {
    x / d
  }

  lemma Ratios(x: real, y: real, d: real)
    requires d > 0.0 && x <= y
    ensures Ratio(x, d) <= Ratio(y, d)
    ensures Ratio(y, d) - Ratio(x, d) == Ratio(y - x, d)
    ensures x <= 0.0 ==> Ratio(x, d) <= 0.0
    ensures y >= d ==> Ratio(y, d) >= 1.0
  {
    RatioSign(x, d);
    RatioSign(y - x, d);
    RatioSign(y - d, d);
    Difference(x, y, d);
    Difference(d, y, d);
    assert Ratio(d, d) == 1.0;
  }

  lemma RatioSign(x: real, d: real)
    requires d > 0.0
    ensures x >= 0.0 ==> Ratio(x, d) >= 0.0
    ensures x <= 0.0 ==> Ratio(x, d) <= 0.0
  {
  }

  lemma Difference(x: real, y: real, d: real)
    requires d > 0.0
    ensures Ratio(y - x, d) == Ratio(y, d) - Ratio(x, d)
  {
  }

  /** How far a glide of the given length, begun at `start`, has come at `now`. */
  function Progress(now: real, start: real, length: real): real
    requires length > 0.0
  {
    Ease(Ratio(now - start, length))
  }

  lemma ProgressClimbs(s: real, t: real, start: real, length: real)
    requires length > 0.0 && s <= t
    ensures 0.0 <= Progress(s, start, length) <= Progress(t, start, length) <= 1.0
    ensures Progress(t, start, length) - Progress(s, start, length) <= Times(QUINT, Ratio(t - s, length))
    ensures s <= start ==> Progress(s, start, length) == 0.0
    ensures t >= start + length ==> Progress(t, start, length) == 1.0
  {
    Ratios(s - start, t - start, length);
    assert (t - start) - (s - start) == t - s;
    EasingClimbs(Ratio(s - start, length), Ratio(t - start, length));
    EasingEnds(Ratio(s - start, length));
    EasingEnds(Ratio(t - start, length));
  }

  // ---------------------------------------------------------------- shapes

  const PI: real := 3.141592653589793
  const TAU: real := 6.283185307179586
  const PROFILE_SAMPLES: nat := 64

  datatype Silhouette = Silhouette(radii: seq<real>, rot: real, cx: real, cy: real, sx: real, sy: real)

  /** A profile that is too short is drawn with radius 1 where it has no sample. */
  function Radius(radii: seq<real>, i: nat): real {
    if i < |radii| then radii[i] else 1.0
  }

  /** `k` full turns. */
  function Turns(k: int): real
    decreases if k < 0 then -k else k
  {
    if k == 0 then 0.0 else if k > 0 then Turns(k - 1) + TAU else Turns(k + 1) - TAU
  }

  /** The angle of [-PI, PI] that differs from `d` by full turns. */
  function ShortestTurn(d: real): real
    decreases if Abs(d) <= PI then 0 else Abs(d).Floor
  {
    if d > PI then ShortestTurn(d - TAU) else if d < -PI then ShortestTurn(d + TAU) else d
  }

  /** The two loops of `blend` that bring a difference of angles into [-PI, PI]. */
  method TurnTheShortWay(d: real) returns (r: real)
    ensures r == ShortestTurn(d)
  {
    r := d;
    while r > PI
      invariant ShortestTurn(r) == ShortestTurn(d)
      decreases r
    {
      r := r - TAU;
    }
    while r < -PI
      invariant r <= PI && ShortestTurn(r) == ShortestTurn(d)
      decreases -r
    {
      r := r + TAU;
    }
  }

  lemma {:induction false} TurnsApart(k: int)
    ensures k > 0 ==> Turns(k) >= TAU
    ensures k < 0 ==> Turns(k) <= -TAU
    decreases if k < 0 then -k else k
  {
    if k > 1 { TurnsApart(k - 1); }
    if k < -1 { TurnsApart(k + 1); }
  }

  lemma OneMoreTurn(k: int)
    ensures Turns(k + 1) == Turns(k) + TAU
  {
  }

  /**
    The rotation taken between two silhouettes: it differs from the wanted one by full turns, and no
    other such rotation is smaller.
  */
  lemma {:induction false} ShortestTurnIsShortest(d: real) returns (k: int)
    ensures ShortestTurn(d) == d + Turns(k)
    ensures forall j: int :: Abs(ShortestTurn(d)) <= Abs(d + Turns(j))
    decreases if Abs(d) <= PI then 0 else Abs(d).Floor
  {
    if d > PI {
      var below := ShortestTurnIsShortest(d - TAU);
      k := below - 1;
      OneMoreTurn(k);
      forall j: int ensures Abs(ShortestTurn(d)) <= Abs(d + Turns(j)) {
        OneMoreTurn(j);
        assert d + Turns(j) == d - TAU + Turns(j + 1);
      }
    } else if d < -PI {
      var above := ShortestTurnIsShortest(d + TAU);
      k := above + 1;
      OneMoreTurn(above);
      forall j: int ensures Abs(ShortestTurn(d)) <= Abs(d + Turns(j)) {
        OneMoreTurn(j - 1);
        assert d + Turns(j) == d + TAU + Turns(j - 1);
      }
    } else {
      k := 0;
      forall j: int ensures Abs(d) <= Abs(d + Turns(j)) {
        TurnsApart(j);
      }
    }
  }

  /** `blend`: radii one by one, the rotation the short way. */
  function BlendShapes(a: Silhouette, b: Silhouette, t: real): Silhouette {
    Silhouette(
      seq(PROFILE_SAMPLES, i requires 0 <= i => Lerp(Radius(a.radii, i), Radius(b.radii, i), t)),
      a.rot + Part(ShortestTurn(b.rot - a.rot), t),
      Lerp(a.cx, b.cx, t), Lerp(a.cy, b.cy, t), Lerp(a.sx, b.sx, t), Lerp(a.sy, b.sy, t))
  }

  method Blend(a: Silhouette, b: Silhouette, t: real) returns (r: Silhouette)
    ensures r == BlendShapes(a, b, t)
  {
    var radii := new real[PROFILE_SAMPLES];
    for i := 0 to PROFILE_SAMPLES
      invariant forall j :: 0 <= j < i ==> radii[j] == Lerp(Radius(a.radii, j), Radius(b.radii, j), t)
    {
      radii[i] := Lerp(Radius(a.radii, i), Radius(b.radii, i), t);
    }
    var turn := TurnTheShortWay(b.rot - a.rot);
    r := Silhouette(radii[..], a.rot + Part(turn, t),
      Lerp(a.cx, b.cx, t), Lerp(a.cy, b.cy, t), Lerp(a.sx, b.sx, t), Lerp(a.sy, b.sy, t));
    assert r.radii == BlendShapes(a, b, t).radii;
  }

  /** What is drawn of two silhouettes is the same: radii sample by sample, rotation up to full turns. */
  ghost predicate SameShape(a: Silhouette, b: Silhouette) {
    && (forall i :: 0 <= i < PROFILE_SAMPLES ==> Radius(a.radii, i) == Radius(b.radii, i))
    && (exists k :: a.rot == b.rot + Turns(k))
    && a.cx == b.cx && a.cy == b.cy && a.sx == b.sx && a.sy == b.sy
  }

  lemma BlendShapesEnds(a: Silhouette, b: Silhouette)
    ensures SameShape(BlendShapes(a, b, 0.0), a)
    ensures SameShape(BlendShapes(a, b, 1.0), b)
  {
    forall i | 0 <= i < PROFILE_SAMPLES
      ensures Radius(BlendShapes(a, b, 0.0).radii, i) == Radius(a.radii, i)
      ensures Radius(BlendShapes(a, b, 1.0).radii, i) == Radius(b.radii, i)
    {
      LerpEnds(Radius(a.radii, i), Radius(b.radii, i));
    }
    LerpEnds(a.cx, b.cx);
    LerpEnds(a.cy, b.cy);
    LerpEnds(a.sx, b.sx);
    LerpEnds(a.sy, b.sy);
    PartEnds(ShortestTurn(b.rot - a.rot), 0.0);
    PartEnds(ShortestTurn(b.rot - a.rot), 1.0);
    assert Turns(0) == 0.0;
    var k := ShortestTurnIsShortest(b.rot - a.rot);
    assert BlendShapes(a, b, 0.0).rot == a.rot + Turns(0);
    assert BlendShapes(a, b, 1.0).rot == b.rot + Turns(k);
  }

  // ---------------------------------------------------------------- poses

  datatype Gaze = Gaze(yaw: real, pitch: real, roll: real)

  datatype Eye = Eye(w: real, h: real, open: real, tilt: Option<real>)

  /** Decoration: `kind` stands for everything about a dot or an arc that blending leaves alone. */
  datatype Dot = Dot(kind: int, opacity: real)

  datatype Arc = Arc(id: string, kind: int, opacity: real)

  datatype Pose = Pose(
    sil: Silhouette, offX: real, offY: real, gaze: Gaze, split: real, eyeIn: Eye, eyeOut: Eye,
    eyeAlpha: real, bodyAlpha: real, dots: seq<Dot>, arcs: seq<Arc>, notif: Option<int>, dotsBehind: bool)

  function Tilt(e: Eye): real {
    if e.tilt.Some? then e.tilt.value else 0.0
  }

  function LerpGaze(a: Gaze, b: Gaze, t: real): Gaze {
    Gaze(Lerp(a.yaw, b.yaw, t), Lerp(a.pitch, b.pitch, t), Lerp(a.roll, b.roll, t))
  }

  function LerpEye(a: Eye, b: Eye, t: real): Eye {
    Eye(Lerp(a.w, b.w, t), Lerp(a.h, b.h, t), Lerp(a.open, b.open, t), Some(Lerp(Tilt(a), Tilt(b), t)))
  }

  function FadeDots(dots: seq<Dot>, t: real): seq<Dot> {
    seq(|dots|, i requires 0 <= i < |dots| => dots[i].(opacity := Part(dots[i].opacity, t)))
  }

  function FadeArcs(prefix: string, arcs: seq<Arc>, t: real): seq<Arc> {
    seq(|arcs|, i requires 0 <= i < |arcs| =>
      arcs[i].(id := prefix + arcs[i].id, opacity := Part(arcs[i].opacity, t)))
  }

  /** `blendPose`, around the silhouette `sil` blended beside it. */
  function PoseAround(sil: Silhouette, a: Pose, b: Pose, t: real): Pose {
    Pose(
      sil, Lerp(a.offX, b.offX, t), Lerp(a.offY, b.offY, t),
      LerpGaze(a.gaze, b.gaze, t), Lerp(a.split, b.split, t),
      LerpEye(a.eyeIn, b.eyeIn, t), LerpEye(a.eyeOut, b.eyeOut, t),
      Lerp(a.eyeAlpha, b.eyeAlpha, t), Lerp(a.bodyAlpha, b.bodyAlpha, t),
      FadeDots(a.dots, 1.0 - t) + FadeDots(b.dots, t),
      FadeArcs("a", a.arcs, 1.0 - t) + FadeArcs("b", b.arcs, t),
      if t < 0.5 then a.notif else b.notif,
      if t < 0.5 then a.dotsBehind else b.dotsBehind)
  }

  function BlendPose(a: Pose, b: Pose, t: real): Pose {
    PoseAround(BlendShapes(a.sil, b.sil, t), a, b, t)
  }

  function VisibleDots(dots: seq<Dot>): seq<Dot> {
    if dots == [] then []
    else (if dots[0].opacity == 0.0 then [] else [dots[0]]) + VisibleDots(dots[1..])
  }

  /** The arcs that are drawn, without their ids. */
  function VisibleArcs(arcs: seq<Arc>): seq<Dot> {
    if arcs == [] then []
    else (if arcs[0].opacity == 0.0 then [] else [Dot(arcs[0].kind, arcs[0].opacity)]) + VisibleArcs(arcs[1..])
  }

  ghost predicate SameEye(a: Eye, b: Eye) {
    a.w == b.w && a.h == b.h && a.open == b.open && Tilt(a) == Tilt(b)
  }

  /** Two poses that draw the same picture. */
  ghost predicate SamePicture(p: Pose, q: Pose) {
    && SameShape(p.sil, q.sil) && p.offX == q.offX && p.offY == q.offY
    && p.gaze == q.gaze && p.split == q.split && SameEye(p.eyeIn, q.eyeIn) && SameEye(p.eyeOut, q.eyeOut)
    && p.eyeAlpha == q.eyeAlpha && p.bodyAlpha == q.bodyAlpha
    && VisibleDots(p.dots) == VisibleDots(q.dots) && VisibleArcs(p.arcs) == VisibleArcs(q.arcs)
    && p.notif == q.notif && p.dotsBehind == q.dotsBehind
  }

  lemma {:induction false} VisibleDotsAppend(a: seq<Dot>, b: seq<Dot>)
    ensures VisibleDots(a + b) == VisibleDots(a) + VisibleDots(b)
    decreases |a|
  {
    if a == [] {
      assert a + b == b;
    } else {
      assert (a + b)[0] == a[0] && (a + b)[1..] == a[1..] + b;
      VisibleDotsAppend(a[1..], b);
    }
  }

  lemma {:induction false} VisibleArcsAppend(a: seq<Arc>, b: seq<Arc>)
    ensures VisibleArcs(a + b) == VisibleArcs(a) + VisibleArcs(b)
    decreases |a|
  {
    if a == [] {
      assert a + b == b;
    } else {
      assert (a + b)[0] == a[0] && (a + b)[1..] == a[1..] + b;
      VisibleArcsAppend(a[1..], b);
    }
  }

  lemma {:induction false} FadedDots(dots: seq<Dot>)
    ensures VisibleDots(FadeDots(dots, 0.0)) == []
    ensures VisibleDots(FadeDots(dots, 1.0)) == VisibleDots(dots)
    decreases |dots|
  {
    if dots != [] {
      PartEnds(dots[0].opacity, 0.0);
      PartEnds(dots[0].opacity, 1.0);
      FadedDots(dots[1..]);
      assert FadeDots(dots, 0.0)[1..] == FadeDots(dots[1..], 0.0);
      assert FadeDots(dots, 1.0)[1..] == FadeDots(dots[1..], 1.0);
    }
  }

  lemma {:induction false} FadedArcs(prefix: string, arcs: seq<Arc>)
    ensures VisibleArcs(FadeArcs(prefix, arcs, 0.0)) == []
    ensures VisibleArcs(FadeArcs(prefix, arcs, 1.0)) == VisibleArcs(arcs)
    decreases |arcs|
  {
    if arcs != [] {
      PartEnds(arcs[0].opacity, 0.0);
      PartEnds(arcs[0].opacity, 1.0);
      FadedArcs(prefix, arcs[1..]);
      assert FadeArcs(prefix, arcs, 0.0)[1..] == FadeArcs(prefix, arcs[1..], 0.0);
      assert FadeArcs(prefix, arcs, 1.0)[1..] == FadeArcs(prefix, arcs[1..], 1.0);
    }
  }

  lemma NumbersEnd(a: Pose, b: Pose)
    ensures forall t :: t == 0.0 ==>
              LerpGaze(a.gaze, b.gaze, t) == a.gaze && SameEye(LerpEye(a.eyeIn, b.eyeIn, t), a.eyeIn)
              && SameEye(LerpEye(a.eyeOut, b.eyeOut, t), a.eyeOut)
    ensures forall t :: t == 1.0 ==>
              LerpGaze(a.gaze, b.gaze, t) == b.gaze && SameEye(LerpEye(a.eyeIn, b.eyeIn, t), b.eyeIn)
              && SameEye(LerpEye(a.eyeOut, b.eyeOut, t), b.eyeOut)
  {
  }

  /** A fade draws its origin when it begins and its target when it ends. */
  lemma FadeEnds(a: Pose, b: Pose)
    ensures SamePicture(BlendPose(a, b, 0.0), a)
    ensures SamePicture(BlendPose(a, b, 1.0), b)
  {
    BlendShapesEnds(a.sil, b.sil);
    NumbersEnd(a, b);
    FadedDots(a.dots);
    FadedDots(b.dots);
    FadedArcs("a", a.arcs);
    FadedArcs("b", b.arcs);
    VisibleDotsAppend(FadeDots(a.dots, 1.0), FadeDots(b.dots, 0.0));
    VisibleDotsAppend(FadeDots(a.dots, 0.0), FadeDots(b.dots, 1.0));
    VisibleArcsAppend(FadeArcs("a", a.arcs, 1.0), FadeArcs("b", b.arcs, 0.0));
    VisibleArcsAppend(FadeArcs("a", a.arcs, 0.0), FadeArcs("b", b.arcs, 1.0));
  }

  // ---------------------------------------------------------------- the engine, as a value

  type StateId = int

  /** `pose` animates the state from the moment it was entered. */
  datatype StateDef = StateDef(morph: real, blinkIn: bool, baseBody: bool, baseFace: bool, pose: real -> Pose)

  type States = map<StateId, StateDef>

  /** Shapes and expressions are compared by identity; `id` is that identity. */
  datatype Shape = Shape(id: nat, radii: seq<real>)

  datatype Expression = Expression(id: nat, gaze: Gaze, split: real, eyeIn: Eye, eyeOut: Eye)

  datatype Look = Look(yaw: real, pitch: real, mix: real, spin: real, wander: real)

  const NO_LOOK: Look := Look(0.0, 0.0, 0.0, 0.0, 1.0)

  const SHAPE_MORPH: real := 0.45
  const LOOK_MORPH: real := 0.24
  const LONG_AGO: real := -10.0

  datatype Engine = Engine(
    cur: StateId, prev: Option<StateId>, departFige: Option<Pose>, tCur: real, tPrev: real, blinkAt: real,
    shape: Option<Shape>, shapePrev: Option<Shape>, shapeAt: real,
    expr: Option<Expression>, exprPrev: Option<Expression>, exprAt: real,
    look: Look, lookPrev: Look, lookAt: real, lookMorph: real)

  function Initial(cur: StateId, shape: Option<Shape>, expr: Option<Expression>): Engine {
    Engine(cur, None, None, 0.0, 0.0, LONG_AGO, shape, None, LONG_AGO, expr, None, LONG_AGO,
      NO_LOOK, NO_LOOK, LONG_AGO, LOOK_MORPH)
  }

  /** Every state takes time to fade in. */
  ghost predicate WellFormed(states: States) {
    forall id :: id in states ==> states[id].morph > 0.0
  }

  /** A frozen origin only stands beside a state that was left. */
  ghost predicate Ok(states: States, e: Engine) {
    && WellFormed(states)
    && e.cur in states
    && (e.prev.Some? ==> e.prev.value in states)
    && (e.departFige.Some? ==> e.prev.Some?)
    && e.lookMorph > 0.0
  }

  function Morphed(from: seq<real>, to: seq<real>, t: real): seq<real> {
    seq(|to|, i requires 0 <= i < |to| => Lerp(if i < |from| then from[i] else to[i], to[i], t))
  }

  function ShapeAtTime(e: Engine, now: real): Option<seq<real>> {
    if e.shape.None? then None
    else
      var to := e.shape.value.radii;
      if e.shapePrev.None? || Ratio(now - e.shapeAt, SHAPE_MORPH) >= 1.0 then Some(to)
      else
        var from, t := e.shapePrev.value.radii, Progress(now, e.shapeAt, SHAPE_MORPH);
        Some(Morphed(from, to, t))
  }

  function ExprAtTime(e: Engine, now: real): Option<Expression> {
    if e.expr.None? || e.exprPrev.None? || Ratio(now - e.exprAt, SHAPE_MORPH) >= 1.0 then e.expr
    else
      var a, b, t := e.exprPrev.value, e.expr.value, Progress(now, e.exprAt, SHAPE_MORPH);
      Some(Expression(b.id, LerpGaze(a.gaze, b.gaze, t), Lerp(a.split, b.split, t),
        LerpEye(a.eyeIn, b.eyeIn, t), LerpEye(a.eyeOut, b.eyeOut, t)))
  }

  /** A chosen shape or expression replaces the body or the face only in the states that allow it. */
  function Posed(def: StateDef, t: real, shape: Option<seq<real>>, expr: Option<Expression>): Pose {
    var pose := def.pose(t);
    var bodied := if def.baseBody && shape.Some? then pose.(sil := pose.sil.(radii := shape.value)) else pose;
    if def.baseFace && expr.Some?
    then bodied.(gaze := expr.value.gaze, split := expr.value.split, eyeIn := expr.value.eyeIn, eyeOut := expr.value.eyeOut)
    else bodied
  }

  function Elapsed(now: real, since: real): real {
    if now - since > 0.0 then now - since else 0.0
  }

  /** What a fade starts from: the frozen pose, else the state that was left, still animated. */
  function Origine(states: States, e: Engine, now: real, shape: Option<seq<real>>, expr: Option<Expression>): Option<Pose>
    requires e.prev.Some? ==> e.prev.value in states
  {
    if e.departFige.Some? then e.departFige
    else if e.prev.None? then None
    else Some(Posed(states[e.prev.value], Elapsed(now, e.tPrev), shape, expr))
  }

  function PoseComposee(states: States, e: Engine, now: real): Pose
    requires Ok(states, e)
  {
    var def, shape, expr := states[e.cur], ShapeAtTime(e, now), ExprAtTime(e, now);
    var pose := Posed(def, Elapsed(now, e.tCur), shape, expr);
    var origine := Origine(states, e, now, shape, expr);
    if now - e.tCur >= def.morph || origine.None? then pose
    else BlendPose(origine.value, pose, Progress(now, e.tCur, def.morph))
  }

  function LerpLook(a: Look, b: Look, t: real): Look {
    Look(Lerp(a.yaw, b.yaw, t), Lerp(a.pitch, b.pitch, t), Lerp(a.mix, b.mix, t),
      Lerp(a.spin, b.spin, t), Lerp(a.wander, b.wander, t))
  }

  function LookAtTime(e: Engine, now: real): Look
    requires e.lookMorph > 0.0
  {
    if Ratio(now - e.lookAt, e.lookMorph) >= 1.0 then e.look
    else LerpLook(e.lookPrev, e.look, Progress(now, e.lookAt, e.lookMorph))
  }

  /** A number as callers may pass it: `NaN` and the infinities are not reals. */
  datatype Num = Finite(v: real) | NotFinite

  datatype Target = Target(yaw: Num, pitch: Num, mix: Num, spin: Num, wander: Num)

  /** The target as a look, if all its numbers are finite. */
  function Accepted(t: Target): Option<Look> {
    if t.yaw.Finite? && t.pitch.Finite? && t.mix.Finite? && t.spin.Finite? && t.wander.Finite?
    then Some(Look(t.yaw.v, t.pitch.v, t.mix.v, t.spin.v, t.wander.v))
    else None
  }

  datatype Call =
    | SetState(id: StateId, now: real)
    | Reset(id: StateId, now: real)
    | SetShape(shape: Option<Shape>, now: real)
    | SetExpression(expr: Option<Expression>, now: real)
    | SetLook(target: Option<Target>, now: real, morph: real)

  ghost predicate Legal(states: States, c: Call) {
    match c
    case SetState(id, _) => id in states
    case Reset(id, _) => id in states
    case SetLook(_, _, morph) => morph > 0.0
    case _ => true
  }

  function Changed(states: States, e: Engine, id: StateId, now: real): Engine
    requires Ok(states, e) && id in states
  {
    if id == e.cur then e
    else
      var midFade := e.prev.Some? && now - e.tCur < states[e.cur].morph;
      e.(departFige := if midFade then Some(PoseComposee(states, e, now)) else None,
         prev := Some(e.cur), tPrev := e.tCur, cur := id, tCur := now,
         blinkAt := if states[id].blinkIn then now else e.blinkAt)
  }

  function Apply(states: States, e: Engine, c: Call): Engine
    requires Ok(states, e) && Legal(states, c)
  {
    match c
    case SetState(id, now) => Changed(states, e, id, now)
    case Reset(id, now) => e.(cur := id, prev := None, departFige := None, tCur := now, tPrev := now, blinkAt := LONG_AGO)
    case SetShape(shape, now) =>
      if shape == e.shape then e else e.(shapePrev := e.shape, shape := shape, shapeAt := now)
    case SetExpression(expr, now) =>
      if expr == e.expr then e else e.(exprPrev := e.expr, expr := expr, exprAt := now)
    case SetLook(target, now, morph) =>
      if target.Some? && Accepted(target.value).None? then e
      else e.(lookPrev := LookAtTime(e, now),
              look := if target.Some? then Accepted(target.value).value else NO_LOOK,
              lookAt := now, lookMorph := morph)
  }

  ghost predicate AllLegal(states: States, calls: seq<Call>) {
    forall i :: 0 <= i < |calls| ==> Legal(states, calls[i])
  }

  /** The engine after a sequence of calls, at whatever dates. */
  ghost function Run(states: States, e: Engine, calls: seq<Call>): (r: Engine)
    requires Ok(states, e) && AllLegal(states, calls)
    ensures Ok(states, r)
    decreases |calls|
  {
    if calls == [] then e else Run(states, Apply(states, e, calls[0]), calls[1..])
  }

  // ---------------------------------------------------------------- states change without a jump

  /** `setState` changes nothing of the picture at the moment of the call, in mid-fade or not. */
  lemma ChangeIsSeamless(states: States, e: Engine, id: StateId, now: real)
    requires Ok(states, e) && id in states
    ensures SamePicture(PoseComposee(states, Changed(states, e, id, now), now), PoseComposee(states, e, now))
  {
    var before := PoseComposee(states, e, now);
    if id == e.cur {
      Itself(before);
    } else {
      OriginIsThePicture(states, e, id, now);
      var target := FreshFade(states, Changed(states, e, id, now), now, before);
      FadeEnds(before, target);
    }
  }

  lemma OriginIsThePicture(states: States, e: Engine, id: StateId, now: real)
    requires Ok(states, e) && id in states && id != e.cur
    ensures Origine(states, Changed(states, e, id, now), now, ShapeAtTime(e, now), ExprAtTime(e, now))
         == Some(PoseComposee(states, e, now))
  {
  }

  lemma FreshFade(states: States, e: Engine, now: real, origine: Pose) returns (target: Pose)
    requires Ok(states, e) && e.tCur == now
    requires Origine(states, e, now, ShapeAtTime(e, now), ExprAtTime(e, now)) == Some(origine)
    ensures PoseComposee(states, e, now) == BlendPose(origine, target, 0.0)
  {
    target := Posed(states[e.cur], Elapsed(now, e.tCur), ShapeAtTime(e, now), ExprAtTime(e, now));
    ProgressClimbs(now, now, now, states[e.cur].morph);
  }

  lemma Itself(p: Pose)
    ensures SamePicture(p, p)
  {
    assert Turns(0) == 0.0;
    assert p.sil.rot == p.sil.rot + Turns(0);
  }

  /** After any calls at any dates, the next change of state is seamless. */
  lemma EveryChangeIsSeamless(states: States, cur: StateId, shape: Option<Shape>, expr: Option<Expression>,
                              calls: seq<Call>, id: StateId, now: real)
    requires WellFormed(states) && cur in states && AllLegal(states, calls) && id in states
    ensures var e := Run(states, Initial(cur, shape, expr), calls);
            SamePicture(PoseComposee(states, Apply(states, e, SetState(id, now)), now), PoseComposee(states, e, now))
  {
    ChangeIsSeamless(states, Run(states, Initial(cur, shape, expr), calls), id, now);
  }

  /**
    Once the fade is over only the current state is drawn, and the last blended picture was already
    that one: the fade ends without a jump too.
  */
  lemma FadeIsOver(states: States, e: Engine, now: real)
    requires Ok(states, e) && now >= e.tCur + states[e.cur].morph
    ensures var pose := Posed(states[e.cur], now - e.tCur, ShapeAtTime(e, now), ExprAtTime(e, now));
            && PoseComposee(states, e, now) == pose
            && (forall origine :: SamePicture(BlendPose(origine, pose, Progress(now, e.tCur, states[e.cur].morph)), pose))
  {
    var pose := Posed(states[e.cur], now - e.tCur, ShapeAtTime(e, now), ExprAtTime(e, now));
    ProgressClimbs(now, now, e.tCur, states[e.cur].morph);
    forall origine ensures SamePicture(BlendPose(origine, pose, Progress(now, e.tCur, states[e.cur].morph)), pose) {
      FadeEnds(origine, pose);
    }
  }

  /** `reset` forgets how the engine got there: what follows is as if new on that state. */
  lemma ResetForgets(states: States, e: Engine, f: Engine, id: StateId, now: real, t: real)
    requires Ok(states, e) && Ok(states, f) && id in states
    requires e.shape == f.shape && e.shapePrev == f.shapePrev && e.shapeAt == f.shapeAt
    requires e.expr == f.expr && e.exprPrev == f.exprPrev && e.exprAt == f.exprAt
    ensures PoseComposee(states, Apply(states, e, Reset(id, now)), t)
         == PoseComposee(states, Apply(states, f, Reset(id, now)), t)
         == Posed(states[id], Elapsed(t, now), ShapeAtTime(e, t), ExprAtTime(e, t))
  {
  }

  // ---------------------------------------------------------------- the gaze glides

  /** One of the five numbers of a look. */
  function Component(l: Look, i: nat): real {
    if i == 0 then l.yaw else if i == 1 then l.pitch else if i == 2 then l.mix else if i == 3 then l.spin else l.wander
  }

  lemma LerpComponent(a: Look, b: Look, t: real, i: nat)
    ensures Component(LerpLook(a, b, t), i) == Lerp(Component(a, i), Component(b, i), t)
  {
  }

  /** A new target leaves the look where it was; one that is not finite is refused. */
  lemma LookIsSeamless(states: States, e: Engine, target: Option<Target>, now: real, morph: real)
    requires Ok(states, e) && morph > 0.0
    ensures LookAtTime(Apply(states, e, SetLook(target, now, morph)), now) == LookAtTime(e, now)
    ensures target.Some? && Accepted(target.value).None? ==> Apply(states, e, SetLook(target, now, morph)) == e
  {
    ProgressClimbs(now, now, now, morph);
    assert forall a, b :: LerpLook(a, b, 0.0) == a;
  }

  /** Past the end of the glide the formula of the glide gives the target, so there is only one formula. */
  lemma LookIsOneGlide(e: Engine, now: real, i: nat)
    requires e.lookMorph > 0.0
    ensures Component(LookAtTime(e, now), i)
         == Lerp(Component(e.lookPrev, i), Component(e.look, i), Progress(now, e.lookAt, e.lookMorph))
  {
    if Ratio(now - e.lookAt, e.lookMorph) >= 1.0 {
      EasingEnds(Ratio(now - e.lookAt, e.lookMorph));
      LerpEnds(Component(e.lookPrev, i), Component(e.look, i));
    } else {
      LerpComponent(e.lookPrev, e.look, Progress(now, e.lookAt, e.lookMorph), i);
    }
  }

  lemma LerpApart(a: real, b: real, s: real, t: real)
    requires 0.0 <= s <= t <= 1.0
    ensures Abs(b - Lerp(a, b, t)) <= Abs(b - Lerp(a, b, s))
    ensures Abs(Lerp(a, b, t) - Lerp(a, b, s)) == Part(Abs(b - a), t - s)
  {
    PartOfRest(b - a, s);
    PartOfRest(b - a, t);
    PartMinus(b - a, t, s);
    if b - a >= 0.0 {
      PartSign(b - a, t - s);
      Shrinks(b - a, 1.0 - t);
    } else {
      PartSign(a - b, t - s);
      Opposite(b - a, t - s);
      Shrinks(a - b, 1.0 - t);
      Opposite(b - a, 1.0 - t);
      assert -(b - a) == a - b;
    }
  }

  lemma PartOfRest(d: real, t: real)
    ensures Part(d, t) + Part(d, 1.0 - t) == d
  {
  }

  lemma PartMinus(d: real, t: real, s: real)
    ensures Part(d, t) - Part(d, s) == Part(d, t - s)
    ensures Part(d, 1.0 - s) - Part(d, 1.0 - t) == Part(d, t - s)
  {
  }

  lemma PartSign(d: real, t: real)
    requires d >= 0.0 && t >= 0.0
    ensures Part(d, t) >= 0.0
  {
  }

  /**
    As time goes by the look never recedes from its target, and never goes faster than five times the
    way over the length of the glide: with `LookIsSeamless` this makes the whole track continuous.
  */
  lemma LookNeverRecedes(e: Engine, s: real, t: real, i: nat)
    requires e.lookMorph > 0.0 && s <= t
    ensures Abs(Component(e.look, i) - Component(LookAtTime(e, t), i))
         <= Abs(Component(e.look, i) - Component(LookAtTime(e, s), i))
    ensures Abs(Component(LookAtTime(e, t), i) - Component(LookAtTime(e, s), i))
         <= Part(Abs(Component(e.look, i) - Component(e.lookPrev, i)), Times(QUINT, Ratio(t - s, e.lookMorph)))
  {
    LookIsOneGlide(e, s, i);
    LookIsOneGlide(e, t, i);
    var x, y := Progress(s, e.lookAt, e.lookMorph), Progress(t, e.lookAt, e.lookMorph);
    ProgressClimbs(s, t, e.lookAt, e.lookMorph);
    LerpApart(Component(e.lookPrev, i), Component(e.look, i), x, y);
    PartGrows(Abs(Component(e.look, i) - Component(e.lookPrev, i)), y - x, Times(QUINT, Ratio(t - s, e.lookMorph)));
  }

  lemma PartGrows(d: real, s: real, t: real)
    requires d >= 0.0 && s <= t
    ensures Part(d, s) <= Part(d, t)
  {
    PartMinus(d, t, s);
    PartSign(d, t - s);
  }

  /** Every target the calls make the engine accept has its component `i` within the bounds. */
  ghost predicate TargetsWithin(calls: seq<Call>, i: nat, lo: real, hi: real) {
    forall k | 0 <= k < |calls| && calls[k].SetLook? && calls[k].target.Some? && Accepted(calls[k].target.value).Some? ::
      lo <= Component(Accepted(calls[k].target.value).value, i) <= hi
  }

  ghost predicate LookWithin(e: Engine, i: nat, lo: real, hi: real) {
    lo <= Component(e.look, i) <= hi && lo <= Component(e.lookPrev, i) <= hi
  }

  lemma LookBetween(e: Engine, i: nat, lo: real, hi: real, now: real)
    requires e.lookMorph > 0.0 && LookWithin(e, i, lo, hi)
    ensures lo <= Component(LookAtTime(e, now), i) <= hi
  {
    LookIsOneGlide(e, now, i);
    ProgressClimbs(now, now, e.lookAt, e.lookMorph);
    LerpWithin(Component(e.lookPrev, i), Component(e.look, i), Progress(now, e.lookAt, e.lookMorph), lo, hi);
  }

  /** Whatever the calls, each number of the look stays in the hull of the resting look and the targets accepted. */
  lemma {:induction false} LookStaysInHull(states: States, e: Engine, calls: seq<Call>, i: nat, lo: real, hi: real,
      now: real)
    requires Ok(states, e) && AllLegal(states, calls) && TargetsWithin(calls, i, lo, hi)
    requires LookWithin(e, i, lo, hi) && lo <= Component(NO_LOOK, i) <= hi
    ensures lo <= Component(LookAtTime(Run(states, e, calls), now), i) <= hi
    decreases |calls|
  {
    if calls == [] {
      LookBetween(e, i, lo, hi, now);
    } else {
      CallKeepsLook(states, e, calls[0], i, lo, hi);
      assert TargetsWithin(calls[1..], i, lo, hi) by {
        assert forall k :: 0 <= k < |calls[1..]| ==> calls[1..][k] == calls[k + 1];
      }
      LookStaysInHull(states, Apply(states, e, calls[0]), calls[1..], i, lo, hi, now);
    }
  }

  lemma CallKeepsLook(states: States, e: Engine, c: Call, i: nat, lo: real, hi: real)
    requires Ok(states, e) && Legal(states, c) && TargetsWithin([c], i, lo, hi)
    requires LookWithin(e, i, lo, hi) && lo <= Component(NO_LOOK, i) <= hi
    ensures LookWithin(Apply(states, e, c), i, lo, hi)
  {
    if c.SetLook? {
      LookBetween(e, i, lo, hi, c.now);
      assert [c][0] == c;
    }
  }

  // ---------------------------------------------------------------- what was chosen is what is drawn

  /** What a state draws at its time `t`: its own pose, but for the body or the face when it lets them be chosen. */
  ghost predicate Wears(pose: Pose, def: StateDef, t: real, shape: Option<seq<real>>, expr: Option<Expression>) {
    var own := def.pose(t);
    && pose.sil.radii == (if def.baseBody && shape.Some? then shape.value else own.sil.radii)
    && pose.sil.(radii := own.sil.radii) == own.sil
    && (def.baseFace && expr.Some? ==>
          var x := expr.value;
          pose.gaze == x.gaze && pose.split == x.split && pose.eyeIn == x.eyeIn && pose.eyeOut == x.eyeOut)
    && (!def.baseFace || expr.None? ==>
          pose.gaze == own.gaze && pose.split == own.split && pose.eyeIn == own.eyeIn && pose.eyeOut == own.eyeOut)
    && pose.(sil := own.sil, gaze := own.gaze, split := own.split, eyeIn := own.eyeIn, eyeOut := own.eyeOut) == own
  }

  lemma PosedWears(def: StateDef, t: real, shape: Option<seq<real>>, expr: Option<Expression>)
    ensures Wears(Posed(def, t, shape, expr), def, t, shape, expr)
  {
  }

  /** Once the fade of a change is over, the state asked for is drawn, with the chosen shape and expression. */
  lemma ChosenStateIsDrawn(states: States, e: Engine, id: StateId, now: real, t: real)
    requires Ok(states, e) && id in states && id != e.cur && t >= now + states[id].morph
    ensures Wears(PoseComposee(states, Apply(states, e, SetState(id, now)), t), states[id], t - now, ShapeAtTime(e, t), ExprAtTime(e, t))
  {
    var f := Apply(states, e, SetState(id, now));
    FadeIsOver(states, f, t);
    PosedWears(states[id], t - now, ShapeAtTime(e, t), ExprAtTime(e, t));
  }

  lemma OriginOfChange(states: States, e: Engine, id: StateId, now: real, t: real)
    requires Ok(states, e) && id in states && id != e.cur
    ensures Origine(states, Changed(states, e, id, now), t, ShapeAtTime(e, t), ExprAtTime(e, t))
         == Some(if e.prev.Some? && now < e.tCur + states[e.cur].morph then PoseComposee(states, e, now)
                 else Posed(states[e.cur], Elapsed(t, e.tCur), ShapeAtTime(e, t), ExprAtTime(e, t)))
  {
  }

  lemma BlendedFromOrigin(states: States, e: Engine, t: real)
    requires Ok(states, e) && e.prev.Some? && e.tCur <= t < e.tCur + states[e.cur].morph
    ensures var origin := Origine(states, e, t, ShapeAtTime(e, t), ExprAtTime(e, t));
            && origin.Some?
            && PoseComposee(states, e, t)
                 == BlendPose(origin.value, Posed(states[e.cur], t - e.tCur, ShapeAtTime(e, t), ExprAtTime(e, t)),
                              Progress(t, e.tCur, states[e.cur].morph))
  {
  }

  /**
    During the fade the picture is blended from the pose that was drawn, if a fade was interrupted, and
    otherwise from the state that was left, which goes on moving.
  */
  lemma FadeBlends(states: States, e: Engine, id: StateId, now: real, t: real)
    requires Ok(states, e) && id in states && id != e.cur && now <= t < now + states[id].morph
    ensures var interrupted := e.prev.Some? && now < e.tCur + states[e.cur].morph;
            var left := Posed(states[e.cur], Elapsed(t, e.tCur), ShapeAtTime(e, t), ExprAtTime(e, t));
            PoseComposee(states, Apply(states, e, SetState(id, now)), t)
              == BlendPose(if interrupted then PoseComposee(states, e, now) else left,
                           Posed(states[id], t - now, ShapeAtTime(e, t), ExprAtTime(e, t)), Progress(t, now, states[id].morph))
  {
    OriginOfChange(states, e, id, now, t);
    BlendedFromOrigin(states, Apply(states, e, SetState(id, now)), t);
  }

  /** A shape, an expression or a look that was accepted is the one drawn when its morph is over. */
  lemma ChosenIsReached(states: States, e: Engine, shape: Option<Shape>, expr: Option<Expression>, look: Look,
      morph: real, now: real, t: real)
    requires Ok(states, e) && morph > 0.0
    ensures t >= now + SHAPE_MORPH && shape != e.shape ==>
              ShapeAtTime(Apply(states, e, SetShape(shape, now)), t) == (if shape.Some? then Some(shape.value.radii) else None)
    ensures t >= now + SHAPE_MORPH && expr != e.expr ==> ExprAtTime(Apply(states, e, SetExpression(expr, now)), t) == expr
    ensures t >= now + morph ==>
              var target := Target(Finite(look.yaw), Finite(look.pitch), Finite(look.mix), Finite(look.spin), Finite(look.wander));
              && LookAtTime(Apply(states, e, SetLook(Some(target), now, morph)), t) == look
              && LookAtTime(Apply(states, e, SetLook(None, now, morph)), t) == NO_LOOK
  {
    Ratios(t - now, t - now, SHAPE_MORPH);
    Ratios(t - now, t - now, morph);
  }

  function EyeNumbers(e: Eye): seq<real> {
    [e.w, e.h, e.open, Tilt(e)]
  }

  function BodyNumbers(p: Pose): seq<real> {
    [p.offX, p.offY, p.gaze.yaw, p.gaze.pitch, p.gaze.roll, p.split, p.eyeAlpha, p.bodyAlpha, p.sil.cx, p.sil.cy, p.sil.sx, p.sil.sy]
  }

  /** The numbers of a pose that are blended one by one. */
  function Numbers(p: Pose): (ns: seq<real>)
    ensures |ns| == 20
  {
    BodyNumbers(p) + EyeNumbers(p.eyeIn) + EyeNumbers(p.eyeOut)
  }

  lemma EyeIsLerped(a: Eye, b: Eye, t: real, i: nat)
    requires i < 4
    ensures EyeNumbers(LerpEye(a, b, t))[i] == Lerp(EyeNumbers(a)[i], EyeNumbers(b)[i], t)
  {
  }

  lemma BodyIsLerped(a: Pose, b: Pose, t: real, i: nat)
    requires i < 12
    ensures BodyNumbers(BlendPose(a, b, t))[i] == Lerp(BodyNumbers(a)[i], BodyNumbers(b)[i], t)
  {
  }

  lemma NumbersAreLerped(a: Pose, b: Pose, t: real, i: nat)
    requires i < 20
    ensures Numbers(BlendPose(a, b, t))[i] == Lerp(Numbers(a)[i], Numbers(b)[i], t)
  {
    if i < 12 {
      BodyIsLerped(a, b, t, i);
    } else if i < 16 {
      EyeIsLerped(a.eyeIn, b.eyeIn, t, i - 12);
    } else {
      EyeIsLerped(a.eyeOut, b.eyeOut, t, i - 16);
    }
  }

  /**
    Every number of a blended pose glides to its target: it never recedes, and its way is the time's share
    of the whole.
  */
  lemma EveryNumberGlides(a: Pose, b: Pose, s: real, t: real, i: nat)
    requires 0.0 <= s <= t <= 1.0 && i < 20
    ensures var x, y, z := Numbers(BlendPose(a, b, s))[i], Numbers(BlendPose(a, b, t))[i], Numbers(b)[i];
            Abs(z - y) <= Abs(z - x) && Abs(y - x) == Part(Abs(z - Numbers(a)[i]), t - s)
  {
    NumbersAreLerped(a, b, s, i);
    NumbersAreLerped(a, b, t, i);
    LerpApart(Numbers(a)[i], Numbers(b)[i], s, t);
  }

  // ---------------------------------------------------------------- nothing leaves its range

  predicate Unit(x: real) {
    0.0 <= x <= 1.0
  }

  /** Every opacity of a pose is one. */
  ghost predicate Opacities(p: Pose) {
    && Unit(p.eyeAlpha) && Unit(p.bodyAlpha)
    && (forall i :: 0 <= i < |p.dots| ==> Unit(p.dots[i].opacity))
    && (forall i :: 0 <= i < |p.arcs| ==> Unit(p.arcs[i].opacity))
  }

  ghost predicate StatesHaveOpacities(states: States) {
    forall id, t :: id in states ==> Opacities(states[id].pose(t))
  }

  lemma PartIsUnit(x: real, t: real)
    requires Unit(x) && Unit(t)
    ensures Unit(Part(x, t))
  {
    Shrinks(x, t);
  }

  lemma FadedAreUnit(p: Pose, t: real)
    requires Opacities(p) && Unit(t)
    ensures forall i :: 0 <= i < |p.dots| ==> Unit(FadeDots(p.dots, t)[i].opacity)
    ensures forall s, i :: 0 <= i < |p.arcs| ==> Unit(FadeArcs(s, p.arcs, t)[i].opacity)
  {
    forall i | 0 <= i < |p.dots| ensures Unit(FadeDots(p.dots, t)[i].opacity) {
      PartIsUnit(p.dots[i].opacity, t);
    }
    forall s, i | 0 <= i < |p.arcs| ensures Unit(FadeArcs(s, p.arcs, t)[i].opacity) {
      PartIsUnit(p.arcs[i].opacity, t);
    }
  }

  lemma BlendKeepsOpacities(a: Pose, b: Pose, t: real)
    requires Opacities(a) && Opacities(b) && Unit(t)
    ensures Opacities(BlendPose(a, b, t))
  {
    LerpWithin(a.eyeAlpha, b.eyeAlpha, t, 0.0, 1.0);
    LerpWithin(a.bodyAlpha, b.bodyAlpha, t, 0.0, 1.0);
    FadedAreUnit(a, 1.0 - t);
    FadedAreUnit(b, t);
  }

  lemma PosedOpacities(states: States, id: StateId, t: real, shape: Option<seq<real>>, expr: Option<Expression>)
    requires id in states && StatesHaveOpacities(states)
    ensures Opacities(Posed(states[id], t, shape, expr))
  {
    assert Opacities(states[id].pose(t));
  }

  lemma ComposedOpacities(states: States, e: Engine, now: real)
    requires Ok(states, e) && StatesHaveOpacities(states) && (e.departFige.Some? ==> Opacities(e.departFige.value))
    ensures Opacities(PoseComposee(states, e, now))
  {
    var shape, expr := ShapeAtTime(e, now), ExprAtTime(e, now);
    var pose := Posed(states[e.cur], Elapsed(now, e.tCur), shape, expr);
    var origine := Origine(states, e, now, shape, expr);
    PosedOpacities(states, e.cur, Elapsed(now, e.tCur), shape, expr);
    if origine.Some? {
      if e.departFige.None? { PosedOpacities(states, e.prev.value, Elapsed(now, e.tPrev), shape, expr); }
      ProgressClimbs(now, now, e.tCur, states[e.cur].morph);
      BlendKeepsOpacities(origine.value, pose, Progress(now, e.tCur, states[e.cur].morph));
    }
  }

  /** Poses frozen out of poses frozen before them still have opacities between 0 and 1, whatever the calls. */
  lemma {:induction false} OpacitiesStayInRange(states: States, e: Engine, calls: seq<Call>, now: real)
    requires Ok(states, e) && AllLegal(states, calls) && StatesHaveOpacities(states)
    requires e.departFige.Some? ==> Opacities(e.departFige.value)
    ensures Opacities(PoseComposee(states, Run(states, e, calls), now))
    decreases |calls|
  {
    if calls == [] {
      ComposedOpacities(states, e, now);
    } else {
      if calls[0].SetState? { ComposedOpacities(states, e, calls[0].now); }
      OpacitiesStayInRange(states, Apply(states, e, calls[0]), calls[1..], now);
    }
  }

  // ---------------------------------------------------------------- where the body's shape does jump

  /** The morph to the chosen shape is not over, and changes some radius. */
  ghost predicate MidMorph(e: Engine, now: real) {
    && e.shape.Some? && e.shapePrev.Some? && Ratio(now - e.shapeAt, SHAPE_MORPH) < 1.0
    && e.shape.value.radii != e.shapePrev.value.radii
  }

  /** All profiles have the same number of samples. */
  ghost predicate Sampled(shape: Option<Shape>) {
    shape.Some? ==> |shape.value.radii| == PROFILE_SAMPLES
  }

  lemma PartIsZero(d: real, t: real)
    requires t > 0.0
    ensures Part(d, t) == 0.0 <==> d == 0.0
  {
    if d > 0.0 { assert d * t > 0.0; }
    if d < 0.0 { assert (-d) * t > 0.0; }
  }

  lemma {:induction false} PowIsPositive(x: real, n: nat)
    requires x > 0.0
    ensures Pow(x, n) > 0.0
  {
    if n > 0 {
      PowIsPositive(x, n - 1);
      PartSign(x, Pow(x, n - 1));
      PartIsZero(x, Pow(x, n - 1));
    }
  }

  /** Before the end of a morph, a radius is at its target only if it was there from the start. */
  lemma StillOnTheWay(a: real, b: real, k: real)
    requires k < 1.0
    ensures Lerp(a, b, Ease(k)) == b <==> a == b
  {
    PowIsPositive(1.0 - Clamp(k), QUINT);
    PartOfRest(b - a, Ease(k));
    PartIsZero(b - a, 1.0 - Ease(k));
  }

  lemma ShapeIsReached(e: Engine, now: real)
    requires e.shape.Some? && Sampled(e.shape) && Sampled(e.shapePrev)
    ensures ShapeAtTime(e, now) == Some(e.shape.value.radii) <==> !MidMorph(e, now)
  {
    if e.shapePrev.Some? && Ratio(now - e.shapeAt, SHAPE_MORPH) < 1.0 {
      var to, from := e.shape.value.radii, e.shapePrev.value.radii;
      var k := Ratio(now - e.shapeAt, SHAPE_MORPH);
      forall i | 0 <= i < PROFILE_SAMPLES ensures Lerp(from[i], to[i], Ease(k)) == to[i] <==> from[i] == to[i] {
        StillOnTheWay(from[i], to[i], k);
      }
      var drawn := ShapeAtTime(e, now).value;
      assert forall i :: 0 <= i < PROFILE_SAMPLES ==> drawn[i] == Lerp(from[i], to[i], Ease(k));
      if drawn == to {
        assert forall i :: 0 <= i < PROFILE_SAMPLES ==> drawn[i] == to[i];
        assert from == to;
      }
    }
  }

  /**
    Unlike states and looks, a new shape morphs from the shape chosen before, not from the one drawn.
    So the body is where it was exactly when there was a shape, there still is one, and no morph was
    in progress.
  */
  lemma SetShapeIsSeamlessIff(states: States, e: Engine, shape: Option<Shape>, now: real)
    requires Ok(states, e) && shape != e.shape
    requires Sampled(shape) && Sampled(e.shape) && Sampled(e.shapePrev)
    ensures ShapeAtTime(Apply(states, e, SetShape(shape, now)), now) == ShapeAtTime(e, now)
            <==> shape.Some? && e.shape.Some? && !MidMorph(e, now)
  {
    if shape.Some? && e.shape.Some? {
      ShapeIsReached(e, now);
      StartsAtPrevious(Apply(states, e, SetShape(shape, now)), now);
    }
  }

  lemma StartsAtPrevious(e: Engine, now: real)
    requires e.shapeAt == now && e.shape.Some? && e.shapePrev.Some? && Sampled(e.shape) && Sampled(e.shapePrev)
    ensures ShapeAtTime(e, now) == Some(e.shapePrev.value.radii)
  {
    JustChosen(e, now);
    MorphStarts(e.shapePrev.value.radii, e.shape.value.radii);
  }

  lemma JustChosen(e: Engine, now: real)
    requires e.shapeAt == now && e.shape.Some? && e.shapePrev.Some?
    ensures ShapeAtTime(e, now) == Some(Morphed(e.shapePrev.value.radii, e.shape.value.radii, 0.0))
  {
    JustBegun(now, SHAPE_MORPH);
  }

  lemma JustBegun(now: real, length: real)
    requires length > 0.0
    ensures Ratio(now - now, length) < 1.0 && Progress(now, now, length) == 0.0
  {
    RatioSign(now - now, length);
    EasingEnds(Ratio(now - now, length));
  }

  lemma MorphStarts(from: seq<real>, to: seq<real>)
    requires |from| == |to|
    ensures Morphed(from, to, 0.0) == from
  {
    forall i | 0 <= i < |to| ensures Lerp(from[i], to[i], 0.0) == from[i] {
      LerpEnds(from[i], to[i]);
    }
  }

  /** Three shapes in a row, the second change while the first morph is on: the body jumps. */
  lemma ShapeJumps(states: States, cur: StateId, now: real)
    requires WellFormed(states) && cur in states
    ensures var round, wide := Shape(0, seq(PROFILE_SAMPLES, _ => 1.0)), Shape(1, seq(PROFILE_SAMPLES, _ => 2.0));
            var e := Apply(states, Initial(cur, Some(round), None), SetShape(Some(wide), now));
            ShapeAtTime(Apply(states, e, SetShape(Some(round), now)), now) != ShapeAtTime(e, now)
  {
    var round, wide := Shape(0, seq(PROFILE_SAMPLES, _ => 1.0)), Shape(1, seq(PROFILE_SAMPLES, _ => 2.0));
    assert round.radii[0] == 1.0 && wide.radii[0] == 2.0;
    var e := Apply(states, Initial(cur, Some(round), None), SetShape(Some(wide), now));
    RatioSign(now - now, SHAPE_MORPH);
    SetShapeIsSeamlessIff(states, e, Some(round), now);
  }

  lemma {:induction false} RunAppend(states: States, e: Engine, calls: seq<Call>, c: Call)
    requires Ok(states, e) && AllLegal(states, calls) && Legal(states, c)
    ensures AllLegal(states, calls + [c])
    ensures Run(states, e, calls + [c]) == Apply(states, Run(states, e, calls), c)
    decreases |calls|
  {
    if calls == [] {
      assert [c][1..] == [];
    } else {
      assert (calls + [c])[0] == calls[0] && (calls + [c])[1..] == calls[1..] + [c];
      RunAppend(states, Apply(states, e, calls[0]), calls[1..], c);
    }
  }

  // ---------------------------------------------------------------- the engine, as an object

  class BotEngine {
    const states: States
    var cur: StateId
    var prev: Option<StateId>
    var departFige: Option<Pose>
    var tCur: real
    var tPrev: real
    var blinkAt: real
    var shape: Option<Shape>
    var shapePrev: Option<Shape>
    var shapeAt: real
    var expr: Option<Expression>
    var exprPrev: Option<Expression>
    var exprAt: real
    var look: Look
    var lookPrev: Look
    var lookAt: real
    var lookMorph: real
    ghost const start: Engine
    ghost var calls: seq<Call>

    ghost function View(): Engine
      reads this
    {
      Engine(cur, prev, departFige, tCur, tPrev, blinkAt, shape, shapePrev, shapeAt, expr, exprPrev, exprAt,
        look, lookPrev, lookAt, lookMorph)
    }

    /** The fields are what the calls made so far leave. */
    ghost predicate Valid()
      reads this
    {
      Ok(states, start) && AllLegal(states, calls) && View() == Run(states, start, calls)
    }

    constructor (states: States, initial: StateId, shape: Option<Shape>, expression: Option<Expression>)
      requires WellFormed(states) && initial in states
      ensures Valid() && this.states == states && start == Initial(initial, shape, expression) && calls == []
    {
      this.states := states;
      cur, prev, departFige := initial, None, None;
      tCur, tPrev, blinkAt := 0.0, 0.0, LONG_AGO;
      this.shape, shapePrev, shapeAt := shape, None, LONG_AGO;
      expr, exprPrev, exprAt := expression, None, LONG_AGO;
      look, lookPrev, lookAt, lookMorph := NO_LOOK, NO_LOOK, LONG_AGO, LOOK_MORPH;
      start := Initial(initial, shape, expression);
      calls := [];
    }

    ghost method Record(c: Call)
      requires Ok(states, start) && AllLegal(states, calls) && Legal(states, c)
      requires View() == Apply(states, Run(states, start, calls), c)
      modifies this`calls
      ensures Valid() && calls == old(calls) + [c]
    {
      RunAppend(states, start, calls, c);
      calls := calls + [c];
    }

    /** The blended pose, before idle life and gaze; only looks at the fields. */
    method ComposePose(now: real) returns (pose: Pose)
      requires Ok(states, View())
      ensures pose == PoseComposee(states, View(), now)
    {
      var def := states[cur];
      var shapeNow := CurrentShape(now);
      var exprNow := CurrentExpression(now);
      pose := Posed(def, Elapsed(now, tCur), shapeNow, exprNow);
      if now - tCur >= def.morph { return; }
      var origine := departFige;
      if origine.None? && prev.Some? {
        origine := Some(Posed(states[prev.value], Elapsed(now, tPrev), shapeNow, exprNow));
      }
      if origine.Some? {
        var t := Progress(now, tCur, def.morph);
        var sil := Blend(origine.value.sil, pose.sil, t);
        pose := PoseAround(sil, origine.value, pose, t);
      }
    }

    method CurrentShape(now: real) returns (radii: Option<seq<real>>)
      ensures radii == ShapeAtTime(View(), now)
    {
      if shape.None? { return None; }
      if shapePrev.None? || Ratio(now - shapeAt, SHAPE_MORPH) >= 1.0 { return Some(shape.value.radii); }
      var to, from, t := shape.value.radii, shapePrev.value.radii, Progress(now, shapeAt, SHAPE_MORPH);
      return Some(Morphed(from, to, t));
    }

    method CurrentExpression(now: real) returns (e: Option<Expression>)
      ensures e == ExprAtTime(View(), now)
    {
      if expr.None? || exprPrev.None? || Ratio(now - exprAt, SHAPE_MORPH) >= 1.0 { return expr; }
      var a, b, t := exprPrev.value, expr.value, Progress(now, exprAt, SHAPE_MORPH);
      return Some(Expression(b.id, LerpGaze(a.gaze, b.gaze, t), Lerp(a.split, b.split, t),
        LerpEye(a.eyeIn, b.eyeIn, t), LerpEye(a.eyeOut, b.eyeOut, t)));
    }

    method CurrentLook(now: real) returns (l: Look)
      requires lookMorph > 0.0
      ensures l == LookAtTime(View(), now)
    {
      if Ratio(now - lookAt, lookMorph) >= 1.0 { return look; }
      return LerpLook(lookPrev, look, Progress(now, lookAt, lookMorph));
    }

    method SetState(id: StateId, now: real)
      requires Valid() && id in states
      modifies this
      ensures Valid() && calls == old(calls) + [Call.SetState(id, now)]
      ensures SamePicture(PoseComposee(states, View(), now), old(PoseComposee(states, View(), now)))
    {
      ghost var before := View();
      ChangeIsSeamless(states, before, id, now);
      if id != cur {
        var midFade := prev.Some? && now - tCur < states[cur].morph;
        var frozen := None;
        if midFade {
          var pose := ComposePose(now);
          frozen := Some(pose);
        }
        Enter(id, now, frozen);
      }
      assert View() == Changed(states, before, id, now);
      Record(Call.SetState(id, now));
    }

    method Enter(id: StateId, now: real, frozen: Option<Pose>)
      requires id in states
      modifies `departFige, `prev, `tPrev, `cur, `tCur, `blinkAt
      ensures View() == old(View()).(departFige := frozen, prev := Some(old(cur)), tPrev := old(tCur), cur := id,
                tCur := now, blinkAt := if states[id].blinkIn then now else old(blinkAt))
    {
      departFige := frozen;
      prev := Some(cur);
      tPrev := tCur;
      cur := id;
      tCur := now;
      if states[id].blinkIn { blinkAt := now; }
    }

    method Reset(id: StateId, now: real)
      requires Valid() && id in states
      modifies this
      ensures Valid() && calls == old(calls) + [Call.Reset(id, now)]
    {
      cur, prev, departFige := id, None, None;
      tCur, tPrev, blinkAt := now, now, LONG_AGO;
      Record(Call.Reset(id, now));
    }

    method SetShape(radii: Option<Shape>, now: real)
      requires Valid()
      modifies this
      ensures Valid() && calls == old(calls) + [Call.SetShape(radii, now)]
    {
      if radii != shape {
        shapePrev := shape;
        shape := radii;
        shapeAt := now;
      }
      Record(Call.SetShape(radii, now));
    }

    method SetExpression(expression: Option<Expression>, now: real)
      requires Valid()
      modifies this
      ensures Valid() && calls == old(calls) + [Call.SetExpression(expression, now)]
    {
      if expression != expr {
        exprPrev := expr;
        expr := expression;
        exprAt := now;
      }
      Record(Call.SetExpression(expression, now));
    }

    method SetLook(target: Option<Target>, now: real, morph: real)
      requires Valid() && morph > 0.0
      modifies this
      ensures Valid() && calls == old(calls) + [Call.SetLook(target, now, morph)]
      ensures LookAtTime(View(), now) == old(LookAtTime(View(), now))
    {
      LookIsSeamless(states, View(), target, now, morph);
      if target.None? || Accepted(target.value).Some? {
        lookPrev := CurrentLook(now);
        look := if target.Some? then Accepted(target.value).value else NO_LOOK;
        lookAt := now;
        lookMorph := morph;
      }
      Record(Call.SetLook(target, now, morph));
    }
  }
}
