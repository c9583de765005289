/**
 * The bounds check of `moveTurtle` over JavaScript numbers (TartarugaWeb/script.js:36-64,
 * JogoTartaruga/script.js:42-63). The check rejects a candidate only when one of its
 * comparisons with the edges is true; every comparison with NaN is false, so a NaN candidate is
 * committed. A heading that has become infinite (`DIREITA 1E400`: `parseFloat` gives Infinity)
 * makes `Math.cos` and `Math.sin` NaN, and the next move puts the turtle at (NaN, NaN).
 * `MoveChecked` is the check the code evidently means, which admits only a candidate inside
 * the board; `Turtle.Move`, over real numbers, is that check (`MoveIsChecked`).
 */
module BoundsCheck {
  import opened JsNumber
  import opened Turtle

  datatype NumPose = NumPose(x: Num, y: Num, angle: Num)

  datatype NumMoved = NumMoved(pose: NumPose, ok: bool)

  const NUM_HOME: NumPose := NumPose(Fin(0.0), Fin(0.0), Fin(90.0))

  /** `Math.PI / 180` as a double. */
  const RAD: real := 0.017453292519943295

  /** `Math.cos` and `Math.sin` of an angle in radians, given; both are NaN off the finite numbers. */
  type Trig = Num -> (Num, Num)

  ghost predicate NaNOffFinite(trig: Trig) {
    forall a: Num :: !a.Fin? ==> trig(a) == (NaN, NaN)
  }

  /** `(turtle.angle - 90) * (Math.PI / 180)` */
  function Radians(angle: Num): (rad: Num)
    ensures rad.Fin? <==> angle.Fin?
  {
    Mul(Sub(angle, Fin(90.0)), Fin(RAD))
  }

  /** `(turtle.x + cos(rad) * dist, turtle.y + sin(rad) * dist)` */
  function Candidate(trig: Trig, p: NumPose, dist: Num): (Num, Num) {
    var cs := trig(Radians(p.angle));
    (Add(p.x, Mul(cs.0, dist)), Add(p.y, Mul(cs.1, dist)))
  }

  /** The test as written: `nextX < -eps || nextX > 7 + eps || nextY < -eps || nextY > 7 + eps`. */
  predicate OutOfBoundsAsWritten(nextX: Num, nextY: Num) {
    || Less(nextX, Fin(-EPSILON)) || Less(Fin(EDGE + EPSILON), nextX)
    || Less(nextY, Fin(-EPSILON)) || Less(Fin(EDGE + EPSILON), nextY)
  }

  /** A coordinate inside the tolerance box: a finite number between the edges. */
  predicate InBounds(v: Num) {
    v.Fin? && -EPSILON <= v.r <= EDGE + EPSILON
  }

  predicate OnBoardNum(p: NumPose) {
    InBounds(p.x) && InBounds(p.y)
  }

  /** `rotateTurtle(deg)` over JavaScript numbers. */
  function RotateNum(p: NumPose, deg: Num): (r: NumPose)
    ensures r.x == p.x && r.y == p.y
  {
    p.(angle := Add(p.angle, deg))
  }

  /** `moveTurtle(dist)` as written: commits every candidate the negative test does not reject. */
  function MoveAsWritten(trig: Trig, p: NumPose, dist: Num): (m: NumMoved)
    ensures m.ok <==> !OutOfBoundsAsWritten(Candidate(trig, p, dist).0, Candidate(trig, p, dist).1)
    ensures !m.ok ==> m.pose == p
    ensures m.ok ==> m.pose == NumPose(Candidate(trig, p, dist).0, Candidate(trig, p, dist).1, p.angle)
  {
    var c := Candidate(trig, p, dist);
    if OutOfBoundsAsWritten(c.0, c.1) then NumMoved(p, false) else NumMoved(NumPose(c.0, c.1, p.angle), true)
  }

  /** `moveTurtle(dist)` with the intended test: only a candidate inside the board is committed. */
  function MoveChecked(trig: Trig, p: NumPose, dist: Num): (m: NumMoved)
    ensures m.ok ==> OnBoardNum(m.pose) && m.pose.angle == p.angle
    ensures !m.ok ==> m.pose == p
    ensures OnBoardNum(p) ==> OnBoardNum(m.pose)
  {
    var c := Candidate(trig, p, dist);
    if InBounds(c.0) && InBounds(c.1) then NumMoved(NumPose(c.0, c.1, p.angle), true) else NumMoved(p, false)
  }

  /** On finite coordinates the written test rejects exactly what the intended test does not admit. */
  lemma ChecksAgreeOnFinite(x: real, y: real)
    ensures OutOfBoundsAsWritten(Fin(x), Fin(y)) <==> !(InBounds(Fin(x)) && InBounds(Fin(y)))
    ensures InBounds(Fin(x)) && InBounds(Fin(y)) <==> OnBoard(x, y)
  {
  }

  /** The two moves differ only on a candidate with a NaN coordinate; an infinite one is refused by both. */
  lemma {:induction false} AsWrittenDiffersOnlyOnNaN(trig: Trig, p: NumPose, dist: Num)
    ensures var c := Candidate(trig, p, dist);
            MoveAsWritten(trig, p, dist) != MoveChecked(trig, p, dist) ==> c.0.NaN? || c.1.NaN?
  {
    var c := Candidate(trig, p, dist);
    if !c.0.NaN? && !c.1.NaN? {
      assert OutOfBoundsAsWritten(c.0, c.1) <==> !(InBounds(c.0) && InBounds(c.1)) by {
        assert !c.0.Fin? ==> OutOfBoundsAsWritten(c.0, c.1);
        assert !c.1.Fin? ==> OutOfBoundsAsWritten(c.0, c.1);
      }
    }
  }

  /**
   * As written, once the heading is not a finite number every move is committed, and it puts the
   * turtle at (NaN, NaN), off the board.
   */
  lemma InfiniteHeadingEscapes(trig: Trig, p: NumPose, dist: Num)
    requires NaNOffFinite(trig)
    requires !p.angle.Fin?
    ensures var m := MoveAsWritten(trig, p, dist);
            m.ok && m.pose.x.NaN? && m.pose.y.NaN? && !OnBoardNum(m.pose)
  {
    assert trig(Radians(p.angle)) == (NaN, NaN);
  }

  /**
   * `DIREITA 1E400` then `ANDA 1` from the start pose: `parseFloat` gives Infinity, which `|| 0`
   * keeps, so the heading becomes Infinity and the move as written leaves the board, while the
   * intended check refuses it and keeps the turtle home.
   */
  lemma TurnByInfinityThenMove(trig: Trig)
    requires NaNOffFinite(trig)
    ensures var p := RotateNum(NUM_HOME, OrZero(PosInf));
            && p.angle == PosInf
            && !OnBoardNum(MoveAsWritten(trig, p, OrZero(Fin(1.0))).pose)
            && MoveChecked(trig, p, OrZero(Fin(1.0))) == NumMoved(p, false)
  {
    var p := RotateNum(NUM_HOME, OrZero(PosInf));
    InfiniteHeadingEscapes(trig, p, OrZero(Fin(1.0)));
    assert trig(Radians(p.angle)) == (NaN, NaN);
  }

  /**
   * On finite numbers the intended check is `Turtle.Move`: with a displacement that agrees with
   * the cosine and sine given, both commit the same position or both refuse.
   */
  lemma MoveIsChecked(trig: Trig, disp: Displacement, p: Pose, dist: real)
    requires var cs := trig(Radians(Fin(p.angle)));
             && cs.0.Fin? && cs.1.Fin?
             && disp(p.angle, dist) == Vec(cs.0.r * dist, cs.1.r * dist)
    ensures var m := Move(disp, p, dist);
            MoveChecked(trig, NumPose(Fin(p.x), Fin(p.y), Fin(p.angle)), Fin(dist))
              == NumMoved(NumPose(Fin(m.pose.x), Fin(m.pose.y), Fin(m.pose.angle)), m.ok)
  {
    var cs := trig(Radians(Fin(p.angle)));
    var np := NumPose(Fin(p.x), Fin(p.y), Fin(p.angle));
    var c := Candidate(trig, np, Fin(dist));
    assert Mul(cs.0, Fin(dist)) == Fin(cs.0.r * dist) && Mul(cs.1, Fin(dist)) == Fin(cs.1.r * dist);
    assert c == (Fin(p.x + cs.0.r * dist), Fin(p.y + cs.1.r * dist));
    ChecksAgreeOnFinite(c.0.r, c.1.r);
  }
}
