/** The renderer's actor records and the per-actor rules of its behaviour engine: the roam
    mode, the sprite animator and row selection, the bounds policy, and the choice of a
    new walking or running target. Coordinates are reals; the random draws are parameters. */
module Actors {

  /** `roamMode`: `'FULL'`, `'BOTTOM'` or `'NONE'` (the actors are hidden). */
  datatype RoamMode = Full | Bottom | Hidden

  /** The mode that `cycleRoamMode` switches to. */
  function NextMode(m: RoamMode): RoamMode {
    match m
    case Full => Bottom
    case Bottom => Hidden
    case Hidden => Full
  }

  /** The text the mode button shows after switching to `m`. */
  function ModeLabel(m: RoamMode): string {
    match m
    case Full => "MODE: FULL"
    case Bottom => "MODE: BTM"
    case Hidden => "MODE: OFF"
  }

  /** Cycling always changes the mode, visits all three, and three cycles come back. */
  lemma ModeCycle(m: RoamMode)
    ensures NextMode(m) != m && NextMode(NextMode(m)) != m
    ensures NextMode(NextMode(NextMode(m))) == m
    ensures {m, NextMode(m), NextMode(NextMode(m))} == {Full, Bottom, Hidden}
    ensures ModeLabel(NextMode(m)) != ModeLabel(NextMode(NextMode(m)))
  {
  }

  /** The `state` strings the two actors use. */
  datatype ActorState = Idle | Walk | Run | Sleep | Surprise | Dragged | Chase | Talk

  /** One actor object. The cat never reads `isTalking`/`lastFaceChange` and the human never
      reads `idleTime`/`sleepTime`/`sleepDuration`; both records carry all fields. */
  datatype Actor = Actor(
    x: real, y: real, vx: real, vy: real,
    targetX: real, targetY: real,
    state: ActorState, frame: nat, timer: real, facingRight: bool, scale: real,
    idleTime: real, sleepTime: real, sleepDuration: real,
    isTalking: bool, lastFaceChange: real)

  /** `window.innerWidth` and `window.innerHeight`. */
  datatype Viewport = Viewport(width: real, height: real)

  /** Milliseconds per sprite frame for the cat. */
  function PetCadence(s: ActorState): real {
    if s == Sleep then 500.0 else if s == Run then 30.0 else if s == Walk then 80.0 else 200.0
  }

  /** Milliseconds per sprite frame for the human. */
  function OwnerCadence(s: ActorState): real {
    if s == Chase then 60.0 else 150.0
  }

  /** The frame timer: accumulate `dt`, and once past the cadence reset it and advance the
      frame modulo four. */
  function Animate(a: Actor, dt: real, cadence: real): Actor {
    var t := a.timer + dt;
    if t > cadence then a.(timer := 0.0, frame := (a.frame + 1) % 4) else a.(timer := t)
  }

  lemma AnimatorSpec(a: Actor, dt: real, cadence: real)
    ensures var r := Animate(a, dt, cadence);
      && r == a.(timer := r.timer, frame := r.frame)
      && (a.frame < 4 ==> r.frame < 4)
      && (a.timer + dt > cadence ==> r.timer == 0.0 && r.frame == (a.frame + 1) % 4 && r.frame != a.frame)
      && (a.timer + dt <= cadence ==> r.timer == a.timer + dt && r.frame == a.frame)
  {
  }

  /** Four frame advances bring the sprite back to its first frame. */
  lemma {:induction false} FrameCycle(a: Actor, dt: real, cadence: real)
    requires a.frame < 4 && a.timer + dt > cadence && dt > cadence
    ensures Animate(Animate(Animate(Animate(a, dt, cadence), dt, cadence), dt, cadence), dt, cadence).frame == a.frame
  {
    var a1 := Animate(a, dt, cadence);
    assert a1.timer == 0.0;
    var a2 := Animate(a1, dt, cadence);
    var a3 := Animate(a2, dt, cadence);
    assert a3.frame == (a.frame + 3) % 4;
  }

  /** Faster motion animates faster: a running cat cycles its frames quickest, then a
      walking one, and a sleeping one slowest; a chasing human is quicker than any other. */
  lemma CadenceOrder(s: ActorState)
    ensures s != Run ==> PetCadence(Run) < PetCadence(s)
    ensures s != Run && s != Walk ==> PetCadence(Walk) < PetCadence(s)
    ensures s != Sleep ==> PetCadence(s) < PetCadence(Sleep)
    ensures s != Chase ==> OwnerCadence(Chase) < OwnerCadence(s)
    ensures 0.0 < PetCadence(s) && 0.0 < OwnerCadence(s)
  {
  }

  /** The sprite-sheet row `drawActorOnCtx` picks; later tests override earlier ones. */
  function Row(s: ActorState): (row: nat) {
    var r0 := if s == Walk || s == Run || s == Chase then 1 else 0;
    var r1 := if s == Sleep || s == Talk then 2 else r0;
    var r2 := if s == Surprise then 3 else r1;
    if s == Dragged then 4 else r2
  }

  /** Every state gets exactly one row, and the idle row is shared only with no other state. */
  lemma RowSpec(s: ActorState)
    ensures Row(s) == 1 <==> s in {Walk, Run, Chase}
    ensures Row(s) == 2 <==> s in {Sleep, Talk}
    ensures Row(s) == 3 <==> s == Surprise
    ensures Row(s) == 4 <==> s == Dragged
    ensures Row(s) == 0 <==> s == Idle
  {
  }

  /** The horizontal bound: below 0 goes to 0, then beyond `width - 50` goes there. */
  function ClampX(x: real, width: real): (r: real)
    ensures r <= width - 50.0
    ensures width >= 50.0 ==> 0.0 <= r
    ensures 0.0 <= x <= width - 50.0 ==> r == x
  {
    var x1 := if x < 0.0 then 0.0 else x;
    if x1 > width - 50.0 then width - 50.0 else x1
  }

  /** The vertical bound outside BOTTOM: a `y` above the top is only pushed down by 5, and
      anything past `height - 50` goes there. */
  function FreeY(y: real, height: real): (r: real)
    ensures r <= height - 50.0
    ensures y < 0.0 && y + 5.0 <= height - 50.0 ==> r == y + 5.0
    ensures 0.0 <= y <= height - 50.0 ==> r == y
  {
    var y1 := if y < 0.0 then y + 5.0 else y;
    if y1 > height - 50.0 then height - 50.0 else y1
  }

  function Abs(v: real): real { if v < 0.0 then -v else v }

  /** BOTTOM's floor rule: more than 5 away glides a tenth of the way, otherwise snaps. */
  function SettleY(y: real, floor: real): real {
    if Abs(y - floor) > 5.0 then y + (floor - y) * 0.1 else floor
  }

  lemma SettleSpec(y: real, floor: real)
    ensures Abs(y - floor) > 5.0 ==> SettleY(y, floor) - floor == 0.9 * (y - floor)
    ensures Abs(y - floor) > 5.0 ==> Abs(SettleY(y, floor) - floor) < Abs(y - floor)
    ensures Abs(y - floor) <= 5.0 ==> SettleY(y, floor) == floor
    ensures SettleY(floor, floor) == floor
  {
  }

  /** The bounds rule for the given mode and floor. */
  function BoundY(y: real, mode: RoamMode, floor: real, height: real): real {
    if mode == Bottom then SettleY(y, floor) else FreeY(y, height)
  }

  /** `n` applications of the floor rule. */
  function SettleN(y: real, floor: real, n: nat): real
    decreases n
  {
    if n == 0 then y else SettleN(SettleY(y, floor), floor, n - 1)
  }

  function Pow(b: real, n: nat): real
    decreases n
  {
    if n == 0 then 1.0 else b * Pow(b, n - 1)
  }

  /** Once on the floor an actor stays there. */
  lemma {:induction false} SettleNStays(floor: real, n: nat)
    ensures SettleN(floor, floor, n) == floor
    decreases n
  {
    if n > 0 {
      SettleNStays(floor, n - 1);
    }
  }

  /** A gap of at most `5 * (10/9)^n` reaches the floor exactly within `n + 1` applications,
      and stays there. */
  lemma {:induction false} SettleReachesFloor(y: real, floor: real, n: nat, extra: nat)
    requires Abs(y - floor) <= 5.0 * Pow(10.0 / 9.0, n)
    ensures SettleN(y, floor, n + 1 + extra) == floor
    decreases n
  {
    if Abs(y - floor) <= 5.0 {
      assert SettleY(y, floor) == floor;
      SettleNStays(floor, n + extra);
    } else {
      assert n > 0;
      var y1 := SettleY(y, floor);
      SettleSpec(y, floor);
      var p := Pow(10.0 / 9.0, n - 1);
      assert Pow(10.0 / 9.0, n) == 10.0 / 9.0 * p;
      assert Abs(y1 - floor) == 0.9 * Abs(y - floor);
      assert 0.9 * Abs(y - floor) <= 0.9 * (5.0 * (10.0 / 9.0 * p));
      SettleReachesFloor(y1, floor, n - 1, extra);
    }
  }

  /** The vertical target both target choices draw: the floor in BOTTOM, else uniform
      between `minY` and the bottom of the window. */
  function RawTargetY(minY: real, mode: RoamMode, vp: Viewport, uy: real): real {
    if mode == Bottom then vp.height - 50.0 else minY + uy * (vp.height - minY)
  }

  lemma RawTargetYSpec(minY: real, mode: RoamMode, vp: Viewport, uy: real)
    requires 0.0 <= uy < 1.0 && minY <= vp.height
    ensures mode == Bottom ==> RawTargetY(minY, mode, vp, uy) == vp.height - 50.0
    ensures mode != Bottom ==> minY <= RawTargetY(minY, mode, vp, uy) <= vp.height
  {
    if mode != Bottom {
      var span := vp.height - minY;
      assert RawTargetY(minY, mode, vp, uy) == minY + uy * span;
      if span == 0.0 {
        assert uy * span == 0.0;
      } else {
        Scale(uy, span);
      }
    }
  }

  /** `pickRandomTarget`: a target from the draws `ux`, `uy`, clamped into the margins, and
      WALK. In BOTTOM the target is on the cat's floor. */
  function PickRandomTarget(p: Actor, minY: real, mode: RoamMode, vp: Viewport, ux: real, uy: real): Actor {
    var tx := ux * vp.width;
    var ty := RawTargetY(minY, mode, vp, uy);
    var tx1 := if tx < 20.0 then 20.0 else tx;
    var tx2 := if tx1 > vp.width - 50.0 then vp.width - 50.0 else tx1;
    var ty1 := if ty < 20.0 then 20.0 else ty;
    var ty2 := if ty1 > vp.height - 50.0 then vp.height - 50.0 else ty1;
    p.(targetX := tx2, targetY := ty2, state := Walk)
  }

  lemma PickRandomTargetSpec(p: Actor, minY: real, mode: RoamMode, vp: Viewport, ux: real, uy: real)
    ensures var r := PickRandomTarget(p, minY, mode, vp, ux, uy);
      && r == p.(targetX := r.targetX, targetY := r.targetY, state := Walk)
      && r.targetX <= vp.width - 50.0 && (vp.width >= 70.0 ==> 20.0 <= r.targetX)
      && r.targetY <= vp.height - 50.0 && (vp.height >= 70.0 ==> 20.0 <= r.targetY)
      && (mode == Bottom ==> r.targetY == vp.height - 50.0)
      && (20.0 <= ux * vp.width <= vp.width - 50.0 ==> r.targetX == ux * vp.width)
  {
    var tx := ux * vp.width;
    var r := PickRandomTarget(p, minY, mode, vp, ux, uy);
    if 20.0 <= tx <= vp.width - 50.0 {
      assert r.targetX == tx;
    }
  }

  /** `startZoomies`: RUN towards an unclamped target. */
  function StartZoomies(p: Actor, minY: real, mode: RoamMode, vp: Viewport, ux: real, uy: real): Actor {
    p.(state := Run, targetX := ux * vp.width, targetY := RawTargetY(minY, mode, vp, uy))
  }

  /** A zoomies target lies anywhere across the window and on the vertical span. */
  lemma StartZoomiesSpec(p: Actor, minY: real, mode: RoamMode, vp: Viewport, ux: real, uy: real)
    requires 0.0 <= ux < 1.0 && 0.0 <= uy < 1.0 && vp.width > 0.0 && minY <= vp.height
    ensures StartZoomies(p, minY, mode, vp, ux, uy).state == Run
    ensures 0.0 <= StartZoomies(p, minY, mode, vp, ux, uy).targetX < vp.width
    ensures mode == Bottom ==> StartZoomies(p, minY, mode, vp, ux, uy).targetY == vp.height - 50.0
    ensures mode != Bottom ==> minY <= StartZoomies(p, minY, mode, vp, ux, uy).targetY <= vp.height
  {
    ZoomTargetX(p, minY, mode, vp, ux, uy);
    RawTargetYSpec(minY, mode, vp, uy);
  }

  lemma ZoomTargetX(p: Actor, minY: real, mode: RoamMode, vp: Viewport, ux: real, uy: real)
    requires 0.0 <= ux < 1.0 && vp.width > 0.0
    ensures 0.0 <= StartZoomies(p, minY, mode, vp, ux, uy).targetX < vp.width
  {
    var tx := ux * vp.width;
    assert StartZoomies(p, minY, mode, vp, ux, uy).targetX == tx;
    Scale(ux, vp.width);
    assert 0.0 <= tx < vp.width;
  }

  /** Unlike a picked target, a zoomies target may lie in the margins: with a zero draw it
      is at the left edge itself, where a picked one is moved to 20. */
  lemma ZoomiesIgnoreMargin(p: Actor, minY: real, mode: RoamMode, vp: Viewport, uy: real)
    requires vp.width >= 70.0
    ensures StartZoomies(p, minY, mode, vp, 0.0, uy).targetX == 0.0
    ensures PickRandomTarget(p, minY, mode, vp, 0.0, uy).targetX == 20.0
  {
    assert 0.0 * vp.width == 0.0;
  }

  lemma Scale(u: real, w: real)
    requires 0.0 <= u < 1.0 && w > 0.0
    ensures 0.0 <= u * w < w
  {
    assert (1.0 - u) * w > 0.0;
  }

  /** The human's turn rule: only when `eligible` (far enough, for a chase) and more than
      1500 ms after the last turn, and only for a clear heading. */
  function Turn(h: Actor, cosA: real, eligible: bool, now: real): Actor {
    if eligible && now - h.lastFaceChange > 1500.0 then
      if cosA > 0.6 && !h.facingRight then h.(facingRight := true, lastFaceChange := now)
      else if cosA < -0.6 && h.facingRight then h.(facingRight := false, lastFaceChange := now)
      else h
    else h
  }

  /** A turn stamps its time; between two turns more than 1500 ms pass; a heading within
      0.6 of vertical never turns; and after a turn the actor faces the way it moves. */
  lemma TurnSpec(h: Actor, cosA: real, eligible: bool, now: real)
    ensures var r := Turn(h, cosA, eligible, now);
      && r == h.(facingRight := r.facingRight, lastFaceChange := r.lastFaceChange)
      && (r.facingRight != h.facingRight <==>
            eligible && now - h.lastFaceChange > 1500.0 &&
            ((cosA > 0.6 && !h.facingRight) || (cosA < -0.6 && h.facingRight)))
      && (r.facingRight != h.facingRight ==> r.lastFaceChange == now && (r.facingRight <==> cosA > 0.0))
      && (r.facingRight == h.facingRight ==> r == h)
  {
  }
}
