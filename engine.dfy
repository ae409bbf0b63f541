/** What the behaviour engine guarantees: the per-tick rules of each state, the bounds and
    floor policy, the order of a frame, the drag handlers, the deferred callbacks, and an
    invariant every event keeps. */
module Engine {
  import opened Wrappers
  import opened Actors
  import opened Bubbles
  import opened Behaviour

  /** The invariant: frames stay in the sheet, element identities are fresh and increasing,
      and at most one element following the human is shown, the remembered thought. */
  predicate Valid(w: World) {
    && w.cat.frame < 4 && w.human.frame < 4
    && Tracked(w.bubbles, w.nextId, w.activeThought)
  }

  /** The bubble part of the invariant. */
  predicate Tracked(bs: seq<Bubble>, nextId: nat, active: Option<nat>) {
    && IdsIncreasing(bs)
    && (forall b :: b in bs ==> b.id < nextId)
    && (forall b :: b in bs && b.attach == ToHuman && b.inDom ==> active == Some(b.id))
  }

  /** No element following the human is in the document. */
  predicate NoneShown(bs: seq<Bubble>) {
    forall b :: b in bs && b.attach == ToHuman ==> !b.inDom
  }

  lemma InitialValid(vp: Viewport, now: real)
    ensures Valid(Initial(vp, now))
    ensures Initial(vp, now).mode == Full && Initial(vp, now).cat.state == Idle && Initial(vp, now).human.state == Idle
    ensures Initial(vp, now).bubbles == [] && Initial(vp, now).pending == []
  {
  }

  // ---- helpers about the settling steps ----

  /** Physics, bounds and animator never change the state, the target or the counters. */
  lemma SettleKeeps(c: Actor, mode: RoamMode, vp: Viewport, dt: real)
    ensures var r := CatSettle(c, mode, vp, dt);
      && r.state == c.state && r.targetX == c.targetX && r.targetY == c.targetY
      && r.sleepTime == c.sleepTime && r.sleepDuration == c.sleepDuration && r.idleTime == c.idleTime
      && r.facingRight == c.facingRight && r.x == ClampX(c.x, vp.width)
      && (c.state != Surprise || mode == Bottom ==> r.y == BoundY(c.y, mode, vp.height - 50.0, vp.height))
      && (c.frame < 4 ==> r.frame < 4)
  {
  }

  /** The thought step leaves the cat, the mode and the pending callbacks alone, and only
      ever adds a bubble that follows the cat. */
  lemma ThoughtKeeps(w: World, dt: real, d: CatDraws)
    requires CatDrawsOk(d)
    ensures var r := CatThought(w, dt, d);
      && r.cat == w.cat && r.human == w.human && r.mode == w.mode && r.pending == w.pending
      && r.activeThought == w.activeThought
      && (r.bubbles == w.bubbles || r == SpawnIn(r.(bubbles := w.bubbles, nextId := w.nextId), Pick(CuteThoughts, d.thought), w.cat.x, w.cat.y, ToCat))
  {
  }

  /** What each branch of the cat's state machine leaves alone. */
  lemma CatIdleFrame(w: World, dt: real, d: CatDraws, vp: Viewport)
    ensures var r := CatIdle(w, dt, d, vp);
      r == w.(cat := r.cat, meowTimer := r.meowTimer, nextMeowTime := r.nextMeowTime) && r.cat.frame == w.cat.frame
  {
  }

  lemma CatSleepFrame(w: World, dt: real, d: CatDraws, vp: Viewport)
    ensures var r := CatSleep(w, dt, d, vp);
      r == w.(cat := r.cat, bubbles := r.bubbles, nextId := r.nextId, pending := r.pending) && r.cat.frame == w.cat.frame
  {
  }

  lemma CatSleepValid(w: World, dt: real, d: CatDraws, vp: Viewport)
    requires Valid(w)
    ensures Valid(CatSleep(w, dt, d, vp))
  {
    var c := w.cat.(sleepTime := w.cat.sleepTime + dt);
    if d.zzz < 0.02 {
      SpawnInValid(w.(cat := c), "zzz", c.x + 10.0, c.y - 20.0, Free);
    }
    var w1 := Doze(w, dt, d);
    assert Valid(w1);
    var r := WakeUp(w1, vp);
    assert r.bubbles == w1.bubbles && r.nextId == w1.nextId && r.activeThought == w1.activeThought;
    assert r.cat.frame == w1.cat.frame && r.human == w1.human;
  }

  lemma CatMoveFrame(w: World, d: CatDraws, vp: Viewport, hypot: (real, real) -> real, heading: (real, real) -> (real, real))
    ensures var r := CatMove(w, d, vp, hypot, heading);
      r == w.(cat := r.cat) && r.cat.frame == w.cat.frame
  {
  }

  lemma CatDecideFrame(w: World, dt: real, d: CatDraws, vp: Viewport, hypot: (real, real) -> real, heading: (real, real) -> (real, real))
    requires CatDrawsOk(d)
    ensures var r := CatDecide(w, dt, d, vp, hypot, heading);
      && r.mode == w.mode && r.human == w.human && r.cat.frame == w.cat.frame && r.activeThought == w.activeThought
      && (Valid(w) ==> Valid(r))
  {
    match w.cat.state
    case Idle => CatIdleFrame(w, dt, d, vp);
    case Sleep => CatSleepFrame(w, dt, d, vp); if Valid(w) { CatSleepValid(w, dt, d, vp); }
    case Walk => CatMoveFrame(w, d, vp, hypot, heading);
    case Run => CatMoveFrame(w, d, vp, hypot, heading);
    case _ =>
  }

  /** The cat's record after a tick, in terms of the state-machine step. */
  lemma CatTickCat(w: World, dt: real, d: CatDraws, vp: Viewport, hypot: (real, real) -> real, heading: (real, real) -> (real, real))
    requires CatDrawsOk(d)
    ensures var w1 := CatDecide(w, dt, d, vp, hypot, heading);
      CatTick(w, dt, d, vp, hypot, heading).cat == CatSettle(w1.cat, w1.mode, vp, dt)
    ensures CatTick(w, dt, d, vp, hypot, heading).pending == CatDecide(w, dt, d, vp, hypot, heading).pending
    ensures CatTick(w, dt, d, vp, hypot, heading).mode == w.mode && CatTick(w, dt, d, vp, hypot, heading).human == w.human
  {
    var w1 := CatDecide(w, dt, d, vp, hypot, heading);
    ThoughtKeeps(w1.(cat := CatSettle(w1.cat, w1.mode, vp, dt)), dt, d);
    CatDecideFrame(w, dt, d, vp, hypot, heading);
  }

  // ---- the cat's states ----

  /** An IDLE cat never stays IDLE: a low draw puts it to sleep for 5 to 10 seconds, a middle
      one starts zoomies, the rest pick a target to walk to. */
  lemma IdleNeverSurvives(w: World, dt: real, d: CatDraws, vp: Viewport, hypot: (real, real) -> real, heading: (real, real) -> (real, real))
    requires CatDrawsOk(d) && w.cat.state == Idle
    ensures var c := CatTick(w, dt, d, vp, hypot, heading).cat;
      && c.state != Idle
      && c.idleTime == w.cat.idleTime + dt
      && (c.state == Sleep <==> d.choice < 0.05)
      && (c.state == Sleep ==> c.sleepTime == 0.0 && 5000.0 <= c.sleepDuration < 10000.0)
      && (c.state == Run <==> 0.05 <= d.choice < 0.55)
      && (c.state == Walk <==> 0.55 <= d.choice)
  {
    var w1 := CatDecide(w, dt, d, vp, hypot, heading);
    assert w1 == CatIdle(w, dt, d, vp);
    IdleChoice(w, dt, d, vp);
    CatTickCat(w, dt, d, vp, hypot, heading);
    SettleKeeps(w1.cat, w1.mode, vp, dt);
  }

  lemma IdleChoice(w: World, dt: real, d: CatDraws, vp: Viewport)
    requires CatDrawsOk(d)
    ensures var c := CatIdle(w, dt, d, vp).cat;
      && c.state != Idle
      && c.idleTime == w.cat.idleTime + dt
      && (c.state == Sleep <==> d.choice < 0.05)
      && (c.state == Sleep ==> c.sleepTime == 0.0 && 5000.0 <= c.sleepDuration < 10000.0)
      && (c.state == Run <==> 0.05 <= d.choice < 0.55)
      && (c.state == Walk <==> 0.55 <= d.choice)
  {
  }

  /** A sleeping cat wakes SURPRISEd exactly when the accumulated sleep exceeds its duration,
      and waking schedules the retarget one second later. */
  lemma SleepWakes(w: World, dt: real, d: CatDraws, vp: Viewport, hypot: (real, real) -> real, heading: (real, real) -> (real, real))
    requires CatDrawsOk(d) && w.cat.state == Sleep
    ensures var r := CatTick(w, dt, d, vp, hypot, heading);
      && r.cat.sleepTime == w.cat.sleepTime + dt
      && (r.cat.state == Surprise <==> w.cat.sleepTime + dt > w.cat.sleepDuration)
      && (r.cat.state != Surprise ==> r.cat.state == Sleep)
      && r.pending == (if w.cat.sleepTime + dt > w.cat.sleepDuration
                       then w.pending + [Timer(Retarget(CatMinY(w.mode, vp)), 1000.0)] else w.pending)
  {
    var w1 := CatDecide(w, dt, d, vp, hypot, heading);
    var w0 := Doze(w, dt, d);
    assert w0.cat == w.cat.(sleepTime := w.cat.sleepTime + dt) && w0.pending == w.pending && w0.mode == w.mode;
    assert w1 == WakeUp(w0, vp);
    CatTickCat(w, dt, d, vp, hypot, heading);
    SettleKeeps(w1.cat, w1.mode, vp, dt);
  }

  /** Within 20 px of its target a walking or running cat becomes IDLE without stepping:
      only the bounds touch its position. */
  lemma ArrivalStops(w: World, dt: real, d: CatDraws, vp: Viewport, hypot: (real, real) -> real, heading: (real, real) -> (real, real))
    requires CatDrawsOk(d) && (w.cat.state == Walk || w.cat.state == Run)
    requires Dist(w.cat.x, w.cat.y, w.cat.targetX, w.cat.targetY, hypot) < 20.0
    ensures CatDecide(w, dt, d, vp, hypot, heading).cat == w.cat.(state := Idle, idleTime := 0.0)
    ensures var c := CatTick(w, dt, d, vp, hypot, heading).cat;
      && c.state == Idle && c.idleTime == 0.0
      && c.x == ClampX(w.cat.x, vp.width)
      && c.y == BoundY(w.cat.y, w.mode, vp.height - 50.0, vp.height)
  {
    var w1 := CatDecide(w, dt, d, vp, hypot, heading);
    assert w1 == CatMove(w, d, vp, hypot, heading);
    CatTickCat(w, dt, d, vp, hypot, heading);
    SettleKeeps(w1.cat, w1.mode, vp, dt);
  }

  /** A dragged cat does nothing of its own, but the bounds and the floor still apply. */
  lemma DraggedOnlyBounded(w: World, dt: real, d: CatDraws, vp: Viewport, hypot: (real, real) -> real, heading: (real, real) -> (real, real))
    requires CatDrawsOk(d) && w.cat.state == Dragged
    ensures var r := CatTick(w, dt, d, vp, hypot, heading);
      && r.cat.state == Dragged && r.cat.idleTime == 0.0
      && r.cat.targetX == w.cat.targetX && r.cat.targetY == w.cat.targetY
      && r.cat.x == ClampX(w.cat.x, vp.width)
      && r.cat.y == BoundY(w.cat.y, w.mode, vp.height - 50.0, vp.height)
      && r.pending == w.pending
  {
    var w1 := CatDecide(w, dt, d, vp, hypot, heading);
    assert w1 == w.(cat := w.cat.(idleTime := 0.0));
    CatTickCat(w, dt, d, vp, hypot, heading);
    SettleKeeps(w1.cat, w1.mode, vp, dt);
  }

  /** After a cat update the cat is within the horizontal bounds, and outside BOTTOM no lower
      than `height - 50`. */
  lemma CatTickBounds(w: World, dt: real, d: CatDraws, vp: Viewport, hypot: (real, real) -> real, heading: (real, real) -> (real, real))
    requires CatDrawsOk(d) && w.cat.frame < 4
    ensures var c := CatTick(w, dt, d, vp, hypot, heading).cat;
      && c.x <= vp.width - 50.0 && (vp.width >= 50.0 ==> 0.0 <= c.x)
      && (w.mode != Bottom ==> c.y <= vp.height - 50.0)
      && c.frame < 4
  {
    var w1 := CatDecide(w, dt, d, vp, hypot, heading);
    CatTickCat(w, dt, d, vp, hypot, heading);
    CatDecideFrame(w, dt, d, vp, hypot, heading);
    SettleKeeps(w1.cat, w1.mode, vp, dt);
  }

  /** The cat's step while its target is on the floor keeps it on the floor. */
  lemma MoveOnFloor(w: World, d: CatDraws, vp: Viewport, hypot: (real, real) -> real, heading: (real, real) -> (real, real))
    requires LevelHeading(heading) && w.mode == Bottom
    requires w.cat.y == vp.height - 50.0 && w.cat.targetY == vp.height - 50.0
    ensures CatMove(w, d, vp, hypot, heading).cat.y == vp.height - 50.0
    ensures CatMove(w, d, vp, hypot, heading).cat.targetY == vp.height - 50.0
  {
    var p := w.cat.(idleTime := 0.0);
    assert Dir(p.x, p.y, p.targetX, p.targetY, heading).1 == 0.0 by {
      assert p.targetY - p.y == 0.0;
    }
    var q := CatMove(w, d, vp, hypot, heading).cat;
    PickRandomTargetSpec(q, CatMinY(w.mode, vp), w.mode, vp, d.targetX, d.targetY);
  }

  /** In BOTTOM, a cat on the floor whose target is on the floor is still on the floor, with
      its target there, after any update. */
  lemma IdleOnFloor(w: World, dt: real, d: CatDraws, vp: Viewport)
    requires CatDrawsOk(d) && w.mode == Bottom
    requires w.cat.y == vp.height - 50.0 && w.cat.targetY == vp.height - 50.0
    ensures CatIdle(w, dt, d, vp).cat.y == vp.height - 50.0
    ensures CatIdle(w, dt, d, vp).cat.targetY == vp.height - 50.0
  {
    var c := w.cat.(idleTime := w.cat.idleTime + dt);
    var minY := CatMinY(w.mode, vp);
    var r := CatIdle(w, dt, d, vp).cat;
    if d.choice < 0.05 {
      assert r.y == c.y && r.targetY == c.targetY;
    } else if d.choice < 0.55 {
      assert r == StartZoomies(c, minY, w.mode, vp, d.targetX, d.targetY);
      assert RawTargetY(minY, w.mode, vp, d.targetY) == vp.height - 50.0;
    } else {
      assert r == PickRandomTarget(c, minY, w.mode, vp, d.targetX, d.targetY);
      PickRandomTargetSpec(c, minY, w.mode, vp, d.targetX, d.targetY);
    }
  }

  lemma SettleOnFloor(c: Actor, vp: Viewport, dt: real)
    requires c.y == vp.height - 50.0
    ensures CatSettle(c, Bottom, vp, dt).y == vp.height - 50.0
    ensures CatSettle(c, Bottom, vp, dt).targetY == c.targetY
  {
    SettleKeeps(c, Bottom, vp, dt);
    SettleSpec(vp.height - 50.0, vp.height - 50.0);
  }

  lemma CatDecideOnFloor(w: World, dt: real, d: CatDraws, vp: Viewport, hypot: (real, real) -> real, heading: (real, real) -> (real, real))
    requires CatDrawsOk(d) && LevelHeading(heading) && w.mode == Bottom
    requires w.cat.y == vp.height - 50.0 && w.cat.targetY == vp.height - 50.0
    ensures CatDecide(w, dt, d, vp, hypot, heading).cat.y == vp.height - 50.0
    ensures CatDecide(w, dt, d, vp, hypot, heading).cat.targetY == vp.height - 50.0
    ensures CatDecide(w, dt, d, vp, hypot, heading).mode == Bottom
  {
    CatDecideFrame(w, dt, d, vp, hypot, heading);
    match w.cat.state {
      case Idle => IdleOnFloor(w, dt, d, vp);
      case Sleep => CatSleepFrame(w, dt, d, vp);
      case Walk => MoveOnFloor(w, d, vp, hypot, heading);
      case Run => MoveOnFloor(w, d, vp, hypot, heading);
      case _ =>
    }
  }

  lemma CatFloorStable(w: World, dt: real, d: CatDraws, vp: Viewport, hypot: (real, real) -> real, heading: (real, real) -> (real, real))
    requires CatDrawsOk(d) && LevelHeading(heading) && w.mode == Bottom
    requires w.cat.y == vp.height - 50.0 && w.cat.targetY == vp.height - 50.0
    ensures CatTick(w, dt, d, vp, hypot, heading).cat.y == vp.height - 50.0
    ensures CatTick(w, dt, d, vp, hypot, heading).cat.targetY == vp.height - 50.0
  {
    var w1 := CatDecide(w, dt, d, vp, hypot, heading);
    CatDecideOnFloor(w, dt, d, vp, hypot, heading);
    CatTickCat(w, dt, d, vp, hypot, heading);
    SettleOnFloor(w1.cat, vp, dt);
  }

  // ---- the human ----

  /** Showing a human thought changes only the bubble bookkeeping. */
  lemma ShowHumanThoughtFrame(w: World, text: string)
    ensures var r := ShowHumanThought(w, text);
      r == w.(bubbles := r.bubbles, nextId := r.nextId, activeThought := r.activeThought)
  {
  }

  /** What each branch of the human's state machine leaves alone: the cat, the mode, the
      callbacks, the animation counters, and in BOTTOM the height. */
  predicate HumanStepKeeps(w: World, r: World) {
    && r.cat == w.cat && r.mode == w.mode && r.pending == w.pending
    && r.human.frame == w.human.frame && r.human.timer == w.human.timer
    && (w.mode == Bottom ==> r.human.y == w.human.y)
  }

  lemma ChaseStepKeeps(hum: Actor, cat: Actor, mode: RoamMode, now: real, hypot: (real, real) -> real, heading: (real, real) -> (real, real))
    ensures var h := ChaseStep(hum, cat, mode, now, hypot, heading);
      && h.state == Chase && h.frame == hum.frame && h.timer == hum.timer
      && (mode == Bottom ==> h.y == hum.y)
      && (Dist(hum.x, hum.y, cat.x, cat.y, hypot) <= 60.0 ==> h.facingRight == hum.facingRight && h.lastFaceChange == hum.lastFaceChange)
      && (now - hum.lastFaceChange <= 1500.0 ==> h.facingRight == hum.facingRight)
  {
  }

  lemma HumanChaseFrame(w: World, dt: real, d: HumanDraws, now: real, hypot: (real, real) -> real, heading: (real, real) -> (real, real))
    requires HumanDrawsOk(d)
    ensures var r := HumanChase(w, dt, d, now, hypot, heading);
      && HumanStepKeeps(w, r) && r.human == ChaseStep(w.human, w.cat, w.mode, now, hypot, heading)
      && (Valid(w) ==> Valid(r))
  {
    var h := ChaseStep(w.human, w.cat, w.mode, now, hypot, heading);
    ChaseStepKeeps(w.human, w.cat, w.mode, now, hypot, heading);
    if w.humanTextTimer + dt > 3000.0 {
      var w1 := w.(human := h, humanTextTimer := 0.0);
      ShowHumanThoughtFrame(w1, Pick(Shouts, d.shout));
      if Valid(w) {
        ShowHumanThoughtValid(w1, Pick(Shouts, d.shout));
      }
    }
  }

  lemma HumanFollowFrame(w: World, now: real, heading: (real, real) -> (real, real))
    ensures HumanStepKeeps(w, HumanFollow(w, now, heading)) && (Valid(w) ==> Valid(HumanFollow(w, now, heading)))
  {
  }

  lemma HumanLingerFrame(w: World, d: HumanDraws, vp: Viewport)
    requires HumanDrawsOk(d)
    ensures HumanStepKeeps(w, HumanLinger(w, d, vp)) && (Valid(w) ==> Valid(HumanLinger(w, d, vp)))
  {
    if d.wander >= 0.05 && d.musing < 0.005 {
      var w1 := w.(human := w.human.(state := if w.human.isTalking then Talk else Idle));
      ShowHumanThoughtFrame(w1, Pick(Musings, d.musingPick));
      if Valid(w) {
        ShowHumanThoughtValid(w1, Pick(Musings, d.musingPick));
      }
    }
  }

  /** The human's record after an update, in terms of the state-machine step. */
  lemma HumanDecideKeeps(w: World, dt: real, d: HumanDraws, vp: Viewport, now: real, hypot: (real, real) -> real, heading: (real, real) -> (real, real))
    requires HumanDrawsOk(d)
    ensures HumanStepKeeps(w, HumanDecide(w, dt, d, vp, now, hypot, heading))
  {
    var r := HumanDecide(w, dt, d, vp, now, hypot, heading);
    if w.cat.state == Run {
      assert r == HumanChase(w, dt, d, now, hypot, heading);
      HumanChaseFrame(w, dt, d, now, hypot, heading);
    } else if Dist(w.human.x, w.human.y, w.cat.x, w.cat.y, hypot) > 200.0 {
      assert r == HumanFollow(w, now, heading);
      HumanFollowFrame(w, now, heading);
    } else {
      assert r == HumanLinger(w, d, vp);
      HumanLingerFrame(w, d, vp);
    }
  }

  lemma HumanDecideValid(w: World, dt: real, d: HumanDraws, vp: Viewport, now: real, hypot: (real, real) -> real, heading: (real, real) -> (real, real))
    requires HumanDrawsOk(d) && Valid(w)
    ensures Valid(HumanDecide(w, dt, d, vp, now, hypot, heading))
  {
    var r := HumanDecide(w, dt, d, vp, now, hypot, heading);
    if w.cat.state == Run {
      assert r == HumanChase(w, dt, d, now, hypot, heading);
      HumanChaseFrame(w, dt, d, now, hypot, heading);
    } else if Dist(w.human.x, w.human.y, w.cat.x, w.cat.y, hypot) > 200.0 {
      assert r == HumanFollow(w, now, heading);
      HumanFollowFrame(w, now, heading);
    } else {
      assert r == HumanLinger(w, d, vp);
      HumanLingerFrame(w, d, vp);
    }
  }

  /** In BOTTOM the human never moves vertically on its own: each update applies only the
      floor rule for its floor, `height - 130`. */
  lemma HumanBottomSettles(w: World, dt: real, d: HumanDraws, vp: Viewport, now: real, hypot: (real, real) -> real, heading: (real, real) -> (real, real))
    requires HumanDrawsOk(d) && w.mode == Bottom
    ensures HumanTick(w, dt, d, vp, now, hypot, heading).human.y == SettleY(w.human.y, vp.height - 130.0)
  {
    HumanDecideKeeps(w, dt, d, vp, now, hypot, heading);
  }

  /** Entering BOTTOM puts the human 80 px below its own floor, so the next update glides it
      8 px up instead of leaving it there. */
  lemma TeleportedHumanGlides(w: World, dt: real, d: HumanDraws, vp: Viewport, now: real, hypot: (real, real) -> real, heading: (real, real) -> (real, real))
    requires HumanDrawsOk(d) && w.mode == Full
    ensures var r := CycleRoam(w, vp);
      && r.mode == Bottom && r.human.y == vp.height - 50.0 && r.cat.y == vp.height - 50.0
      && HumanTick(r, dt, d, vp, now, hypot, heading).human.y == vp.height - 58.0
  {
    var r := CycleRoam(w, vp);
    HumanBottomSettles(r, dt, d, vp, now, hypot, heading);
    assert Abs(r.human.y - (vp.height - 130.0)) == 80.0;
  }

  /** After a human update it is within the horizontal bounds, and outside BOTTOM no lower
      than `height - 50`. */
  lemma HumanTickBounds(w: World, dt: real, d: HumanDraws, vp: Viewport, now: real, hypot: (real, real) -> real, heading: (real, real) -> (real, real))
    requires HumanDrawsOk(d) && w.human.frame < 4
    ensures var h := HumanTick(w, dt, d, vp, now, hypot, heading).human;
      && h.x <= vp.width - 50.0 && (vp.width >= 50.0 ==> 0.0 <= h.x)
      && (w.mode != Bottom ==> h.y <= vp.height - 50.0)
      && h.frame < 4
  {
    HumanDecideKeeps(w, dt, d, vp, now, hypot, heading);
  }

  /** A running cat is chased; a chase close to the cat (within 60 px) never turns the human. */
  lemma ChaseRules(w: World, dt: real, d: HumanDraws, vp: Viewport, now: real, hypot: (real, real) -> real, heading: (real, real) -> (real, real))
    requires HumanDrawsOk(d) && w.cat.state == Run
    ensures var h := HumanTick(w, dt, d, vp, now, hypot, heading).human;
      && h.state == Chase
      && (Dist(w.human.x, w.human.y, w.cat.x, w.cat.y, hypot) <= 60.0 ==>
            h.facingRight == w.human.facingRight && h.lastFaceChange == w.human.lastFaceChange)
      && (now - w.human.lastFaceChange <= 1500.0 ==> h.facingRight == w.human.facingRight)
  {
    HumanChaseFrame(w, dt, d, now, hypot, heading);
    ChaseStepKeeps(w.human, w.cat, w.mode, now, hypot, heading);
  }

  /** The human's state after an update is the one its state machine chose. */
  lemma HumanTickState(w: World, dt: real, d: HumanDraws, vp: Viewport, now: real, hypot: (real, real) -> real, heading: (real, real) -> (real, real))
    requires HumanDrawsOk(d)
    ensures HumanTick(w, dt, d, vp, now, hypot, heading).human.state == HumanDecide(w, dt, d, vp, now, hypot, heading).human.state
  {
  }

  lemma LingerStands(w: World, d: HumanDraws, vp: Viewport)
    requires HumanDrawsOk(d) && d.wander >= 0.05
    ensures HumanLinger(w, d, vp).human.state == (if w.human.isTalking then Talk else Idle)
  {
    var w1 := w.(human := w.human.(state := if w.human.isTalking then Talk else Idle));
    ShowHumanThoughtFrame(w1, Pick(Musings, d.musingPick));
  }

  /** Near a cat that is not running, a human that does not wander stands, or talks while
      greeting. */
  lemma NearHumanStands(w: World, dt: real, d: HumanDraws, vp: Viewport, now: real, hypot: (real, real) -> real, heading: (real, real) -> (real, real))
    requires HumanDrawsOk(d) && w.cat.state != Run && d.wander >= 0.05
    requires Dist(w.human.x, w.human.y, w.cat.x, w.cat.y, hypot) <= 200.0
    ensures HumanTick(w, dt, d, vp, now, hypot, heading).human.state == (if w.human.isTalking then Talk else Idle)
  {
    assert HumanDecide(w, dt, d, vp, now, hypot, heading) == HumanLinger(w, d, vp);
    LingerStands(w, d, vp);
    HumanTickState(w, dt, d, vp, now, hypot, heading);
  }

  // ---- the frame ----

  /** While hidden a frame only advances the clock: no actor, timer or bubble changes. */
  lemma HiddenFreezes(w: World, timestamp: real, cd: CatDraws, hd: HumanDraws, vp: Viewport, now: real, hypot: (real, real) -> real, heading: (real, real) -> (real, real))
    requires CatDrawsOk(cd) && HumanDrawsOk(hd) && w.mode == Hidden
    ensures Tick(w, timestamp, cd, hd, vp, now, hypot, heading) == w.(lastTime := timestamp)
  {
  }

  /** The human reacts to the cat's new state in the same frame: a cat that starts zoomies is
      chased at once. */
  lemma ChaseSameFrame(w: World, timestamp: real, cd: CatDraws, hd: HumanDraws, vp: Viewport, now: real, hypot: (real, real) -> real, heading: (real, real) -> (real, real))
    requires CatDrawsOk(cd) && HumanDrawsOk(hd)
    requires w.mode != Hidden && w.cat.state == Idle && 0.05 <= cd.choice < 0.55
    ensures Tick(w, timestamp, cd, hd, vp, now, hypot, heading).human.state == Chase
    ensures Tick(w, timestamp, cd, hd, vp, now, hypot, heading).cat.state == Run
  {
    var dt := Elapsed(w, timestamp);
    var w0 := w.(lastTime := timestamp);
    IdleNeverSurvives(w0, dt, cd, vp, hypot, heading);
    var w1 := CatTick(w0, dt, cd, vp, hypot, heading);
    ChaseRules(w1, dt, hd, vp, now, hypot, heading);
    HumanDecideKeeps(w1, dt, hd, vp, now, hypot, heading);
    var w2 := HumanTick(w1, dt, hd, vp, now, hypot, heading);
    assert Tick(w, timestamp, cd, hd, vp, now, hypot, heading) == Updates(w0, dt, cd, hd, vp, now, hypot, heading);
    assert Updates(w0, dt, cd, hd, vp, now, hypot, heading) == w2.(bubbles := Decay(w2.bubbles, dt, w2.cat, w2.human));
  }

  // ---- roam mode ----

  /** Cycling steps the mode, puts both actors on the cat's floor when entering BOTTOM, and
      hides both exactly when entering NONE. */
  lemma CycleRoamSpec(w: World, vp: Viewport)
    ensures var r := CycleRoam(w, vp);
      && r.mode == NextMode(w.mode)
      && (r.mode == Bottom ==> r.cat == w.cat.(y := vp.height - 50.0) && r.human == w.human.(y := vp.height - 50.0))
      && (r.mode != Bottom ==> r.cat == w.cat && r.human == w.human)
      && (r.catShown <==> r.mode != Hidden) && (r.humanShown <==> r.mode != Hidden)
      && r.bubbles == w.bubbles && r.pending == w.pending
  {
  }

  /** Three cycles restore the mode and the visibility. */
  lemma ThreeCycles(w: World, vp: Viewport)
    requires w.catShown == (w.mode != Hidden) && w.humanShown == (w.mode != Hidden)
    ensures var r := CycleRoam(CycleRoam(CycleRoam(w, vp), vp), vp);
      r.mode == w.mode && r.catShown == w.catShown && r.humanShown == w.humanShown
  {
    ModeCycle(w.mode);
  }

  // ---- dragging ----

  /** A press grabs the cat exactly inside the 60 px box, capturing the offset; otherwise
      nothing changes. */
  lemma PointerDownSpec(w: World, cx: real, cy: real)
    ensures var r := PointerDown(w, cx, cy);
      && (Abs(cx - w.cat.x) < 60.0 && Abs(cy - w.cat.y) < 60.0 ==> r.dragging && r.cat.state == Dragged)
      && (Abs(cx - w.cat.x) < 60.0 && Abs(cy - w.cat.y) < 60.0 ==> r.dragOffsetX == cx - w.cat.x && r.dragOffsetY == cy - w.cat.y && r.cat == w.cat.(state := Dragged))
      && (!(Abs(cx - w.cat.x) < 60.0 && Abs(cy - w.cat.y) < 60.0) ==> r == w)
  {
  }

  /** The zone is a box, not a circle: a corner point 83 px away still grabs the cat. */
  lemma GrabZoneIsBox(w: World)
    ensures PointerDown(w, w.cat.x + 59.0, w.cat.y + 59.0).dragging
    ensures 59.0 * 59.0 + 59.0 * 59.0 > 60.0 * 60.0
  {
  }

  /** A move with no drag in progress changes nothing; during a drag the cat sits exactly at
      the pointer minus the captured offset, and nothing else of it changes. */
  lemma PointerMoveSpec(w: World, cx: real, cy: real, now: real)
    ensures var r := PointerMove(w, cx, cy, now);
      && (!w.dragging ==> r == w)
      && (w.dragging ==> r.cat == w.cat.(x := cx - w.dragOffsetX, y := cy - w.dragOffsetY))
      && (w.dragging && now - w.lastDragSound > 600.0 ==> r.lastDragSound == now)
      && (now - w.lastDragSound <= 600.0 ==> r.lastDragSound == w.lastDragSound)
  {
  }

  /** Press, then move: the cat moves by exactly the pointer's displacement. */
  lemma DragFollowsPointer(w: World, px: real, py: real, qx: real, qy: real, now: real)
    requires Abs(px - w.cat.x) < 60.0 && Abs(py - w.cat.y) < 60.0
    ensures var r := PointerMove(PointerDown(w, px, py), qx, qy, now);
      && r.cat.x == w.cat.x + (qx - px) && r.cat.y == w.cat.y + (qy - py)
      && r.cat.state == Dragged && r.dragging
  {
  }

  /** Releasing a dragged cat sets it IDLE and falling at 5; a release without a drag does
      nothing. */
  lemma PointerUpSpec(w: World)
    ensures var r := PointerUp(w);
      && !r.dragging
      && (w.dragging ==> r.cat == w.cat.(state := Idle, vy := 5.0))
      && (!w.dragging ==> r == w)
  {
  }

  // ---- deferred callbacks ----

  /** The post-SURPRISE callback always leaves a WALKing cat with a target within the margins,
      whatever the mode or the cat's state when it runs, even in the middle of a drag. */
  lemma RetargetIgnoresState(w: World, k: nat, vp: Viewport, ux: real, uy: real)
    requires k < |w.pending| && w.pending[k].task.Retarget?
    ensures var r := FireTimer(w, k, vp, ux, uy);
      && r.cat.state == Walk
      && r.cat.targetX <= vp.width - 50.0 && (vp.width >= 70.0 ==> 20.0 <= r.cat.targetX)
      && r.cat.targetY <= vp.height - 50.0 && (vp.height >= 70.0 ==> 20.0 <= r.cat.targetY)
      && r.cat.x == w.cat.x && r.cat.y == w.cat.y
      && r.dragging == w.dragging && r.mode == w.mode
      && |r.pending| == |w.pending| - 1
  {
    PickRandomTargetSpec(w.cat, w.pending[k].task.minY, w.mode, vp, ux, uy);
  }

  /** A click makes the human talk until the callback it schedules runs. */
  lemma ClickThenStop(w: World, vp: Viewport, ux: real, uy: real)
    ensures var c := HumanClick(w);
      && c.human.isTalking && |c.pending| == |w.pending| + 1
      && c.pending[|w.pending|] == Timer(StopTalking, 3000.0)
      && !FireTimer(c, |w.pending|, vp, ux, uy).human.isTalking
      && FireTimer(c, |w.pending|, vp, ux, uy).pending == w.pending
  {
    var c := HumanClick(w);
    assert c.pending[..|w.pending|] == w.pending;
  }

  // ---- bubbles and the invariant ----

  /** Spawning appends exactly one fresh record with two seconds of life. */
  lemma SpawnInSpec(w: World, text: string, x: real, y: real, attach: Attach)
    ensures var r := SpawnIn(w, text, x, y, attach);
      && r.bubbles == w.bubbles + [Spawn(w.nextId, text, x, y, attach)]
      && r.bubbles[|w.bubbles|].life == 2000.0
      && r.nextId == w.nextId + 1
  {
  }

  /** A fresh identity appended at the end keeps the identities increasing and bounded. */
  lemma AppendFresh(bs: seq<Bubble>, nextId: nat, b: Bubble)
    requires IdsIncreasing(bs) && (forall c :: c in bs ==> c.id < nextId) && b.id == nextId
    ensures IdsIncreasing(bs + [b]) && (forall c :: c in bs + [b] ==> c.id < nextId + 1)
  {
    var r := bs + [b];
    forall i, j | 0 <= i < j < |r| ensures r[i].id < r[j].id {
      if j == |bs| {
        assert r[i] in bs;
      } else {
        assert r[i] == bs[i] && r[j] == bs[j];
      }
    }
  }

  lemma SpawnInValid(w: World, text: string, x: real, y: real, attach: Attach)
    requires Valid(w) && attach != ToHuman
    ensures Valid(SpawnIn(w, text, x, y, attach))
  {
    AppendFresh(w.bubbles, w.nextId, Spawn(w.nextId, text, x, y, attach));
  }

  /** Hiding the remembered thought leaves no element following the human shown. */
  lemma HideActive(bs: seq<Bubble>, nextId: nat, active: Option<nat>)
    requires Tracked(bs, nextId, active)
    ensures var hs := match active case Some(id) => Hide(bs, id) case None => bs;
      && IdsIncreasing(hs) && (forall c :: c in hs ==> c.id < nextId) && NoneShown(hs)
  {
    var hs := match active case Some(id) => Hide(bs, id) case None => bs;
    assert forall k :: 0 <= k < |hs| ==> hs[k].id == bs[k].id && hs[k].attach == bs[k].attach;
    forall c | c in hs ensures c.id < nextId && (c.attach == ToHuman ==> !c.inDom) {
      var k :| 0 <= k < |hs| && hs[k] == c;
      assert bs[k] in bs;
    }
  }

  lemma ShowHumanThoughtValid(w: World, text: string)
    requires Valid(w)
    ensures Valid(ShowHumanThought(w, text))
  {
    var bs := match w.activeThought case Some(id) => Hide(w.bubbles, id) case None => w.bubbles;
    var b := Spawn(w.nextId, text, w.human.x, w.human.y, ToHuman);
    HideActive(w.bubbles, w.nextId, w.activeThought);
    AppendFresh(bs, w.nextId, b);
    assert ShowHumanThought(w, text).bubbles == bs + [b];
  }

  /** Showing a human thought takes the previous one out of the document and remembers the
      new one, so only the newest human thought is ever shown. */
  lemma ShowHumanThoughtSpec(w: World, text: string)
    requires Valid(w)
    ensures var r := ShowHumanThought(w, text);
      && |r.bubbles| == |w.bubbles| + 1
      && r.bubbles[|w.bubbles|] == Spawn(w.nextId, text, w.human.x, w.human.y, ToHuman)
      && r.activeThought == Some(w.nextId)
      && (forall k :: 0 <= k < |w.bubbles| ==>
            r.bubbles[k].id == w.bubbles[k].id &&
            (r.bubbles[k].inDom <==> w.bubbles[k].inDom && Some(w.bubbles[k].id) != w.activeThought))
      && Valid(r)
      && (forall b :: b in r.bubbles && b.attach == ToHuman && b.inDom ==> b.id == w.nextId)
  {
    ShowHumanThoughtValid(w, text);
  }

  /** A pass over the list keeps the invariant. */
  lemma DecayValid(w: World, dt: real)
    requires Valid(w)
    ensures Valid(w.(bubbles := Decay(w.bubbles, dt, w.cat, w.human)))
  {
    var r := Decay(w.bubbles, dt, w.cat, w.human);
    DecayKeepsOrder(w.bubbles, dt, w.cat, w.human);
    forall b | b in r ensures b.id < w.nextId && (b.attach == ToHuman && b.inDom ==> w.activeThought == Some(b.id)) {
      var k :| 0 <= k < |r| && r[k] == b;
      DecayKeepsFlags(w.bubbles, dt, w.cat, w.human, k);
      var i :| 0 <= i < |w.bubbles| && b.id == w.bubbles[i].id && b.attach == w.bubbles[i].attach && b.inDom == w.bubbles[i].inDom;
      assert w.bubbles[i] in w.bubbles;
    }
  }

  lemma CatTickValid(w: World, dt: real, d: CatDraws, vp: Viewport, hypot: (real, real) -> real, heading: (real, real) -> (real, real))
    requires CatDrawsOk(d) && Valid(w)
    ensures Valid(CatTick(w, dt, d, vp, hypot, heading))
  {
    var w1 := CatDecide(w, dt, d, vp, hypot, heading);
    CatDecideFrame(w, dt, d, vp, hypot, heading);
    SettleKeeps(w1.cat, w1.mode, vp, dt);
    var w2 := w1.(cat := CatSettle(w1.cat, w1.mode, vp, dt));
    assert Valid(w2);
    if w2.cat.state != Sleep && w2.thoughtTimer + dt > w2.nextThoughtTime {
      SpawnInValid(w2.(thoughtTimer := 0.0, nextThoughtTime := 4000.0 + d.nextThought * 4000.0),
                   Pick(CuteThoughts, d.thought), w2.cat.x, w2.cat.y, ToCat);
    }
  }

  lemma HumanTickValid(w: World, dt: real, d: HumanDraws, vp: Viewport, now: real, hypot: (real, real) -> real, heading: (real, real) -> (real, real))
    requires HumanDrawsOk(d) && Valid(w)
    ensures Valid(HumanTick(w, dt, d, vp, now, hypot, heading))
  {
    HumanDecideKeeps(w, dt, d, vp, now, hypot, heading);
    HumanDecideValid(w, dt, d, vp, now, hypot, heading);
  }

  lemma UpdatesValid(w: World, dt: real, cd: CatDraws, hd: HumanDraws, vp: Viewport, now: real, hypot: (real, real) -> real, heading: (real, real) -> (real, real))
    requires CatDrawsOk(cd) && HumanDrawsOk(hd) && Valid(w)
    ensures Valid(Updates(w, dt, cd, hd, vp, now, hypot, heading))
  {
    CatTickValid(w, dt, cd, vp, hypot, heading);
    var w1 := CatTick(w, dt, cd, vp, hypot, heading);
    HumanTickValid(w1, dt, hd, vp, now, hypot, heading);
    DecayValid(HumanTick(w1, dt, hd, vp, now, hypot, heading), dt);
  }

  /** Every event keeps the invariant. */
  lemma TickValid(w: World, timestamp: real, cd: CatDraws, hd: HumanDraws, vp: Viewport, now: real, hypot: (real, real) -> real, heading: (real, real) -> (real, real))
    requires CatDrawsOk(cd) && HumanDrawsOk(hd) && Valid(w)
    ensures Valid(Tick(w, timestamp, cd, hd, vp, now, hypot, heading))
  {
    if w.mode != Hidden {
      UpdatesValid(w.(lastTime := timestamp), Elapsed(w, timestamp), cd, hd, vp, now, hypot, heading);
    }
  }

  lemma CycleRoamValid(w: World, vp: Viewport)
    requires Valid(w)
    ensures Valid(CycleRoam(w, vp))
  {
  }

  lemma PointerDownValid(w: World, cx: real, cy: real)
    requires Valid(w)
    ensures Valid(PointerDown(w, cx, cy))
  {
  }

  lemma PointerMoveValid(w: World, cx: real, cy: real, now: real)
    requires Valid(w)
    ensures Valid(PointerMove(w, cx, cy, now))
  {
  }

  lemma PointerUpValid(w: World)
    requires Valid(w)
    ensures Valid(PointerUp(w))
  {
  }

  lemma HumanClickValid(w: World)
    requires Valid(w)
    ensures Valid(HumanClick(w))
  {
  }

  lemma FireTimerValid(w: World, k: nat, vp: Viewport, ux: real, uy: real)
    requires Valid(w) && k < |w.pending|
    ensures Valid(FireTimer(w, k, vp, ux, uy))
  {
  }
}
