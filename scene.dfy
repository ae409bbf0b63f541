/** The renderer's globals as one object: `roamMode`, `lastTime`, the two actor objects, the
    global timers, `activeHumanThought`, `floatingEmojis`, the drag handlers' closure
    variables, the two elements' visibility and the pending callbacks. Each handler updates
    the fields in place, the way `renderer.js` does, and is proved to perform the transition
    of the same name in Behaviour; Engine states what those transitions guarantee. */
module Scene {
  import opened Wrappers
  import opened Actors
  import opened Bubbles
  import opened Behaviour
  import Engine

  class Renderer {
    var roamMode: RoamMode
    var lastTime: real
    var cat: Actor
    var human: Actor
    var thoughtTimer: real
    var nextThoughtTime: real
    var meowTimer: real
    var nextMeowTime: real
    var humanTextTimer: real
    var activeHumanThought: Option<nat>
    var floatingEmojis: seq<Bubble>
    var nextId: nat
    var isDragging: bool
    var dragOffsetX: real
    var dragOffsetY: real
    var lastDragSound: real
    var catShown: bool
    var humanShown: bool
    var pending: seq<Timer>

    /** The fields as one value. */
    function Snapshot(): World
      reads this
    {
      World(roamMode, lastTime, cat, human, thoughtTimer, nextThoughtTime, meowTimer, nextMeowTime,
            humanTextTimer, activeHumanThought, floatingEmojis, nextId, isDragging, dragOffsetX,
            dragOffsetY, lastDragSound, catShown, humanShown, pending)
    }

    ghost predicate Valid()
      reads this
    {
      Engine.Valid(Snapshot())
    }

    /** The script's top-level state and `initPixi`'s `lastTime`. */
    constructor(vp: Viewport, now: real)
      ensures Snapshot() == Initial(vp, now) && Valid()
    {
      roamMode := Full;
      lastTime := now;
      cat := Actor(vp.width / 2.0 + 50.0, vp.height / 2.0, 0.0, 0.0, vp.width / 2.0, vp.height / 2.0,
                   Idle, 0, 0.0, true, 1.5, 0.0, 0.0, 10000.0, false, 0.0);
      human := Actor(vp.width / 2.0 - 50.0, vp.height / 2.0, 0.0, 0.0, vp.width / 2.0, vp.height / 2.0,
                     Idle, 0, 0.0, true, 2.5, 0.0, 0.0, 0.0, false, 0.0);
      thoughtTimer := 0.0;
      nextThoughtTime := 2000.0;
      meowTimer := 0.0;
      nextMeowTime := 5000.0;
      humanTextTimer := 0.0;
      activeHumanThought := None;
      floatingEmojis := [];
      nextId := 0;
      isDragging := false;
      dragOffsetX := 0.0;
      dragOffsetY := 0.0;
      lastDragSound := 0.0;
      catShown := true;
      humanShown := true;
      pending := [];
      Engine.InitialValid(vp, now);
    }

    // ---- roam mode and the pointer ----

    /** `cycleRoamMode(btn)`; `caption` is the text the mode button gets. */
    method CycleRoamMode(vp: Viewport) returns (caption: string)
      modifies this
      ensures Snapshot() == CycleRoam(old(Snapshot()), vp)
      ensures caption == ModeLabel(roamMode)
      ensures old(Valid()) ==> Valid()
    {
      caption := NextRoamMode();
      if roamMode == Bottom {
        var floor := vp.height - 50.0;
        PlaceOnFloor(floor);
      }
      ShowActors(roamMode != Hidden);
      if old(Valid()) {
        Engine.CycleRoamValid(old(Snapshot()), vp);
      }
    }

    /** FULL, then BOTTOM, then NONE, then FULL again. */
    method NextRoamMode() returns (caption: string)
      modifies this
      ensures Snapshot() == old(Snapshot()).(mode := NextMode(old(roamMode)))
      ensures caption == ModeLabel(roamMode)
    {
      if roamMode == Full {
        roamMode := Bottom;
        caption := "MODE: BTM";
      } else if roamMode == Bottom {
        roamMode := Hidden;
        caption := "MODE: OFF";
      } else {
        roamMode := Full;
        caption := "MODE: FULL";
      }
    }

    method PlaceOnFloor(floor: real)
      modifies this
      ensures Snapshot() == old(Snapshot()).(cat := old(cat).(y := floor), human := old(human).(y := floor))
    {
      cat := cat.(y := floor);
      human := human.(y := floor);
    }

    /** Both elements' `display`. */
    method ShowActors(shown: bool)
      modifies this
      ensures Snapshot() == old(Snapshot()).(catShown := shown, humanShown := shown)
    {
      catShown := shown;
      humanShown := shown;
    }

    /** The cat element's `mousedown`. */
    method MouseDown(clientX: real, clientY: real)
      modifies this
      ensures Snapshot() == PointerDown(old(Snapshot()), clientX, clientY)
      ensures old(Valid()) ==> Valid()
    {
      var dx := clientX - cat.x;
      var dy := clientY - cat.y;
      if Abs(dx) < 60.0 && Abs(dy) < 60.0 {
        Grab(dx, dy);
      }
      if old(Valid()) {
        Engine.PointerDownValid(old(Snapshot()), clientX, clientY);
      }
    }

    /** Start a drag, remembering where in the cat it was grabbed. */
    method Grab(dx: real, dy: real)
      modifies this
      ensures Snapshot() == old(Snapshot()).(dragging := true, dragOffsetX := dx, dragOffsetY := dy, cat := old(cat).(state := Dragged))
    {
      isDragging := true;
      dragOffsetX := dx;
      dragOffsetY := dy;
      cat := cat.(state := Dragged);
    }

    /** The window's `mousemove`; `now` is `Date.now()`. */
    method MouseMove(clientX: real, clientY: real, now: real)
      modifies this
      ensures Snapshot() == PointerMove(old(Snapshot()), clientX, clientY, now)
      ensures old(Valid()) ==> Valid()
    {
      if isDragging {
        cat := cat.(x := clientX - dragOffsetX, y := clientY - dragOffsetY);
        if now - lastDragSound > 600.0 {
          lastDragSound := now;
        }
      }
      if old(Valid()) {
        Engine.PointerMoveValid(old(Snapshot()), clientX, clientY, now);
      }
    }

    /** The window's `mouseup`. */
    method MouseUp()
      modifies this
      ensures Snapshot() == PointerUp(old(Snapshot()))
      ensures old(Valid()) ==> Valid()
    {
      if isDragging {
        isDragging := false;
        cat := cat.(state := Idle);
        cat := cat.(vy := 5.0);
      }
      if old(Valid()) {
        Engine.PointerUpValid(old(Snapshot()));
      }
    }

    /** The human element's `click`: greet and schedule the end of the greeting. */
    method HumanClicked()
      modifies this
      ensures Snapshot() == HumanClick(old(Snapshot()))
      ensures old(Valid()) ==> Valid()
    {
      human := human.(isTalking := true);
      pending := pending + [Timer(StopTalking, 3000.0)];
      if old(Valid()) {
        Engine.HumanClickValid(old(Snapshot()));
      }
    }

    /** The host runs pending callback `k`; `ux`, `uy` are the draws of the retarget. */
    method RunTimer(k: nat, vp: Viewport, ux: real, uy: real)
      requires k < |pending|
      modifies this
      ensures Snapshot() == FireTimer(old(Snapshot()), k, vp, ux, uy)
      ensures old(Valid()) ==> Valid()
    {
      var t := pending[k];
      pending := pending[..k] + pending[k + 1..];
      match t.task {
        case Retarget(minY) =>
          cat := PickRandomTarget(cat, minY, roamMode, vp, ux, uy);
        case StopTalking =>
          human := human.(isTalking := false);
      }
      if old(Valid()) {
        Engine.FireTimerValid(old(Snapshot()), k, vp, ux, uy);
      }
    }

    // ---- bubbles ----

    /** `spawnFloatingEmoji`; the result identifies the new element. */
    method SpawnFloatingEmoji(text: string, x: real, y: real, attach: Attach) returns (id: nat)
      modifies this
      ensures Snapshot() == SpawnIn(old(Snapshot()), text, x, y, attach)
      ensures id == old(nextId)
    {
      id := nextId;
      nextId := nextId + 1;
      floatingEmojis := floatingEmojis + [Spawn(id, text, x, y, attach)];
    }

    /** `showHumanThought`. */
    method ShowHumanThought(text: string)
      modifies this
      ensures Snapshot() == Behaviour.ShowHumanThought(old(Snapshot()), text)
    {
      if activeHumanThought.Some? {
        floatingEmojis := Hide(floatingEmojis, activeHumanThought.value);
      }
      var id := SpawnFloatingEmoji(text, human.x, human.y, ToHuman);
      activeHumanThought := Some(id);
    }

    /** `showRandomCuteThought`, with the draw `u` choosing the thought. */
    method ShowRandomCuteThought(u: real)
      requires Unit(u)
      modifies this
      ensures Snapshot() == SpawnIn(old(Snapshot()), Pick(CuteThoughts, u), old(cat).x, old(cat).y, ToCat)
    {
      var _ := SpawnFloatingEmoji(Pick(CuteThoughts, u), cat.x, cat.y, ToCat);
    }

    /** `updateFloatingEmojis(dt)`: from the last bubble to the first, age each one, drop it
        once its life is over, else move and fade it. */
    method UpdateFloatingEmojis(dt: real)
      modifies this
      ensures Snapshot() == old(Snapshot()).(bubbles := Decay(old(floatingEmojis), dt, cat, human))
    {
      ghost var orig := floatingEmojis;
      var list, c, h := floatingEmojis, cat, human;
      var i: int := |list| - 1;
      while i >= 0
        invariant -1 <= i < |orig|
        invariant list == orig[..i + 1] + Decay(orig[i + 1..], dt, c, h)
        modifies {}
        decreases i
      {
        ghost var rest := Decay(orig[i + 1..], dt, c, h);
        DecayStep(orig, i, dt, c, h);
        Split(orig, i);
        var b, alive := AgeBubble(list[i], dt, c, h);
        if !alive {
          RemoveAt(orig[..i], orig[i], rest);
          list := list[..i] + list[i + 1..];
        } else {
          ReplaceAt(orig[..i], orig[i], rest, b);
          list := list[i := b];
        }
        i := i - 1;
      }
      assert orig[..0] == [] && orig[0..] == orig;
      floatingEmojis := list;
    }

    // ---- the cat ----

    /** The IDLE branch of `updateCat`. */
    method CatIdleStep(dt: real, d: CatDraws, vp: Viewport)
      modifies this
      ensures Snapshot() == CatIdle(old(Snapshot()), dt, d, vp)
    {
      var c := cat.(idleTime := cat.idleTime + dt);
      c := ChooseActivity(c, roamMode, vp, d);
      cat := c;
      MeowTick(dt, d);
    }

    /** The meow clock of the IDLE branch. */
    method MeowTick(dt: real, d: CatDraws)
      modifies this
      ensures Snapshot() == MeowClock(old(Snapshot()), dt, d)
    {
      meowTimer := meowTimer + dt;
      if meowTimer > nextMeowTime {
        meowTimer := 0.0;
        nextMeowTime := 8000.0 + d.nextMeow * 10000.0;
      }
    }

    /** The SLEEP branch of `updateCat`. */
    method CatSleepStep(dt: real, d: CatDraws, vp: Viewport)
      modifies this
      ensures Snapshot() == CatSleep(old(Snapshot()), dt, d, vp)
    {
      DozeStep(dt, d);
      if cat.sleepTime > cat.sleepDuration {
        WakeStep(vp);
      }
    }

    /** Count sleep; one time in fifty a "zzz" floats up. */
    method DozeStep(dt: real, d: CatDraws)
      modifies this
      ensures Snapshot() == Doze(old(Snapshot()), dt, d)
    {
      cat := cat.(sleepTime := cat.sleepTime + dt);
      if d.zzz < 0.02 {
        var _ := SpawnFloatingEmoji("zzz", cat.x + 10.0, cat.y - 20.0, Free);
      }
    }

    /** The end of the nap: SURPRISE, a jump unless in BOTTOM, and the retarget a second later. */
    method WakeStep(vp: Viewport)
      requires cat.sleepTime > cat.sleepDuration
      modifies this
      ensures Snapshot() == WakeUp(old(Snapshot()), vp)
    {
      var c := cat.(state := Surprise);
      if roamMode != Bottom {
        c := c.(vy := -3.0);
      }
      cat := c;
      pending := pending + [Timer(Retarget(CatMinY(roamMode, vp)), 1000.0)];
    }

    /** The WALK/RUN branch of `updateCat`. */
    method CatMoveStep(d: CatDraws, vp: Viewport, hypot: (real, real) -> real, heading: (real, real) -> (real, real))
      modifies this
      ensures Snapshot() == CatMove(old(Snapshot()), d, vp, hypot, heading)
    {
      var c := cat.(idleTime := 0.0);
      c := MoveCat(c, roamMode, vp, d, hypot, heading);
      cat := c;
    }

    /** The state machine of `updateCat`. */
    method CatDecideStep(dt: real, d: CatDraws, vp: Viewport, hypot: (real, real) -> real, heading: (real, real) -> (real, real))
      modifies this
      ensures Snapshot() == CatDecide(old(Snapshot()), dt, d, vp, hypot, heading)
    {
      match cat.state
      case Idle => CatIdleStep(dt, d, vp);
      case Sleep => CatSleepStep(dt, d, vp);
      case Walk => CatMoveStep(d, vp, hypot, heading);
      case Run => CatMoveStep(d, vp, hypot, heading);
      case Dragged => cat := cat.(idleTime := 0.0);
      case _ =>
    }

    /** Physics, bounds and the animator of `updateCat`. */
    method CatSettleStep(dt: real, vp: Viewport)
      modifies this
      ensures Snapshot() == old(Snapshot()).(cat := CatSettle(old(cat), roamMode, vp, dt))
    {
      var cadence := PetCadence(cat.state);
      if cat.state == Surprise && roamMode != Bottom {
        cat := cat.(vy := cat.vy + 0.2);
        cat := cat.(y := cat.y + cat.vy);
      }
      cat := cat.(y := BoundY(cat.y, roamMode, vp.height - 50.0, vp.height));
      cat := cat.(x := ClampX(cat.x, vp.width));
      cat := Animate(cat, dt, cadence);
    }

    /** The thoughts part of `updateCat`. */
    method CatThoughtStep(dt: real, d: CatDraws)
      requires CatDrawsOk(d)
      modifies this
      ensures Snapshot() == CatThought(old(Snapshot()), dt, d)
    {
      if cat.state != Sleep {
        thoughtTimer := thoughtTimer + dt;
        if thoughtTimer > nextThoughtTime {
          thoughtTimer := 0.0;
          nextThoughtTime := 4000.0 + d.nextThought * 4000.0;
          ShowRandomCuteThought(d.thought);
        }
      }
    }

    /** `updateCat(dt)`. */
    method UpdateCat(dt: real, d: CatDraws, vp: Viewport, hypot: (real, real) -> real, heading: (real, real) -> (real, real))
      requires CatDrawsOk(d)
      modifies this
      ensures Snapshot() == CatTick(old(Snapshot()), dt, d, vp, hypot, heading)
    {
      CatDecideStep(dt, d, vp, hypot, heading);
      CatSettleStep(dt, vp);
      CatThoughtStep(dt, d);
    }

    // ---- the human ----

    /** The chase branch of `updateHuman`: step towards the cat, then every three seconds
        shout. */
    method HumanChaseStep(dt: real, d: HumanDraws, now: real, hypot: (real, real) -> real, heading: (real, real) -> (real, real))
      requires HumanDrawsOk(d)
      modifies this
      ensures Snapshot() == HumanChase(old(Snapshot()), dt, d, now, hypot, heading)
    {
      HumanChaseMove(now, hypot, heading);
      humanTextTimer := humanTextTimer + dt;
      if humanTextTimer > 3000.0 {
        humanTextTimer := 0.0;
        ShowHumanThought(Pick(Shouts, d.shout));
      }
    }

    /** The human's 5 px step towards the cat (level in BOTTOM) and its turn, which needs the
        cat farther than 60 px. */
    method HumanChaseMove(now: real, hypot: (real, real) -> real, heading: (real, real) -> (real, real))
      modifies this
      ensures Snapshot() == old(Snapshot()).(human := ChaseStep(old(human), cat, roamMode, now, hypot, heading))
    {
      var dist := Dist(human.x, human.y, cat.x, cat.y, hypot);
      var dir := Dir(human.x, human.y, cat.x, cat.y, heading);
      var h := human;
      h := h.(state := Chase);
      h := h.(x := h.x + dir.0 * 5.0);
      if roamMode != Bottom {
        h := h.(y := h.y + dir.1 * 5.0);
      }
      h := TurnTowards(h, dir.0, dist > 60.0, now);
      human := h;
    }

    /** The follow branch of `updateHuman`: a 2 px step towards the cat (level in BOTTOM)
        and a turn whatever the distance. */
    method HumanFollowStep(now: real, heading: (real, real) -> (real, real))
      modifies this
      ensures Snapshot() == HumanFollow(old(Snapshot()), now, heading)
    {
      var dir := Dir(human.x, human.y, cat.x, cat.y, heading);
      var h := human;
      h := h.(state := Walk);
      h := h.(x := h.x + dir.0 * 2.0);
      if roamMode != Bottom {
        h := h.(y := h.y + dir.1 * 2.0);
      }
      h := TurnTowards(h, dir.0, true, now);
      human := h;
    }

    /** The last branch of `updateHuman`, near a calm cat. */
    method HumanLingerStep(d: HumanDraws, vp: Viewport)
      requires HumanDrawsOk(d)
      modifies this
      ensures Snapshot() == HumanLinger(old(Snapshot()), d, vp)
    {
      if d.wander < 0.05 {
        human := human.(state := Walk);
        human := human.(targetX := human.x + (d.offsetX * 200.0 - 100.0));
        if roamMode == Bottom {
          human := human.(targetY := vp.height - 130.0);
        } else {
          human := human.(targetY := human.y + (d.offsetY * 100.0 - 50.0));
        }
      } else {
        human := human.(state := if human.isTalking then Talk else Idle);
        if d.musing < 0.005 {
          ShowHumanThought(Pick(Musings, d.musingPick));
        }
      }
    }

    /** The state machine of `updateHuman`. */
    method HumanDecideStep(dt: real, d: HumanDraws, vp: Viewport, now: real, hypot: (real, real) -> real, heading: (real, real) -> (real, real))
      requires HumanDrawsOk(d)
      modifies this
      ensures Snapshot() == HumanDecide(old(Snapshot()), dt, d, vp, now, hypot, heading)
    {
      if cat.state == Run {
        HumanChaseStep(dt, d, now, hypot, heading);
      } else if Dist(human.x, human.y, cat.x, cat.y, hypot) > 200.0 {
        HumanFollowStep(now, heading);
      } else {
        HumanLingerStep(d, vp);
      }
    }

    /** `updateHuman(dt)`: the state machine, then the bounds and the animator. */
    method UpdateHuman(dt: real, d: HumanDraws, vp: Viewport, now: real, hypot: (real, real) -> real, heading: (real, real) -> (real, real))
      requires HumanDrawsOk(d)
      modifies this
      ensures Snapshot() == HumanTick(old(Snapshot()), dt, d, vp, now, hypot, heading)
    {
      HumanDecideStep(dt, d, vp, now, hypot, heading);
      human := human.(y := BoundY(human.y, roamMode, vp.height - 130.0, vp.height));
      human := human.(x := ClampX(human.x, vp.width));
      human := Animate(human, dt, OwnerCadence(human.state));
    }

    // ---- the frame ----

    /** `gameLoop(timestamp)`, with the draws, `Date.now()` and the trigonometry it uses. */
    method GameLoop(timestamp: real, cd: CatDraws, hd: HumanDraws, vp: Viewport, now: real,
                    hypot: (real, real) -> real, heading: (real, real) -> (real, real))
      requires CatDrawsOk(cd) && HumanDrawsOk(hd)
      modifies this
      ensures Snapshot() == Tick(old(Snapshot()), timestamp, cd, hd, vp, now, hypot, heading)
      ensures old(Valid()) ==> Valid()
    {
      var dt := timestamp - lastTime;
      assert dt == Elapsed(old(Snapshot()), timestamp);
      lastTime := timestamp;
      if roamMode != Hidden {
        UpdateCat(dt, cd, vp, hypot, heading);
        UpdateHuman(dt, hd, vp, now, hypot, heading);
        UpdateFloatingEmojis(dt);
      }
      if old(Valid()) {
        Engine.TickValid(old(Snapshot()), timestamp, cd, hd, vp, now, hypot, heading);
      }
    }
  }

  /** One step of the backward pass: the bubble at `i` is updated or dropped in front of the
      rest. */
  lemma DecayStep(bs: seq<Bubble>, i: nat, dt: real, cat: Actor, human: Actor)
    requires i < |bs|
    ensures Decay(bs[i..], dt, cat, human) ==
      (if Survives(bs[i], dt) then [Advance(bs[i], dt, cat, human)] else []) + Decay(bs[i + 1..], dt, cat, human)
  {
    assert bs[i..][0] == bs[i];
    assert bs[i..][1..] == bs[i + 1..];
  }

  /** The loop body of `updateFloatingEmojis` for one bubble: age it and, unless its life is
      over, move and fade it. */
  method AgeBubble(b0: Bubble, dt: real, cat: Actor, human: Actor) returns (b: Bubble, alive: bool)
    ensures alive == Survives(b0, dt)
    ensures alive ==> b == Advance(b0, dt, cat, human)
  {
    b := b0;
    b := b.(life := b.life - dt);
    b := b.(offsetY := b.offsetY + dt * 0.06);
    alive := !(b.life <= 0.0);
    if alive {
      match b.attach {
        case ToCat =>
          b := b.(left := cat.x + b.baseX, top := cat.y + b.baseY - b.offsetY);
        case ToHuman =>
          b := b.(left := human.x + b.baseX, top := human.y + b.baseY - b.offsetY);
        case Free =>
          b := b.(top := b.top - 1.0);
      }
      if b.life < 1000.0 {
        b := b.(opacity := Some(b.life / 1000.0));
      }
    }
  }

  lemma Split(bs: seq<Bubble>, i: nat)
    requires i < |bs|
    ensures bs[..i + 1] == bs[..i] + [bs[i]]
  {
  }

  /** Splicing out the element at `|pre|`. */
  lemma RemoveAt(pre: seq<Bubble>, x: Bubble, rest: seq<Bubble>)
    ensures var s := pre + [x] + rest; s[..|pre|] + s[|pre| + 1..] == pre + rest
  {
    var s := pre + [x] + rest;
    assert s[..|pre|] == pre;
    assert s[|pre| + 1..] == rest;
  }

  /** Overwriting the element at `|pre|`. */
  lemma ReplaceAt(pre: seq<Bubble>, x: Bubble, rest: seq<Bubble>, y: Bubble)
    ensures (pre + [x] + rest)[|pre| := y] == pre + [y] + rest
  {
  }

  /** The facing update shared by the chase and follow branches. */
  method TurnTowards(h0: Actor, cosA: real, eligible: bool, now: real) returns (h: Actor)
    ensures h == Turn(h0, cosA, eligible, now)
  {
    h := h0;
    if eligible && now - h.lastFaceChange > 1500.0 {
      if cosA > 0.6 && !h.facingRight {
        h := h.(facingRight := true, lastFaceChange := now);
      } else if cosA < -0.6 && h.facingRight {
        h := h.(facingRight := false, lastFaceChange := now);
      }
    }
  }

  /** The choice an idle cat makes. */
  method ChooseActivity(c0: Actor, mode: RoamMode, vp: Viewport, d: CatDraws) returns (c: Actor)
    ensures c == NextActivity(c0, mode, vp, d)
  {
    var minY := CatMinY(mode, vp);
    var r := d.choice;
    if r < 0.05 {
      c := c0.(state := Sleep, sleepTime := 0.0, sleepDuration := 5000.0 + d.duration * 5000.0);
    } else if r < 0.55 {
      c := StartZoomies(c0, minY, mode, vp, d.targetX, d.targetY);
    } else {
      c := PickRandomTarget(c0, minY, mode, vp, d.targetX, d.targetY);
    }
  }

  /** Stop near the target, else step towards it, a running cat sometimes retargeting. */
  method MoveCat(c0: Actor, mode: RoamMode, vp: Viewport, d: CatDraws, hypot: (real, real) -> real, heading: (real, real) -> (real, real))
    returns (c: Actor)
    ensures c == MoveStep(c0, mode, vp, d, hypot, heading)
  {
    c := c0;
    if Dist(c.x, c.y, c.targetX, c.targetY, hypot) < 20.0 {
      c := c.(state := Idle);
    } else {
      var (ux, uy) := Dir(c.x, c.y, c.targetX, c.targetY, heading);
      var speed := if c.state == Run then 8.0 else 3.0;
      c := c.(vx := ux * speed, vy := uy * speed);
      c := c.(x := c.x + c.vx, y := c.y + c.vy);
      c := c.(facingRight := c.vx > 0.0);
      if c.state == Run && d.retarget < 0.05 {
        c := PickRandomTarget(c, CatMinY(mode, vp), mode, vp, d.targetX, d.targetY);
      }
    }
  }
}
