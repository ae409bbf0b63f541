/** The renderer's behaviour engine as transitions of one explicit context: both actors,
    the roam mode, the global timers, the bubble list, the drag state and the pending
    `setTimeout` callbacks. `Math.random()` draws, `Date.now()`, `performance.now()`
    timestamps and the trigonometry are parameters: `hypot(dx, dy)` is what
    `Math.sqrt(dx * dx + dy * dy)` returns and `heading(dx, dy)` the unit vector along
    `(dx, dy)`: the cat's `dx / dist`, `dy / dist`, and the human's `Math.cos(a)`,
    `Math.sin(a)` for `a = Math.atan2(dy, dx)`, which are the same vector on exact reals. */
module Behaviour {
  import opened Wrappers
  import opened Actors
  import opened Bubbles

  /** A deferred callback: the post-SURPRISE retarget (with the `minY` it captured) or the
      end of the click greeting. */
  datatype Task = Retarget(minY: real) | StopTalking
  datatype Timer = Timer(task: Task, delay: real)

  /** Everything the renderer's engine keeps between events. `dragging`, `dragOffsetX/Y` and
      `lastDragSound` are the interaction handlers' closure variables; `catShown` and
      `humanShown` are the two elements' `display`; `nextId` numbers elements. */
  datatype World = World(
    mode: RoamMode, lastTime: real, cat: Actor, human: Actor,
    thoughtTimer: real, nextThoughtTime: real, meowTimer: real, nextMeowTime: real, humanTextTimer: real,
    activeThought: Option<nat>, bubbles: seq<Bubble>, nextId: nat,
    dragging: bool, dragOffsetX: real, dragOffsetY: real, lastDragSound: real,
    catShown: bool, humanShown: bool, pending: seq<Timer>)

  /** A value `Math.random()` can return. */
  predicate Unit(u: real) { 0.0 <= u < 1.0 }

  /** The draws one cat update may consume, one per use site. */
  datatype CatDraws = CatDraws(
    choice: real, duration: real, targetX: real, targetY: real, nextMeow: real,
    zzz: real, retarget: real, nextThought: real, thought: real)

  predicate CatDrawsOk(d: CatDraws) {
    Unit(d.choice) && Unit(d.duration) && Unit(d.targetX) && Unit(d.targetY) && Unit(d.nextMeow) &&
    Unit(d.zzz) && Unit(d.retarget) && Unit(d.nextThought) && Unit(d.thought)
  }

  /** The draws one human update may consume. */
  datatype HumanDraws = HumanDraws(shout: real, wander: real, offsetX: real, offsetY: real, musing: real, musingPick: real)

  predicate HumanDrawsOk(d: HumanDraws) {
    Unit(d.shout) && Unit(d.wander) && Unit(d.offsetX) && Unit(d.offsetY) && Unit(d.musing) && Unit(d.musingPick)
  }

  /** A step with `dy = 0` has no vertical part: `0 / dist` is 0, and so is the sine of
      `Math.atan2(0, dx)`, which is 0 or pi. */
  ghost predicate LevelHeading(heading: (real, real) -> (real, real)) {
    forall dx: real :: heading(dx, 0.0).1 == 0.0
  }

  /** The distance from (`x0`, `y0`) to (`x1`, `y1`), and the unit vector along it. */
  function Dist(x0: real, y0: real, x1: real, y1: real, hypot: (real, real) -> real): real {
    hypot(x1 - x0, y1 - y0)
  }

  function Dir(x0: real, y0: real, x1: real, y1: real, heading: (real, real) -> (real, real)): (real, real) {
    heading(x1 - x0, y1 - y0)
  }

  const CuteThoughts: seq<string> := ["🐟", "🧶", "🥛", "🐭", "❤️", "🐾", "✨", "🦋"]
  const Shouts: seq<string> := ["Stop!", "Wait!", "Food!", "Hey!!", "Zoomies!"]
  const Musings: seq<string> := ["Hmm...", "Where is Kitty?", "Kitty?", "Work time."]

  /** `Math.floor(u * n)` for a draw `u`: always a valid index. */
  function Choose(n: nat, u: real): (k: nat)
    requires n > 0 && Unit(u)
    ensures k < n
  {
    var scaled := u * (n as real);
    Scale(u, n as real);
    assert 0.0 <= scaled < n as real;
    scaled.Floor
  }

  function Pick(options: seq<string>, u: real): (r: string)
    requires |options| > 0 && Unit(u)
    ensures r in options
  {
    options[Choose(|options|, u)]
  }

  /** The start state: both actors around the middle, IDLE and facing right. */
  function Initial(vp: Viewport, now: real): World {
    var cat := Actor(vp.width / 2.0 + 50.0, vp.height / 2.0, 0.0, 0.0, vp.width / 2.0, vp.height / 2.0,
                     Idle, 0, 0.0, true, 1.5, 0.0, 0.0, 10000.0, false, 0.0);
    var human := Actor(vp.width / 2.0 - 50.0, vp.height / 2.0, 0.0, 0.0, vp.width / 2.0, vp.height / 2.0,
                       Idle, 0, 0.0, true, 2.5, 0.0, 0.0, 0.0, false, 0.0);
    World(Full, now, cat, human, 0.0, 2000.0, 0.0, 5000.0, 0.0, None, [], 0,
          false, 0.0, 0.0, 0.0, true, true, [])
  }

  // ---- bubbles ----

  /** `spawnFloatingEmoji`: a new element, tracked at the end of the list. */
  function SpawnIn(w: World, text: string, x: real, y: real, attach: Attach): World {
    w.(bubbles := w.bubbles + [Spawn(w.nextId, text, x, y, attach)], nextId := w.nextId + 1)
  }

  /** The element with identity `id` leaves the document; its record stays in the list. */
  function Hide(bs: seq<Bubble>, id: nat): (r: seq<Bubble>)
    ensures |r| == |bs|
    ensures forall k :: 0 <= k < |bs| ==> r[k] == if bs[k].id == id then bs[k].(inDom := false) else bs[k]
  {
    seq(|bs|, k requires 0 <= k < |bs| => if bs[k].id == id then bs[k].(inDom := false) else bs[k])
  }

  /** Hiding takes every element with that identity out of the document, keeps the list's
      identities in place (so their order), keeps every other record as it was, and a second
      hide of the same identity changes nothing. */
  lemma HideSpec(bs: seq<Bubble>, id: nat)
    ensures forall b :: b in Hide(bs, id) && b.id == id ==> !b.inDom
    ensures forall k :: 0 <= k < |bs| ==> Hide(bs, id)[k].id == bs[k].id
    ensures forall b :: b in bs && b.id != id ==> b in Hide(bs, id)
    ensures IdsIncreasing(bs) ==> IdsIncreasing(Hide(bs, id))
    ensures Hide(Hide(bs, id), id) == Hide(bs, id)
  {
    var r := Hide(bs, id);
    forall b | b in bs && b.id != id
      ensures b in r
    {
      var k :| 0 <= k < |bs| && bs[k] == b;
      assert r[k] == b;
    }
  }

  /** `showHumanThought`: remove the previous thought's element, then spawn one that
      follows the human and remember it. */
  function ShowHumanThought(w: World, text: string): World {
    var bs := match w.activeThought case Some(id) => Hide(w.bubbles, id) case None => w.bubbles;
    var w1 := SpawnIn(w.(bubbles := bs), text, w.human.x, w.human.y, ToHuman);
    w1.(activeThought := Some(w.nextId))
  }

  // ---- the cat ----

  /** `minY` of `updateCat`: the floor in BOTTOM, else the top of the window. */
  function CatMinY(mode: RoamMode, vp: Viewport): real {
    if mode == Bottom then vp.height - 50.0 else 0.0
  }

  /** What an idle cat does next: sleep 5 to 10 seconds (5%), zoom off (50%) or walk to a
      random target. */
  function NextActivity(c: Actor, mode: RoamMode, vp: Viewport, d: CatDraws): Actor {
    var minY := CatMinY(mode, vp);
    if d.choice < 0.05 then c.(state := Sleep, sleepTime := 0.0, sleepDuration := 5000.0 + d.duration * 5000.0)
    else if d.choice < 0.55 then StartZoomies(c, minY, mode, vp, d.targetX, d.targetY)
    else PickRandomTarget(c, minY, mode, vp, d.targetX, d.targetY)
  }

  /** The IDLE branch: count idle time, pick the next activity, and maybe reschedule the meow. */
  function CatIdle(w: World, dt: real, d: CatDraws, vp: Viewport): World {
    MeowClock(w.(cat := NextActivity(w.cat.(idleTime := w.cat.idleTime + dt), w.mode, vp, d)), dt, d)
  }

  /** The idle cat's meow clock: past the current interval it restarts with an interval of
      8 to 18 seconds. */
  function MeowClock(w: World, dt: real, d: CatDraws): World {
    var meow := w.meowTimer + dt;
    if meow > w.nextMeowTime then w.(meowTimer := 0.0, nextMeowTime := 8000.0 + d.nextMeow * 10000.0)
    else w.(meowTimer := meow)
  }

  /** The SLEEP branch: count sleep, maybe float a "zzz", and wake up surprised once the
      duration is exceeded, scheduling a retarget a second later. */
  function CatSleep(w: World, dt: real, d: CatDraws, vp: Viewport): World {
    WakeUp(Doze(w, dt, d), vp)
  }

  /** Count sleep and maybe float a "zzz" above the cat. */
  function Doze(w: World, dt: real, d: CatDraws): World {
    var c := w.cat.(sleepTime := w.cat.sleepTime + dt);
    if d.zzz < 0.02 then SpawnIn(w.(cat := c), "zzz", c.x + 10.0, c.y - 20.0, Free) else w.(cat := c)
  }

  /** Past its sleep duration the cat wakes up surprised (jumping, except in BOTTOM). */
  function WakeUp(w: World, vp: Viewport): World {
    var c := w.cat;
    if c.sleepTime > c.sleepDuration then
      w.(cat := c.(state := Surprise, vy := if w.mode != Bottom then -3.0 else c.vy),
         pending := w.pending + [Timer(Retarget(CatMinY(w.mode, vp)), 1000.0)])
    else w
  }

  /** The WALK/RUN branch: stop within 20 px of the target, else step towards it (8 px when
      running, 3 when walking), and a running cat sometimes changes its mind. */
  function CatMove(w: World, d: CatDraws, vp: Viewport, hypot: (real, real) -> real, heading: (real, real) -> (real, real)): World {
    w.(cat := MoveStep(w.cat.(idleTime := 0.0), w.mode, vp, d, hypot, heading))
  }

  /** The cat's step in WALK or RUN, from its state with the idle time reset. */
  function MoveStep(p: Actor, mode: RoamMode, vp: Viewport, d: CatDraws, hypot: (real, real) -> real, heading: (real, real) -> (real, real)): Actor {
    if Dist(p.x, p.y, p.targetX, p.targetY, hypot) < 20.0 then p.(state := Idle)
    else
      var (ux, uy) := Dir(p.x, p.y, p.targetX, p.targetY, heading);
      var speed := if p.state == Run then 8.0 else 3.0;
      var q := p.(vx := ux * speed, vy := uy * speed, x := p.x + ux * speed, y := p.y + uy * speed, facingRight := ux * speed > 0.0);
      if q.state == Run && d.retarget < 0.05 then PickRandomTarget(q, CatMinY(mode, vp), mode, vp, d.targetX, d.targetY)
      else q
  }

  /** The state-machine part of `updateCat`. */
  function CatDecide(w: World, dt: real, d: CatDraws, vp: Viewport, hypot: (real, real) -> real, heading: (real, real) -> (real, real)): World {
    match w.cat.state
    case Idle => CatIdle(w, dt, d, vp)
    case Sleep => CatSleep(w, dt, d, vp)
    case Walk => CatMove(w, d, vp, hypot, heading)
    case Run => CatMove(w, d, vp, hypot, heading)
    case Dragged => w.(cat := w.cat.(idleTime := 0.0))
    case _ => w
  }

  /** Falling after a surprise, except in BOTTOM. */
  function CatPhysics(c: Actor, mode: RoamMode): Actor {
    if c.state == Surprise && mode != Bottom then c.(vy := c.vy + 0.2, y := c.y + (c.vy + 0.2)) else c
  }

  /** The bounds part of `updateCat`, whatever the state. */
  function CatBound(c: Actor, mode: RoamMode, vp: Viewport): Actor {
    c.(y := BoundY(c.y, mode, vp.height - 50.0, vp.height), x := ClampX(c.x, vp.width))
  }

  /** Physics, bounds and the animator, in that order. */
  function CatSettle(c: Actor, mode: RoamMode, vp: Viewport, dt: real): Actor {
    Animate(CatBound(CatPhysics(c, mode), mode, vp), dt, PetCadence(c.state))
  }

  /** A cat that is not asleep has a cute thought every four to eight seconds. */
  function CatThought(w: World, dt: real, d: CatDraws): World
    requires CatDrawsOk(d)
  {
    if w.cat.state == Sleep then w
    else
      var t := w.thoughtTimer + dt;
      if t > w.nextThoughtTime then
        SpawnIn(w.(thoughtTimer := 0.0, nextThoughtTime := 4000.0 + d.nextThought * 4000.0),
                Pick(CuteThoughts, d.thought), w.cat.x, w.cat.y, ToCat)
      else w.(thoughtTimer := t)
  }

  /** `updateCat(dt)`. */
  function CatTick(w: World, dt: real, d: CatDraws, vp: Viewport, hypot: (real, real) -> real, heading: (real, real) -> (real, real)): World
    requires CatDrawsOk(d)
  {
    var w1 := CatDecide(w, dt, d, vp, hypot, heading);
    CatThought(w1.(cat := CatSettle(w1.cat, w1.mode, vp, dt)), dt, d)
  }

  // ---- the human ----

  /** One chasing step of the human towards the cat at 5 px per tick (level in BOTTOM),
      turning only when farther than 60 px. */
  function ChaseStep(hum: Actor, cat: Actor, mode: RoamMode, now: real, hypot: (real, real) -> real, heading: (real, real) -> (real, real)): Actor {
    var dir := Dir(hum.x, hum.y, cat.x, cat.y, heading);
    var h1 := hum.(state := Chase, x := hum.x + dir.0 * 5.0, y := if mode == Bottom then hum.y else hum.y + dir.1 * 5.0);
    Turn(h1, dir.0, Dist(hum.x, hum.y, cat.x, cat.y, hypot) > 60.0, now)
  }

  /** A running cat is chased; every three seconds of chasing the human shouts. */
  function HumanChase(w: World, dt: real, d: HumanDraws, now: real, hypot: (real, real) -> real, heading: (real, real) -> (real, real)): World
    requires HumanDrawsOk(d)
  {
    var h := ChaseStep(w.human, w.cat, w.mode, now, hypot, heading);
    var t := w.humanTextTimer + dt;
    if t > 3000.0 then ShowHumanThought(w.(human := h, humanTextTimer := 0.0), Pick(Shouts, d.shout))
    else w.(human := h, humanTextTimer := t)
  }

  /** A cat farther than 200 px is followed at 2 px per tick. */
  function FollowStep(hum: Actor, cat: Actor, mode: RoamMode, now: real, heading: (real, real) -> (real, real)): Actor {
    var dir := Dir(hum.x, hum.y, cat.x, cat.y, heading);
    var h1 := hum.(state := Walk, x := hum.x + dir.0 * 2.0, y := if mode != Bottom then hum.y + dir.1 * 2.0 else hum.y);
    Turn(h1, dir.0, true, now)
  }

  function HumanFollow(w: World, now: real, heading: (real, real) -> (real, real)): World {
    w.(human := FollowStep(w.human, w.cat, w.mode, now, heading))
  }

  /** Near a calm cat the human sometimes sets out for a nearby target (which it never walks
      to), else stands or talks and now and then muses. */
  function HumanLinger(w: World, d: HumanDraws, vp: Viewport): World
    requires HumanDrawsOk(d)
  {
    var hum := w.human;
    if d.wander < 0.05 then
      w.(human := hum.(state := Walk, targetX := hum.x + (d.offsetX * 200.0 - 100.0),
                       targetY := if w.mode == Bottom then vp.height - 130.0 else hum.y + (d.offsetY * 100.0 - 50.0)))
    else
      var w1 := w.(human := hum.(state := if hum.isTalking then Talk else Idle));
      if d.musing < 0.005 then ShowHumanThought(w1, Pick(Musings, d.musingPick)) else w1
  }

  /** The state-machine part of `updateHuman`. */
  function HumanDecide(w: World, dt: real, d: HumanDraws, vp: Viewport, now: real, hypot: (real, real) -> real, heading: (real, real) -> (real, real)): World
    requires HumanDrawsOk(d)
  {
    if w.cat.state == Run then HumanChase(w, dt, d, now, hypot, heading)
    else if Dist(w.human.x, w.human.y, w.cat.x, w.cat.y, hypot) > 200.0 then HumanFollow(w, now, heading)
    else HumanLinger(w, d, vp)
  }

  /** The bounds part of `updateHuman`; its BOTTOM floor is 130 px above the window bottom. */
  function HumanBound(h: Actor, mode: RoamMode, vp: Viewport): Actor {
    h.(y := BoundY(h.y, mode, vp.height - 130.0, vp.height), x := ClampX(h.x, vp.width))
  }

  /** `updateHuman(dt)`. */
  function HumanTick(w: World, dt: real, d: HumanDraws, vp: Viewport, now: real, hypot: (real, real) -> real, heading: (real, real) -> (real, real)): World
    requires HumanDrawsOk(d)
  {
    var w1 := HumanDecide(w, dt, d, vp, now, hypot, heading);
    w1.(human := Animate(HumanBound(w1.human, w1.mode, vp), dt, OwnerCadence(w1.human.state)))
  }

  // ---- events ----

  /** The three updates of a visible frame: the cat, then the human (who sees the updated
      cat), then the bubbles (which follow the updated actors). */
  function Updates(w: World, dt: real, cd: CatDraws, hd: HumanDraws, vp: Viewport, now: real,
                   hypot: (real, real) -> real, heading: (real, real) -> (real, real)): World
    requires CatDrawsOk(cd) && HumanDrawsOk(hd)
  {
    var w2 := HumanTick(CatTick(w, dt, cd, vp, hypot, heading), dt, hd, vp, now, hypot, heading);
    w2.(bubbles := Decay(w2.bubbles, dt, w2.cat, w2.human))
  }

  /** The time since the previous frame. */
  function Elapsed(w: World, timestamp: real): real { timestamp - w.lastTime }

  /** `gameLoop(timestamp)`: nothing but the clock moves while hidden. */
  function Tick(w: World, timestamp: real, cd: CatDraws, hd: HumanDraws, vp: Viewport, now: real,
                hypot: (real, real) -> real, heading: (real, real) -> (real, real)): World
    requires CatDrawsOk(cd) && HumanDrawsOk(hd)
  {
    if w.mode == Hidden then w.(lastTime := timestamp)
    else Updates(w.(lastTime := timestamp), Elapsed(w, timestamp), cd, hd, vp, now, hypot, heading)
  }

  /** `cycleRoamMode`: the next mode; entering BOTTOM puts both actors on the cat's floor;
      hidden exactly in NONE. */
  function CycleRoam(w: World, vp: Viewport): World {
    var m := NextMode(w.mode);
    var floor := vp.height - 50.0;
    w.(mode := m,
       cat := if m == Bottom then w.cat.(y := floor) else w.cat,
       human := if m == Bottom then w.human.(y := floor) else w.human,
       catShown := m != Hidden, humanShown := m != Hidden)
  }

  /** `mousedown`: grab the cat when the pointer is inside the 60 px box around it. */
  function PointerDown(w: World, cx: real, cy: real): World {
    var dx := cx - w.cat.x;
    var dy := cy - w.cat.y;
    if Abs(dx) < 60.0 && Abs(dy) < 60.0 then
      w.(dragging := true, dragOffsetX := dx, dragOffsetY := dy, cat := w.cat.(state := Dragged))
    else w
  }

  /** `mousemove`: a dragged cat sits exactly at the pointer minus the captured offset. */
  function PointerMove(w: World, cx: real, cy: real, now: real): World {
    if !w.dragging then w
    else
      var w1 := w.(cat := w.cat.(x := cx - w.dragOffsetX, y := cy - w.dragOffsetY));
      if now - w.lastDragSound > 600.0 then w1.(lastDragSound := now) else w1
  }

  /** `mouseup`: drop the cat, IDLE and falling at 5. */
  function PointerUp(w: World): World {
    if w.dragging then w.(dragging := false, cat := w.cat.(state := Idle, vy := 5.0)) else w
  }

  /** The human element's `click`: greet, and stop talking three seconds later. */
  function HumanClick(w: World): World {
    w.(human := w.human.(isTalking := true), pending := w.pending + [Timer(StopTalking, 3000.0)])
  }

  /** The host runs pending callback `k`, whatever the mode or the cat's state by then. */
  function FireTimer(w: World, k: nat, vp: Viewport, ux: real, uy: real): World
    requires k < |w.pending|
  {
    var t := w.pending[k];
    var w1 := w.(pending := w.pending[..k] + w.pending[k + 1..]);
    match t.task
    case Retarget(minY) => w1.(cat := PickRandomTarget(w1.cat, minY, w1.mode, vp, ux, uy))
    case StopTalking => w1.(human := w1.human.(isTalking := false))
  }
}
