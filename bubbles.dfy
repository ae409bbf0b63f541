/** The floating-emoji list: what `spawnFloatingEmoji` records and what one pass of
    `updateFloatingEmojis` does to each record. The DOM element of a record is represented
    by its position, its opacity and whether it is still attached to the document. */
module Bubbles {
  import opened Wrappers
  import opened Actors

  /** Which actor, if any, a bubble follows. */
  datatype Attach = Free | ToCat | ToHuman

  /** One tracked bubble; `id` stands for the identity of its element. */
  datatype Bubble = Bubble(
    id: nat, text: string, life: real, offsetY: real, attach: Attach,
    baseX: real, baseY: real, left: real, top: real, opacity: Option<real>, inDom: bool)

  /** The record `spawnFloatingEmoji` creates for an element placed at (`x`, `y`). */
  function Spawn(id: nat, text: string, x: real, y: real, attach: Attach): (b: Bubble)
    ensures b.id == id && b.text == text && b.life == 2000.0 && b.offsetY == 0.0
    ensures b.left == x && b.top == y && b.opacity == None && b.inDom
    ensures b.attach == attach && b.baseY == -50.0 && b.baseX == (if attach == Free then 0.0 else 20.0)
  {
    Bubble(id, text, 2000.0, 0.0, attach, if attach != Free then 20.0 else 0.0, -50.0, x, y, None, true)
  }

  /** A fresh bubble outlives every update shorter than two seconds and no longer one, and shows
      at full opacity through its first second. */
  lemma SpawnLifetime(id: nat, text: string, x: real, y: real, attach: Attach, dt: real, cat: Actor, human: Actor)
    ensures Survives(Spawn(id, text, x, y, attach), dt) <==> dt < 2000.0
    ensures dt <= 1000.0 ==> Advance(Spawn(id, text, x, y, attach), dt, cat, human).opacity == None
    ensures 1000.0 < dt < 2000.0 ==>
      var o := Advance(Spawn(id, text, x, y, attach), dt, cat, human).opacity;
      o.Some? && 0.0 < o.value < 1.0
  {
  }

  /** Life after an update of `dt` milliseconds; the bubble is removed once this is not positive. */
  function Remaining(b: Bubble, dt: real): real { b.life - dt }

  predicate Survives(b: Bubble, dt: real) { Remaining(b, dt) > 0.0 }

  /** The loop body for a bubble that survives: it ages, rises, follows its actor (or drifts
      up a pixel) and fades during its last second. */
  function Advance(b: Bubble, dt: real, cat: Actor, human: Actor): Bubble {
    var life := Remaining(b, dt);
    var offsetY := b.offsetY + dt * 0.06;
    var b1 := b.(life := life, offsetY := offsetY);
    var b2 :=
      match b.attach
      case ToCat => b1.(left := cat.x + b.baseX, top := cat.y + b.baseY - offsetY)
      case ToHuman => b1.(left := human.x + b.baseX, top := human.y + b.baseY - offsetY)
      case Free => b1.(top := b.top - 1.0);
    if life < 1000.0 then b2.(opacity := Some(life / 1000.0)) else b2
  }

  /** The position and opacity rules; identity, text, offsets and attachment are kept. */
  lemma AdvanceSpec(b: Bubble, dt: real, cat: Actor, human: Actor)
    ensures var r := Advance(b, dt, cat, human);
      && r.id == b.id && r.text == b.text && r.attach == b.attach && r.inDom == b.inDom
      && r.baseX == b.baseX && r.baseY == b.baseY
      && r.life == b.life - dt
      && r.offsetY == b.offsetY + dt * 0.06
      && (b.attach == ToCat ==> r.left == cat.x + b.baseX && r.top == cat.y + b.baseY - r.offsetY)
      && (b.attach == ToHuman ==> r.left == human.x + b.baseX && r.top == human.y + b.baseY - r.offsetY)
      && (b.attach == Free ==> r.left == b.left && r.top == b.top - 1.0)
      && (r.life < 1000.0 ==> r.opacity == Some(r.life / 1000.0))
      && (r.life >= 1000.0 ==> r.opacity == b.opacity)
  {
  }

  /** What one pass of `updateFloatingEmojis` leaves in the list. */
  function Decay(bs: seq<Bubble>, dt: real, cat: Actor, human: Actor): (r: seq<Bubble>)
    ensures |r| <= |bs|
    decreases |bs|
  {
    if bs == [] then []
    else (if Survives(bs[0], dt) then [Advance(bs[0], dt, cat, human)] else []) + Decay(bs[1..], dt, cat, human)
  }

  /** Element identities strictly increase along the list. */
  predicate IdsIncreasing(bs: seq<Bubble>) {
    forall i, j :: 0 <= i < j < |bs| ==> bs[i].id < bs[j].id
  }

  /** Every bubble left is the update of a surviving original with the same identity. */
  lemma {:induction false} DecayFromSurvivors(bs: seq<Bubble>, dt: real, cat: Actor, human: Actor, k: nat)
    requires k < |Decay(bs, dt, cat, human)|
    ensures exists i :: (0 <= i < |bs| && Survives(bs[i], dt) &&
      Decay(bs, dt, cat, human)[k] == Advance(bs[i], dt, cat, human))
    decreases |bs|
  {
    var rest := Decay(bs[1..], dt, cat, human);
    if Survives(bs[0], dt) {
      if k == 0 {
        assert Decay(bs, dt, cat, human)[0] == Advance(bs[0], dt, cat, human);
      } else {
        DecayFromSurvivors(bs[1..], dt, cat, human, k - 1);
        var i :| 0 <= i < |bs[1..]| && Survives(bs[1..][i], dt) && rest[k - 1] == Advance(bs[1..][i], dt, cat, human);
        assert bs[i + 1] == bs[1..][i];
      }
    } else {
      DecayFromSurvivors(bs[1..], dt, cat, human, k);
      var i :| 0 <= i < |bs[1..]| && Survives(bs[1..][i], dt) && rest[k] == Advance(bs[1..][i], dt, cat, human);
      assert bs[i + 1] == bs[1..][i];
    }
  }

  /** Every surviving original is in the list, updated. */
  lemma {:induction false} SurvivorKept(bs: seq<Bubble>, dt: real, cat: Actor, human: Actor, i: nat)
    requires i < |bs| && Survives(bs[i], dt)
    ensures Advance(bs[i], dt, cat, human) in Decay(bs, dt, cat, human)
    decreases |bs|
  {
    if i > 0 {
      assert bs[1..][i - 1] == bs[i];
      SurvivorKept(bs[1..], dt, cat, human, i - 1);
    }
  }

  lemma IdsTail(bs: seq<Bubble>)
    requires IdsIncreasing(bs) && bs != []
    ensures IdsIncreasing(bs[1..])
    ensures forall b :: b in bs[1..] ==> bs[0].id < b.id
  {
  }

  /** A pass keeps only identities it was given: a bound on them all still holds. */
  lemma {:induction false} DecayIdsAbove(bs: seq<Bubble>, dt: real, cat: Actor, human: Actor, lo: int)
    requires forall b :: b in bs ==> lo < b.id
    ensures forall b :: b in Decay(bs, dt, cat, human) ==> lo < b.id
    decreases |bs|
  {
    if bs != [] {
      assert forall b :: b in bs[1..] ==> b in bs;
      DecayIdsAbove(bs[1..], dt, cat, human, lo);
    }
  }

  /** An original whose life ran out is gone: no bubble with its identity is left. */
  lemma {:induction false} ExpiredRemoved(bs: seq<Bubble>, dt: real, cat: Actor, human: Actor, i: nat)
    requires IdsIncreasing(bs) && i < |bs| && !Survives(bs[i], dt)
    ensures forall b :: b in Decay(bs, dt, cat, human) ==> b.id != bs[i].id
    decreases |bs|
  {
    IdsTail(bs);
    if i > 0 {
      assert bs[1..][i - 1] == bs[i];
      ExpiredRemoved(bs[1..], dt, cat, human, i - 1);
      if Survives(bs[0], dt) {
        assert Advance(bs[0], dt, cat, human).id == bs[0].id < bs[i].id;
      }
    } else {
      DecayIdsAbove(bs[1..], dt, cat, human, bs[0].id);
    }
  }

  /** Survivors keep their relative order. */
  lemma {:induction false} DecayKeepsOrder(bs: seq<Bubble>, dt: real, cat: Actor, human: Actor)
    requires IdsIncreasing(bs)
    ensures IdsIncreasing(Decay(bs, dt, cat, human))
    decreases |bs|
  {
    if bs != [] {
      var rest := Decay(bs[1..], dt, cat, human);
      IdsTail(bs);
      DecayKeepsOrder(bs[1..], dt, cat, human);
      if Survives(bs[0], dt) {
        var head := Advance(bs[0], dt, cat, human);
        DecayIdsAbove(bs[1..], dt, cat, human, bs[0].id);
        assert forall k :: 0 <= k < |rest| ==> head.id < rest[k].id;
        assert Decay(bs, dt, cat, human) == [head] + rest;
      }
    }
  }

  /** An update never revives an element or changes what a bubble follows. */
  lemma {:induction false} DecayKeepsFlags(bs: seq<Bubble>, dt: real, cat: Actor, human: Actor, k: nat)
    requires k < |Decay(bs, dt, cat, human)|
    ensures exists i :: (0 <= i < |bs| &&
      var d := Decay(bs, dt, cat, human)[k];
      d.id == bs[i].id && d.attach == bs[i].attach && d.inDom == bs[i].inDom && d.life == bs[i].life - dt && d.life > 0.0)
  {
    DecayFromSurvivors(bs, dt, cat, human, k);
  }
}
