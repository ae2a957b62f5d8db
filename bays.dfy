/** Carried-craft bays. A carrier has two ordered lists of bays, one for
    fighters and one for drones; each bay is empty or holds one docked craft.
    This module states, on the lists themselves, what docking, counting,
    listing, unloading and the shield top-up of docked craft do. */
module Bays {
  import opened Basics
  import opened Resources

  /** A docked craft, reduced to what the carrier reads or writes: its
      identity and category, where it is (system, landing planet, travel
      destination, zoom), its shields and their capacity and generation, and
      its mass. */
  datatype Craft = Craft(id: ShipId, category: string,
                         system: Option<SystemId>, planet: Option<Planet>,
                         destination: Option<Planet>, zoom: nat,
                         shields: real, maxShields: real, shieldGeneration: real,
                         mass: real)

  /** A bay slot: empty, or holding one craft. */
  type Bay = Option<Craft>

  /** A list of `n` empty bays. */
  function Empty(n: nat): (r: seq<Bay>)
    ensures |r| == n && forall i :: 0 <= i < n ==> r[i].None?
  {
    seq(n, _ => None)
  }

  // ---------------------------------------------------------------------
  // Counting and listing

  /** The number of empty bays in a list. */
  function FreeCount(bays: seq<Bay>): (r: nat)
    ensures r <= |bays|
    ensures r == 0 <==> forall i :: 0 <= i < |bays| ==> bays[i].Some?
    ensures r == |bays| <==> forall i :: 0 <= i < |bays| ==> bays[i].None?
    decreases |bays|
  {
    if bays == [] then 0
    else
      var front := bays[..|bays| - 1];
      assert forall i :: 0 <= i < |front| ==> front[i] == bays[i];
      FreeCount(front) + (if bays[|bays| - 1].None? then 1 else 0)
  }

  /** The docked craft of a list, in bay order. */
  function Carried(bays: seq<Bay>): (r: seq<Craft>)
    ensures |r| + FreeCount(bays) == |bays|
    decreases |bays|
  {
    if bays == [] then []
    else
      var front := bays[..|bays| - 1];
      assert bays == front + [bays[|bays| - 1]];
      Carried(front) + (if bays[|bays| - 1].Some? then [bays[|bays| - 1].value] else [])
  }

  /** A craft is in the docked list exactly when some bay holds it. */
  lemma {:induction false} CarriedMembers(bays: seq<Bay>, c: Craft)
    ensures c in Carried(bays) <==> Some(c) in bays
    decreases |bays|
  {
    if bays != [] {
      var front := bays[..|bays| - 1];
      assert bays == front + [bays[|bays| - 1]];
      CarriedMembers(front, c);
    }
  }

  /** The index of the first empty bay, if any. */
  function FirstFree(bays: seq<Bay>): (r: Option<nat>)
    ensures r.Some? ==> r.value < |bays| && bays[r.value].None?
    ensures r.Some? ==> forall j :: 0 <= j < r.value ==> bays[j].Some?
    ensures r.None? <==> FreeCount(bays) == 0
    decreases |bays|
  {
    if bays == [] then None
    else if bays[0].None? then Some(0)
    else
      match FirstFree(bays[1..])
      case None =>
        assert forall j :: 0 <= j < |bays| ==> bays[j].Some? by {
          forall j | 0 <= j < |bays| ensures bays[j].Some? {
            if j > 0 { assert bays[j] == bays[1..][j - 1]; }
          }
        }
        None
      case Some(i) =>
        assert bays[i + 1] == bays[1..][i];
        assert forall j :: 1 <= j < i + 1 ==> bays[j] == bays[1..][j - 1];
        Some(i + 1)
  }

  lemma {:induction false} FreeCountAppend(a: seq<Bay>, b: seq<Bay>)
    ensures FreeCount(a + b) == FreeCount(a) + FreeCount(b)
    decreases |b|
  {
    if b == [] {
      assert a + b == a;
    } else {
      var b' := b[..|b| - 1];
      assert (a + b)[..|a + b| - 1] == a + b';
      FreeCountAppend(a, b');
    }
  }

  lemma {:induction false} CarriedAppend(a: seq<Bay>, b: seq<Bay>)
    ensures Carried(a + b) == Carried(a) + Carried(b)
    decreases |b|
  {
    if b == [] {
      assert a + b == a;
    } else {
      var b' := b[..|b| - 1];
      assert (a + b)[..|a + b| - 1] == a + b';
      CarriedAppend(a, b');
    }
  }

  lemma OneBay(b: Bay)
    ensures FreeCount([b]) == (if b.None? then 1 else 0)
    ensures Carried([b]) == (if b.Some? then [b.value] else [])
  {
    var none: seq<Bay> := [];
    assert [b][..0] == none;
  }

  /** Putting a craft into an empty bay uses up exactly one free bay. */
  lemma FillBayCount(bays: seq<Bay>, i: nat, craft: Craft)
    requires i < |bays| && bays[i].None?
    ensures FreeCount(bays[i := Some(craft)]) == FreeCount(bays) - 1
  {
    assert bays == bays[..i] + [None] + bays[i + 1..];
    assert bays[i := Some(craft)] == bays[..i] + [Some(craft)] + bays[i + 1..];
    FreeCountAppend(bays[..i] + [None], bays[i + 1..]);
    FreeCountAppend(bays[..i], [None]);
    FreeCountAppend(bays[..i] + [Some(craft)], bays[i + 1..]);
    FreeCountAppend(bays[..i], [Some(craft)]);
    OneBay(None);
    OneBay(Some(craft));
  }

  /** Emptying or filling one bay removes or inserts only that craft, at
      its bay's place in the docked list. */
  lemma CarriedAround(before: seq<Bay>, b: Bay, after: seq<Bay>)
    ensures Carried(before + [b] + after)
         == Carried(before) + (if b.Some? then [b.value] else []) + Carried(after)
  {
    CarriedAppend(before + [b], after);
    CarriedAppend(before, [b]);
    OneBay(b);
  }

  lemma EmptyBayCarried(bays: seq<Bay>, i: nat)
    requires i < |bays| && bays[i].None?
    ensures Carried(bays) == Carried(bays[..i]) + Carried(bays[i + 1..])
  {
    var before, after := bays[..i], bays[i + 1..];
    calc {
      Carried(bays);
      { assert bays == before + [None] + after; }
      Carried(before + [None] + after);
      { CarriedAround(before, None, after); }
      Carried(before) + [] + Carried(after);
      { assert Carried(before) + [] == Carried(before); }
      Carried(before) + Carried(after);
    }
  }

  lemma FilledBayCarried(bays: seq<Bay>, i: nat, craft: Craft)
    requires i < |bays| && bays[i].None?
    ensures Carried(bays[i := Some(craft)]) == Carried(bays[..i]) + [craft] + Carried(bays[i + 1..])
  {
    var before, after := bays[..i], bays[i + 1..];
    var filled := bays[i := Some(craft)];
    assert filled == before + [Some(craft)] + after;
    CarriedAround(before, Some(craft), after);
    assert Carried(filled) == Carried(before) + [craft] + Carried(after);
  }

  /** Docking a craft in an empty bay inserts it into the docked list at
      the place of its bay and changes nothing else in the list. */
  lemma FillBayCarried(bays: seq<Bay>, i: nat, craft: Craft)
    requires i < |bays| && bays[i].None?
    ensures Carried(bays) == Carried(bays[..i]) + Carried(bays[i + 1..])
    ensures Carried(bays[i := Some(craft)]) == Carried(bays[..i]) + [craft] + Carried(bays[i + 1..])
    ensures multiset(Carried(bays[i := Some(craft)])) == multiset(Carried(bays)) + multiset{craft}
  {
    EmptyBayCarried(bays, i);
    FilledBayCarried(bays, i, craft);
  }

  /** The mass of the docked craft. */
  function CarriedMass(bays: seq<Bay>): (r: real)
    ensures (forall i :: 0 <= i < |bays| && bays[i].Some? ==> 0.0 <= bays[i].value.mass) ==> 0.0 <= r
    ensures FreeCount(bays) == |bays| ==> r == 0.0
    decreases |bays|
  {
    if bays == [] then 0.0
    else
      var front := bays[..|bays| - 1];
      assert forall i :: 0 <= i < |front| ==> front[i] == bays[i];
      CarriedMass(front) + (if bays[|bays| - 1].Some? then bays[|bays| - 1].value.mass else 0.0)
  }

  // ---------------------------------------------------------------------
  // Docking and unloading

  /** A craft taken into a bay stops being anywhere of its own: no system,
      no landing planet, no destination, zoom 0. */
  function Stowed(c: Craft): (r: Craft)
    ensures r.system.None? && r.planet.None? && r.destination.None? && r.zoom == 0
    ensures r.(system := c.system, planet := c.planet, destination := c.destination, zoom := c.zoom) == c
  {
    c.(system := None, planet := None, destination := None, zoom := 0)
  }

  /** A craft put back into the world is placed in the carrier's system and
      on its landing planet (which also clears its destination and zoom). */
  function Released(c: Craft, system: Option<SystemId>, planet: Option<Planet>): (r: Craft)
    ensures r.system == system && r.planet == planet && r.destination.None? && r.zoom == 0
    ensures r.(system := c.system, planet := c.planet, destination := c.destination, zoom := c.zoom) == c
  {
    c.(system := system, planet := planet, destination := None, zoom := 0)
  }

  /** Every craft in a list released into the given place. */
  function ReleaseAll(crafts: seq<Craft>, system: Option<SystemId>, planet: Option<Planet>): (r: seq<Craft>)
    ensures |r| == |crafts|
    ensures forall i :: 0 <= i < |crafts| ==> r[i] == Released(crafts[i], system, planet)
  {
    seq(|crafts|, i requires 0 <= i < |crafts| => Released(crafts[i], system, planet))
  }

  // ---------------------------------------------------------------------
  // Shield top-up of docked craft

  /** A docked craft's own shield regeneration, capped at its capacity. */
  function Regenerated(c: Craft): real
  {
    Min(c.maxShields, c.shields + c.shieldGeneration)
  }

  predicate Full(c: Craft)
  {
    c.shields >= c.maxShields
  }

  /** Regenerate one docked craft, then top it up from the carrier's excess
      shield generation as far as its capacity allows. Returns the craft and
      the excess that is left. */
  function TopUp(c: Craft, excess: real): (r: (Craft, real))
    ensures r.0 == c.(shields := r.0.shields)
    ensures Regenerated(c) <= r.0.shields <= c.maxShields
    ensures r.1 <= excess && (0.0 <= excess ==> 0.0 <= r.1)
    ensures r.0.shields - Regenerated(c) == excess - r.1
    ensures excess <= 0.0 ==> r == (c.(shields := Regenerated(c)), excess)
    ensures 0.0 < r.1 ==> Full(r.0)
  {
    var s := Regenerated(c);
    if excess > 0.0 && s < c.maxShields then
      var extra := Min(c.maxShields - s, excess);
      (c.(shields := s + extra), excess - extra)
    else
      (c.(shields := s), excess)
  }

  /** The top-up of one bay: an empty bay passes the excess on untouched. */
  function ChargeBay(b: Bay, excess: real): (r: (Bay, real))
  {
    match b
    case None => (None, excess)
    case Some(c) => var t := TopUp(c, excess); (Some(t.0), t.1)
  }

  /** A bay before and after the top-up: the same occupancy and the same
      craft, whose shields are at least its own regeneration and at most its
      capacity. */
  predicate Charged(before: Bay, after: Bay)
  {
    match before
    case None => after.None?
    case Some(c) =>
      after.Some? && after.value == c.(shields := after.value.shields)
      && Regenerated(c) <= after.value.shields <= c.maxShields
  }

  /** Whether a bay's craft received some of the carrier's excess. */
  predicate GotExtra(before: Bay, after: Bay)
  {
    before.Some? && after.Some? && after.value.shields > Regenerated(before.value)
  }

  function ShieldTotal(bays: seq<Bay>): real
    decreases |bays|
  {
    if bays == [] then 0.0
    else ShieldTotal(bays[..|bays| - 1]) + (if bays[|bays| - 1].Some? then bays[|bays| - 1].value.shields else 0.0)
  }

  function RegeneratedTotal(bays: seq<Bay>): real
    decreases |bays|
  {
    if bays == [] then 0.0
    else RegeneratedTotal(bays[..|bays| - 1]) + (if bays[|bays| - 1].Some? then Regenerated(bays[|bays| - 1].value) else 0.0)
  }

  /** The top-up of a whole list of bays, in bay order. Each craft
      regenerates and none ends over its capacity, and the excess only
      shrinks (it is never pushed below zero). */
  function ChargeBays(bays: seq<Bay>, excess: real): (r: (seq<Bay>, real))
    ensures |r.0| == |bays|
    ensures forall i :: 0 <= i < |bays| ==> Charged(bays[i], r.0[i])
    ensures r.1 <= excess && (0.0 <= excess ==> 0.0 <= r.1)
    ensures excess <= 0.0 ==> r.1 == excess
    decreases |bays|
  {
    if bays == [] then ([], excess)
    else
      var n := |bays| - 1;
      var front := ChargeBays(bays[..n], excess);
      var last := ChargeBay(bays[n], front.1);
      assert forall i :: 0 <= i < n ==> bays[i] == bays[..n][i];
      (front.0 + [last.0], last.1)
  }

  /** Without excess no craft gets more than its own regeneration. */
  lemma {:induction false} NoExcessNoExtra(bays: seq<Bay>, excess: real)
    requires excess <= 0.0
    ensures forall i :: 0 <= i < |bays| ==> !GotExtra(bays[i], ChargeBays(bays, excess).0[i])
    decreases |bays|
  {
    if bays != [] {
      var n := |bays| - 1;
      NoExcessNoExtra(bays[..n], excess);
      var r := ChargeBays(bays, excess).0;
      assert forall i :: 0 <= i < n ==> bays[i] == bays[..n][i] && r[i] == ChargeBays(bays[..n], excess).0[i];
    }
  }

  /** Whatever is handed out leaves the excess: nothing is created or lost. */
  lemma {:induction false} ChargeConserves(bays: seq<Bay>, excess: real)
    ensures ShieldTotal(ChargeBays(bays, excess).0) + ChargeBays(bays, excess).1
         == RegeneratedTotal(bays) + excess
    decreases |bays|
  {
    if bays != [] {
      var n := |bays| - 1;
      ChargeConserves(bays[..n], excess);
      var r := ChargeBays(bays, excess).0;
      assert r[..n] == ChargeBays(bays[..n], excess).0;
    }
  }

  /** Excess is left over only when every craft is full. */
  lemma {:induction false} LeftoverMeansFull(bays: seq<Bay>, excess: real)
    requires 0.0 < ChargeBays(bays, excess).1
    ensures forall i :: 0 <= i < |bays| && ChargeBays(bays, excess).0[i].Some? ==>
      Full(ChargeBays(bays, excess).0[i].value)
    decreases |bays|
  {
    if bays != [] {
      var n := |bays| - 1;
      var front := ChargeBays(bays[..n], excess);
      var r := ChargeBays(bays, excess).0;
      assert 0.0 < front.1;
      LeftoverMeansFull(bays[..n], excess);
      assert forall i :: 0 <= i < n ==> r[i] == front.0[i];
    }
  }

  /** The excess is handed out in bay order: a craft gets some of it only
      when every craft in an earlier bay is already full. */
  lemma {:induction false} ChargeInOrder(bays: seq<Bay>, excess: real, i: nat, j: nat)
    requires j < i < |bays|
    requires GotExtra(bays[i], ChargeBays(bays, excess).0[i])
    requires ChargeBays(bays, excess).0[j].Some?
    ensures Full(ChargeBays(bays, excess).0[j].value)
    decreases |bays|
  {
    var n := |bays| - 1;
    var front := ChargeBays(bays[..n], excess);
    var r := ChargeBays(bays, excess).0;
    assert forall k :: 0 <= k < n ==> bays[k] == bays[..n][k] && r[k] == front.0[k];
    if i == n {
      assert 0.0 < front.1;
      LeftoverMeansFull(bays[..n], excess);
    } else {
      ChargeInOrder(bays[..n], excess, i, j);
    }
  }

  /** Charging the fighter bays and then the drone bays with what is left is
      the same as charging the two lists as one, fighters first. */
  lemma {:induction false} ChargeInSequence(first: seq<Bay>, second: seq<Bay>, excess: real)
    ensures ChargeBays(first + second, excess)
         == (ChargeBays(first, excess).0 + ChargeBays(second, ChargeBays(first, excess).1).0,
             ChargeBays(second, ChargeBays(first, excess).1).1)
    decreases |second|
  {
    if second == [] {
      assert first + second == first;
      assert ChargeBays(first, excess).0 + [] == ChargeBays(first, excess).0;
    } else {
      var n := |second| - 1;
      assert (first + second)[..|first + second| - 1] == first + second[..n];
      assert (first + second)[|first + second| - 1] == second[n];
      ChargeInSequence(first, second[..n], excess);
      var mid := ChargeBays(first, excess);
      var inner := ChargeBays(second[..n], mid.1);
      var last := ChargeBay(second[n], inner.1);
      assert ChargeBays(second, mid.1) == (inner.0 + [last.0], last.1);
      assert ChargeBays(first + second, excess) == (mid.0 + inner.0 + [last.0], last.1);
      assert mid.0 + inner.0 + [last.0] == mid.0 + (inner.0 + [last.0]);
    }
  }

  /** The consequence for a carrier: no drone receives the excess before
      every docked fighter is full. */
  lemma DronesAfterFighters(fighters: seq<Bay>, drones: seq<Bay>, excess: real, k: nat, j: nat)
    requires k < |drones| && j < |fighters|
    requires GotExtra(drones[k], ChargeBays(drones, ChargeBays(fighters, excess).1).0[k])
    requires ChargeBays(fighters, excess).0[j].Some?
    ensures Full(ChargeBays(fighters, excess).0[j].value)
  {
    var f := ChargeBays(fighters, excess);
    if f.1 <= 0.0 {
      NoExcessNoExtra(drones, f.1);
    }
    LeftoverMeansFull(fighters, excess);
  }
}

/** The loops a carrier runs over one of its bay lists, each proved against
    the functions above. */
module BayLoops {
  import opened Basics
  import opened Resources
  import opened Bays

  /** Count the empty bays, one bay at a time. */
  method CountFree(bays: seq<Bay>) returns (count: int)
    ensures count == FreeCount(bays)
  {
    count := 0;
    var i := 0;
    while i < |bays|
      invariant 0 <= i <= |bays|
      invariant count == FreeCount(bays[..i])
    {
      assert bays[..i + 1][..i] == bays[..i];
      count := count + (if bays[i].None? then 1 else 0);
      i := i + 1;
    }
    assert bays[..i] == bays;
  }

  /** Collect the docked craft in bay order. */
  method ListCarried(bays: seq<Bay>) returns (crafts: seq<Craft>)
    ensures crafts == Carried(bays)
  {
    crafts := [];
    var i := 0;
    while i < |bays|
      invariant 0 <= i <= |bays|
      invariant crafts == Carried(bays[..i])
    {
      assert bays[..i + 1][..i] == bays[..i];
      if bays[i].Some? {
        crafts := crafts + [bays[i].value];
      }
      i := i + 1;
    }
    assert bays[..i] == bays;
  }

  /** Add up the mass of the docked craft. */
  method SumMass(bays: seq<Bay>) returns (mass: real)
    ensures mass == CarriedMass(bays)
  {
    mass := 0.0;
    var i := 0;
    while i < |bays|
      invariant 0 <= i <= |bays|
      invariant mass == CarriedMass(bays[..i])
    {
      assert bays[..i + 1][..i] == bays[..i];
      if bays[i].Some? {
        mass := mass + bays[i].value.mass;
      }
      i := i + 1;
    }
    assert bays[..i] == bays;
  }

  /** `after` is `before` with `craft` stowed in its first empty bay, when
      there is one (`docked`), and `before` itself otherwise. */
  predicate DockedInto(before: seq<Bay>, after: seq<Bay>, craft: Craft, docked: bool)
  {
    (docked <==> FreeCount(before) > 0)
    && (docked ==> after == before[FirstFree(before).value := Some(Stowed(craft))])
    && (!docked ==> after == before)
  }

  /** Put a craft into the first empty bay, if there is one. */
  method Dock(bays: seq<Bay>, craft: Craft) returns (after: seq<Bay>, docked: bool)
    ensures DockedInto(bays, after, craft, docked)
    ensures docked ==> FreeCount(after) == FreeCount(bays) - 1
    ensures docked ==> multiset(Carried(after)) == multiset(Carried(bays)) + multiset{Stowed(craft)}
  {
    var i := 0;
    while i < |bays|
      invariant 0 <= i <= |bays|
      invariant forall j :: 0 <= j < i ==> bays[j].Some?
    {
      if bays[i].None? {
        var first := FirstFree(bays);
        assert FreeCount(bays) != 0;
        assert first.Some? && first.value == i;
        after := bays[i := Some(Stowed(craft))];
        FillBayCount(bays, i, Stowed(craft));
        FillBayCarried(bays, i, Stowed(craft));
        return after, true;
      }
      i := i + 1;
    }
    return bays, false;
  }

  /** Release every docked craft into the given place, emptying each bay. */
  method Unload(bays: seq<Bay>, system: Option<SystemId>, planet: Option<Planet>)
      returns (after: seq<Bay>, released: seq<Craft>)
    ensures after == Empty(|bays|)
    ensures released == ReleaseAll(Carried(bays), system, planet)
  {
    after := bays;
    released := [];
    var i := 0;
    while i < |bays|
      invariant 0 <= i <= |bays|
      invariant after == Empty(i) + bays[i..]
      invariant released == ReleaseAll(Carried(bays[..i]), system, planet)
    {
      ReleaseStep(bays, i, system, planet);
      ClearStep(bays, i);
      if bays[i].Some? {
        released := released + [Released(bays[i].value, system, planet)];
        after := after[i := None];
      }
      i := i + 1;
    }
    assert bays[..i] == bays;
    assert after == Empty(|bays|) + [];
  }

  lemma ClearStep(bays: seq<Bay>, i: nat)
    requires i < |bays|
    ensures (Empty(i) + bays[i..])[i] == bays[i]
    ensures (Empty(i) + bays[i..])[i := None] == Empty(i + 1) + bays[i + 1..]
  {
  }

  lemma CarriedStep(bays: seq<Bay>, i: nat)
    requires i < |bays|
    ensures Carried(bays[..i + 1]) == Carried(bays[..i]) + (if bays[i].Some? then [bays[i].value] else [])
  {
    assert bays[..i + 1][..i] == bays[..i];
  }

  lemma ReleaseStep(bays: seq<Bay>, i: nat, system: Option<SystemId>, planet: Option<Planet>)
    requires i < |bays|
    ensures ReleaseAll(Carried(bays[..i + 1]), system, planet)
         == ReleaseAll(Carried(bays[..i]), system, planet)
            + (if bays[i].Some? then [Released(bays[i].value, system, planet)] else [])
  {
    CarriedStep(bays, i);
    if bays[i].Some? {
      ReleaseOneMore(Carried(bays[..i]), bays[i].value, system, planet);
    } else {
      assert Carried(bays[..i]) + [] == Carried(bays[..i]);
    }
  }

  lemma ReleaseAllAppend(a: seq<Craft>, b: seq<Craft>, system: Option<SystemId>, planet: Option<Planet>)
    ensures ReleaseAll(a + b, system, planet) == ReleaseAll(a, system, planet) + ReleaseAll(b, system, planet)
  {
  }

  lemma ReleaseOneMore(crafts: seq<Craft>, c: Craft, system: Option<SystemId>, planet: Option<Planet>)
    ensures ReleaseAll(crafts + [c], system, planet) == ReleaseAll(crafts, system, planet) + [Released(c, system, planet)]
  {
  }

  lemma ChargeStep(bays: seq<Bay>, excess: real, i: nat)
    requires i < |bays|
    ensures ChargeBays(bays[..i + 1], excess)
         == (ChargeBays(bays[..i], excess).0 + [ChargeBay(bays[i], ChargeBays(bays[..i], excess).1).0],
             ChargeBay(bays[i], ChargeBays(bays[..i], excess).1).1)
  {
    assert bays[..i + 1][..i] == bays[..i];
  }

  /** Top up the docked craft of one list, in bay order, from the excess. */
  method ChargeList(bays: seq<Bay>, excess: real) returns (after: seq<Bay>, left: real)
    ensures (after, left) == ChargeBays(bays, excess)
  {
    after := bays;
    left := excess;
    var i := 0;
    while i < |bays|
      invariant 0 <= i <= |bays| && |after| == |bays|
      invariant forall j :: 0 <= j < i ==> after[j] == ChargeBays(bays[..i], excess).0[j]
      invariant forall j :: i <= j < |bays| ==> after[j] == bays[j]
      invariant left == ChargeBays(bays[..i], excess).1
    {
      ChargeStep(bays, excess, i);
      var bay := after[i];
      var next, rest := bay, left;
      if bay.Some? {
        var c := bay.value;
        var shields := Min(c.maxShields, c.shields + c.shieldGeneration);
        if rest > 0.0 && shields < c.maxShields {
          var extra := Min(c.maxShields - shields, rest);
          shields := shields + extra;
          rest := rest - extra;
        }
        next := Some(c.(shields := shields));
      }
      assert (next, rest) == ChargeBay(bays[i], left);
      after := after[i := next];
      left := rest;
      i := i + 1;
    }
    assert bays[..i] == bays;
    assert after == ChargeBays(bays, excess).0;
  }
}
