/** Installed equipment: the map from outfit to installed count, with
    zero entries erased, the attribute bag that sums the outfits' stats, and
    the resource gate a weapon must pass before it fires. */
module Outfits {
  import opened Basics

  /** Outfits are catalog entries, identified by name. */
  type OutfitId = string

  /** An outfit as the ship sees it: its stats, whether it is a weapon, the
      weapon's own stats (firing costs) and the ammunition it uses, if any. */
  datatype Outfit = Outfit(name: OutfitId, attributes: Attributes, isWeapon: bool,
                           weapon: Attributes, ammo: Option<Outfit>)

  /** Installed counts. */
  type Counts = map<OutfitId, int>

  /** The invariant the counts keep: an outfit with count zero has no entry. */
  ghost predicate NoZeroCounts(counts: Counts)
  {
    forall id :: id in counts ==> counts[id] != 0
  }

  /** The installed count of an outfit (zero when it has no entry). */
  function CountOf(counts: Counts, id: OutfitId): (r: int)
    ensures id !in counts ==> r == 0
    ensures NoZeroCounts(counts) ==> (r != 0 <==> id in counts)
  {
    if id in counts then counts[id] else 0
  }

  /** Install `count` more of an outfit (remove, if negative): a new entry is
      created, an existing one adjusted, and one that reaches zero erased. */
  function AddCount(counts: Counts, id: OutfitId, count: int): (r: Counts)
    ensures CountOf(r, id) == CountOf(counts, id) + count
    ensures forall other :: other != id ==> CountOf(r, other) == CountOf(counts, other)
    ensures NoZeroCounts(counts) ==> NoZeroCounts(r)
    ensures r.Keys <= counts.Keys + {id}
  {
    if count == 0 then counts
    else if id !in counts then counts[id := count]
    else if counts[id] + count == 0 then counts - {id}
    else counts[id := counts[id] + count]
  }

  /** Installing and then removing the same number of an outfit gives back
      exactly the counts there were, entries included. */
  lemma AddCountUndo(counts: Counts, id: OutfitId, count: int)
    requires NoZeroCounts(counts)
    ensures AddCount(AddCount(counts, id, count), id, -count) == counts
  {
    var r := AddCount(AddCount(counts, id, count), id, -count);
    forall other | other in counts
      ensures other in r && r[other] == counts[other]
    {
      assert CountOf(r, other) == CountOf(counts, other);
    }
    forall other | other in r
      ensures other in counts
    {
      assert CountOf(r, other) == CountOf(counts, other);
    }
    assert r.Keys == counts.Keys;
  }

  /** The ship's attributes after installing `count` of an outfit: each stat
      grows by `count` times the outfit's value for it (the aggregation
      itself, in the Outfit class, is not part of this model). */
  function AddScaled(attributes: Attributes, stats: Attributes, count: int): (r: Attributes)
    ensures forall key :: Get(r, key) == Get(attributes, key) + count as real * Get(stats, key)
  {
    map key | key in attributes.Keys + stats.Keys :: Get(attributes, key) + count as real * Get(stats, key)
  }

  /** Removing what was installed restores every stat. */
  lemma AddScaledUndo(attributes: Attributes, stats: Attributes, count: int, key: string)
    ensures Get(AddScaled(AddScaled(attributes, stats, count), stats, -count), key) == Get(attributes, key)
  {
    NegateScale(count, Get(stats, key));
  }

  lemma NegateScale(count: int, g: real)
    ensures (-count) as real * g == -(count as real * g)
  {
  }

  /** A weapon can fire when it is a weapon, its ammunition (if it uses any)
      is in stock, and the ship has the energy and fuel it costs. Firing what
      this admits never overdraws energy, fuel or ammunition. */
  function CanFireWith(counts: Counts, energy: real, fuel: real, outfit: Option<Outfit>): (r: bool)
    ensures r ==> outfit.Some? && outfit.value.isWeapon
    ensures r ==> energy - Get(outfit.value.weapon, "firing energy") >= 0.0
                  && fuel - Get(outfit.value.weapon, "firing fuel") >= 0.0
    ensures r && outfit.value.ammo.Some? ==>
      var ammo := outfit.value.ammo.value.name;
      CountOf(AddCount(counts, ammo, -1), ammo) >= 0
    ensures r <==> outfit.Some? && outfit.value.isWeapon
                   && (outfit.value.ammo.None? || CountOf(counts, outfit.value.ammo.value.name) > 0)
                   && energy >= Get(outfit.value.weapon, "firing energy")
                   && fuel >= Get(outfit.value.weapon, "firing fuel")
  {
    match outfit
    case None => false
    case Some(o) =>
      o.isWeapon
      && (o.ammo.None? || CountOf(counts, o.ammo.value.name) > 0)
      && energy >= Get(o.weapon, "firing energy")
      && fuel >= Get(o.weapon, "firing fuel")
  }
}
