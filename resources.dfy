/** The arithmetic rules of a ship's resource economy, stated on plain values:
    the disabled threshold, crew requirements, the normalised gauges, heat
    dissipation and overheating, how a hit is split between shields and hull,
    fuel transfers, crew sharing on capture, and the hyperspace and landing
    counters that Move advances once per tick. The class in module Ships is
    specified by these functions. */
module Resources {
  import opened Basics

  // ---------------------------------------------------------------------
  // Disabled and destroyed

  /** The hull level below which a ship counts as disabled: a fifth of the
      maximum hull, or half of it capped at 400, whichever is larger. */
  function MinimumHull(maxHull: real): (r: real)
    ensures r >= 0.2 * maxHull && r >= Min(0.5 * maxHull, 400.0)
    ensures 0.0 <= maxHull ==> 0.0 <= r <= 0.5 * maxHull
    ensures 0.0 <= maxHull <= 800.0 ==> r == 0.5 * maxHull
    ensures 800.0 <= maxHull <= 2000.0 ==> r == 400.0
    ensures 2000.0 <= maxHull ==> r == 0.2 * maxHull
  {
    Max(0.2 * maxHull, Min(0.5 * maxHull, 400.0))
  }

  /** Crew needed to fly a ship: drones need none, every other category at
      least one, and the "required crew" stat (cast to int) can ask for more. */
  function RequiredCrew(category: string, requiredCrewStat: real): (r: int)
    ensures r >= 0
    ensures category != "Drone" ==> r >= 1
    ensures r >= Trunc(requiredCrewStat)
    ensures r == Trunc(requiredCrewStat) || r == (if category == "Drone" then 0 else 1)
  {
    MaxInt(if category == "Drone" then 0 else 1, Trunc(requiredCrewStat))
  }

  /** A ship is disabled when its hull is under the minimum, or when it has no
      crew although it needs some. */
  predicate Disabled(hull: real, maxHull: real, crew: int, requiredCrew: int)
  {
    hull < MinimumHull(maxHull) || (crew == 0 && requiredCrew != 0)
  }

  /** A destroyed ship (negative hull) is always disabled as well. */
  lemma DestroyedIsDisabled(hull: real, maxHull: real, crew: int, requiredCrew: int)
    requires hull < 0.0 && 0.0 <= maxHull
    ensures Disabled(hull, maxHull, crew, requiredCrew)
  {
  }

  /** Both ways out of being disabled are needed: a ship with crew is enabled
      exactly when its hull is at the minimum, and a crewless ship that needs
      crew stays disabled whatever its hull. */
  lemma DisabledCases(hull: real, maxHull: real, crew: int, requiredCrew: int)
    ensures crew != 0 ==> (Disabled(hull, maxHull, crew, requiredCrew) <==> hull < MinimumHull(maxHull))
    ensures crew == 0 && requiredCrew != 0 ==> Disabled(hull, maxHull, crew, requiredCrew)
    ensures 0.0 <= maxHull <= 800.0 && crew != 0 ==>
      (Disabled(hull, maxHull, crew, requiredCrew) <==> hull < 0.5 * maxHull)
  {
  }

  // ---------------------------------------------------------------------
  // Normalised gauges

  /** A pool as a fraction of its maximum, capped at one; `fallback` is what
      the getter reports when the maximum is zero. */
  function Fraction(value: real, maximum: real, fallback: real): (r: real)
    ensures maximum == 0.0 ==> r == fallback
    ensures maximum != 0.0 ==> r <= 1.0
    ensures 0.0 < maximum ==> (r == 1.0 <==> value >= maximum)
    ensures 0.0 < maximum && 0.0 <= value ==> 0.0 <= r
    ensures 0.0 < maximum && value <= maximum ==> r * maximum == value
  {
    if maximum != 0.0 then Min(1.0, value / maximum) else fallback
  }

  // ---------------------------------------------------------------------
  // Heat

  /** The fraction of heat a ship keeps each tick, from its "heat dissipation"
      stat. A zero stat means the default retention 0.999, not total
      retention, so the retention is never exactly one. */
  function HeatDissipation(stat: real): (r: real)
    ensures r != 1.0
    ensures stat == 0.0 ==> r == 0.999
    ensures 0.0 < stat <= 1000.0 ==> 0.0 <= r < 1.0
  {
    if stat == 0.0 then 0.999 else 1.0 - 0.001 * stat
  }

  /** Heat after one tick of decay. */
  function Decayed(heat: real, retention: real): real
  {
    heat * retention
  }

  /** One tick of heat while the ship is active: decay, then generation minus
      cooling, never below zero. */
  function HeatAfterTick(heat: real, retention: real, generation: real, cooling: real): real
  {
    Max(0.0, Decayed(heat, retention) + generation - cooling)
  }

  /** The heat a fully recharged ship starts with. */
  function EquilibriumHeat(generation: real, cooling: real, retention: real): (r: real)
    requires retention != 1.0
    ensures 0.0 <= retention < 1.0 ==> 0.0 <= r
  {
    var r := Max(0.0, generation - cooling) / (1.0 - retention);
    assert 0.0 <= retention < 1.0 ==> 0.0 <= r by {
      if 0.0 <= retention < 1.0 {
        QuotientNonnegative(Max(0.0, generation - cooling), 1.0 - retention);
      }
    }
    r
  }

  lemma QuotientNonnegative(a: real, b: real)
    requires 0.0 <= a && 0.0 < b
    ensures 0.0 <= a / b
  {
  }

  /** Recharging sets heat to the fixed point of the per-tick heat update:
      a recharged ship that keeps idling keeps the same heat. */
  lemma EquilibriumIsSteady(generation: real, cooling: real, retention: real)
    requires 0.0 <= retention < 1.0
    ensures HeatAfterTick(EquilibriumHeat(generation, cooling, retention), retention, generation, cooling)
         == EquilibriumHeat(generation, cooling, retention)
  {
    var h := EquilibriumHeat(generation, cooling, retention);
    var d := 1.0 - retention;
    if generation >= cooling {
      assert h * d == generation - cooling;
      assert h * retention + generation - cooling == h * retention + h * d;
    } else {
      assert h == 0.0;
    }
  }

  /** Overheating with hysteresis: set above 100 times the mass, cleared below
      90 times the mass, and kept as it was in between. */
  function NextOverheated(heat: real, mass: real, wasOverheated: bool): (r: bool)
    ensures heat > 100.0 * mass ==> r
    ensures heat <= 100.0 * mass && heat < 90.0 * mass ==> !r
    ensures 90.0 * mass <= heat <= 100.0 * mass ==> r == wasOverheated
  {
    if heat > mass * 100.0 then true
    else if heat < mass * 90.0 then false
    else wasOverheated
  }

  /** The band between the two thresholds does not flicker: once overheated,
      a ship stays so until its heat drops below 90 times its mass, and once
      cooled it stays so until its heat rises above 100 times its mass. */
  lemma {:induction false} OverheatLatches(heats: seq<real>, mass: real, wasOverheated: bool)
    requires 0.0 <= mass
    requires forall i :: 0 <= i < |heats| ==> 90.0 * mass <= heats[i] <= 100.0 * mass
    ensures LatchOverheat(heats, mass, wasOverheated) == wasOverheated
    decreases |heats|
  {
    if heats != [] {
      OverheatLatches(heats[..|heats| - 1], mass, wasOverheated);
    }
  }

  /** The overheated flag after a run of ticks with the given heats. */
  function LatchOverheat(heats: seq<real>, mass: real, wasOverheated: bool): bool
    decreases |heats|
  {
    if heats == [] then wasOverheated
    else NextOverheated(heats[|heats| - 1], mass, LatchOverheat(heats[..|heats| - 1], mass, wasOverheated))
  }

  // ---------------------------------------------------------------------
  // Regeneration

  /** The end of shield regeneration: an energy shortfall is paid back out of
      the shields, so energy is never left negative and the sum of the two
      pools is what it was. */
  function SettleShieldDebt(energy: real, shields: real): (r: (real, real))
    ensures 0.0 <= r.0
    ensures r.0 + r.1 == energy + shields
    ensures 0.0 <= energy ==> r == (energy, shields)
    ensures energy < 0.0 ==> r.1 < shields
  {
    if energy < 0.0 then (0.0, shields + energy) else (energy, shields)
  }

  // ---------------------------------------------------------------------
  // Damage

  /** The damage stats of the weapon behind a projectile. */
  datatype Weapon = Weapon(shieldDamage: real, hullDamage: real, hitForce: real, heatDamage: real)

  /** The pools a hit changes. */
  datatype Hit = Hit(shields: real, hull: real, heat: real)

  /** Shields take a hit first. If they hold, the hull is untouched and half
      the heat damage applies; if they fail, the hull takes the part of the
      hull damage the shields did not absorb, scaled by the fraction of the
      shield damage they could not cover. */
  function AbsorbHit(shields: real, hull: real, heat: real, weapon: Weapon): (r: Hit)
    ensures 0.0 <= shields && 0.0 <= weapon.shieldDamage ==> 0.0 <= r.shields <= shields
    ensures 0.0 <= shields <= weapon.shieldDamage && 0.0 <= weapon.hullDamage ==>
      hull - weapon.hullDamage <= r.hull <= hull
    ensures weapon.shieldDamage < shields ==> r.hull == hull
    ensures 0.0 <= shields && 0.0 <= weapon.heatDamage ==> heat <= r.heat <= heat + weapon.heatDamage
  {
    if shields > weapon.shieldDamage then
      Hit(shields - weapon.shieldDamage, hull, heat + 0.5 * weapon.heatDamage)
    else if shields == 0.0 || weapon.shieldDamage != 0.0 then
      var hullDamage := if weapon.shieldDamage != 0.0
        then weapon.hullDamage * (1.0 - shields / weapon.shieldDamage)
        else weapon.hullDamage;
      Hit(if weapon.shieldDamage != 0.0 then 0.0 else shields, hull - hullDamage, heat + weapon.heatDamage)
    else
      Hit(shields, hull, heat)
  }

  /** Shields that outlast the hit lose exactly the shield damage; the hull is
      unchanged and heat rises by half the heat damage. */
  lemma ShieldsHold(shields: real, hull: real, heat: real, weapon: Weapon)
    requires shields > weapon.shieldDamage
    ensures AbsorbHit(shields, hull, heat, weapon)
         == Hit(shields - weapon.shieldDamage, hull, heat + 0.5 * weapon.heatDamage)
  {
  }

  /** Shields that give way are emptied, and the hull loses the unabsorbed
      fraction of the hull damage; heat rises by the full heat damage. */
  lemma ShieldsFail(shields: real, hull: real, heat: real, weapon: Weapon)
    requires shields <= weapon.shieldDamage && weapon.shieldDamage != 0.0
    ensures AbsorbHit(shields, hull, heat, weapon)
         == Hit(0.0, hull - weapon.hullDamage * (1.0 - shields / weapon.shieldDamage), heat + weapon.heatDamage)
  {
  }

  /** A weapon without shield damage hurts the hull only once the shields are
      exactly empty; against negative shields it does nothing at all. */
  lemma NoShieldDamage(shields: real, hull: real, heat: real, weapon: Weapon)
    requires weapon.shieldDamage == 0.0 && shields <= 0.0
    ensures shields == 0.0 ==>
      AbsorbHit(shields, hull, heat, weapon) == Hit(0.0, hull - weapon.hullDamage, heat + weapon.heatDamage)
    ensures shields < 0.0 ==> AbsorbHit(shields, hull, heat, weapon) == Hit(shields, hull, heat)
  {
  }

  /** The two worked cases: 50 shields against 80 shield damage and 40 hull
      damage cost 15 hull and empty the shields; 100 shields against 30 shield
      damage leave 70 shields and the hull as it was. */
  lemma DamageExamples(hull: real, heat: real, heatDamage: real)
    ensures AbsorbHit(50.0, hull, heat, Weapon(80.0, 40.0, 0.0, heatDamage))
         == Hit(0.0, hull - 15.0, heat + heatDamage)
    ensures AbsorbHit(100.0, hull, heat, Weapon(30.0, 40.0, 0.0, heatDamage))
         == Hit(70.0, hull, heat + 0.5 * heatDamage)
  {
  }

  /** The kinds of transition a hit reports (the bits of a ShipEvent mask). */
  datatype ShipEvent = Disable | Destroy | Provoke

  // ---------------------------------------------------------------------
  // Fuel

  /** A fuel tank: how much it holds and how much it can hold. */
  datatype Tank = Tank(fuel: real, capacity: real)

  /** The amount TransferFuel really moves when asked for `amount`: never so
      little that the sender is left over its capacity, and, with a recipient,
      never more than the recipient has room for. A negative amount moves fuel
      the other way (a ramscoop has no recipient). */
  function TransferAmount(amount: real, sender: Tank, recipient: Option<Tank>): (r: real)
    ensures recipient.None? ==> sender.fuel - r <= sender.capacity
    ensures recipient.Some? ==> recipient.value.fuel + r <= recipient.value.capacity
    ensures r <= Max(amount, sender.fuel - sender.capacity)
    ensures recipient.None? && sender.fuel - sender.capacity <= amount ==> r == amount
    ensures (sender.fuel <= sender.capacity && 0.0 <= amount
             && (recipient.Some? ==> amount <= recipient.value.capacity - recipient.value.fuel)) ==> r == amount
  {
    var floor := Max(sender.fuel - sender.capacity, amount);
    match recipient
    case None => floor
    case Some(to) => Min(to.capacity - to.fuel, floor)
  }

  /** The number of whole jumps the fuel allows (0 without a jump cost). */
  function JumpsRemaining(fuel: real, jumpFuel: real): (r: int)
    ensures jumpFuel == 0.0 ==> r == 0
    ensures 0.0 <= fuel && 0.0 < jumpFuel ==>
      0 <= r && r as real * jumpFuel <= fuel < (r + 1) as real * jumpFuel
  {
    if jumpFuel == 0.0 then 0
    else
      var q := Trunc(fuel / jumpFuel);
      assert 0.0 <= fuel && 0.0 < jumpFuel ==> q as real * jumpFuel <= fuel < (q + 1) as real * jumpFuel by {
        if 0.0 <= fuel && 0.0 < jumpFuel {
          QuotientBounds(q, fuel, jumpFuel);
        }
      }
      q
  }

  /** Multiplying `q <= x / k < q + 1` through by a positive `k`. */
  lemma QuotientBounds(q: int, x: real, k: real)
    requires 0.0 < k && q as real <= x / k < q as real + 1.0
    ensures q as real * k <= x < (q + 1) as real * k
  {
    var y := x / k;
    var lo := q as real;
    var hi := (q + 1) as real;
    assert hi == lo + 1.0;
    assert y * k == x;
    assert lo * k <= y * k;
    calc {
      x;
    ==
      y * k;
    <  { assert y < hi; }
      hi * k;
    }
  }

  /** A ship can refuel another if, after handing over one of the other's
      jumps, it keeps enough for one jump of its own. */
  predicate CanRefuel(fuel: real, jumpFuel: real, otherJumpFuel: real)
  {
    fuel - otherJumpFuel >= jumpFuel
  }

  /** Assisting a stranded ship: when the helper CanRefuel it and hands over
      one of the other's jumps, the helper still has a jump of its own, and a
      recipient with room for a jump ends with at least one. */
  lemma RefuelLeavesBothAJump(helper: Tank, helperJump: real, other: Tank, otherJump: real)
    requires CanRefuel(helper.fuel, helperJump, otherJump)
    requires helper.fuel <= helper.capacity && 0.0 <= otherJump
    requires 0.0 <= other.fuel && otherJump <= other.capacity
    ensures helper.fuel - TransferAmount(otherJump, helper, Some(other)) >= helperJump
    ensures 0.0 < helperJump ==>
      JumpsRemaining(helper.fuel - TransferAmount(otherJump, helper, Some(other)), helperJump) >= 1
    ensures 0.0 < otherJump ==>
      JumpsRemaining(other.fuel + TransferAmount(otherJump, helper, Some(other)), otherJump) >= 1
  {
    var moved := TransferAmount(otherJump, helper, Some(other));
    assert moved == Min(other.capacity - other.fuel, otherJump);
    if 0.0 < helperJump {
      AtLeastOneJump(helper.fuel - moved, helperJump);
    }
    if 0.0 < otherJump {
      AtLeastOneJump(other.fuel + moved, otherJump);
    }
  }

  /** Fuel for one jump means at least one jump remaining. */
  lemma AtLeastOneJump(fuel: real, jumpFuel: real)
    requires 0.0 < jumpFuel <= fuel
    ensures JumpsRemaining(fuel, jumpFuel) >= 1
  {
  }

  // ---------------------------------------------------------------------
  // Capture

  /** The crew a capturer moves into a captured ship: just the captured
      ship's requirement when the capturer can cover both ships, otherwise a
      share of its crew proportional to that requirement, but at least one. */
  function CaptureTransfer(capturerCrew: int, capturerRequired: int, required: int): (r: int)
    requires capturerCrew >= 0 || capturerRequired + required != 0
    ensures capturerRequired + required <= capturerCrew ==> r == required
    ensures capturerCrew < capturerRequired + required ==> 1 <= r
    ensures 1 <= capturerCrew && 0 <= capturerRequired && 0 <= required ==> r <= capturerCrew
    ensures 0 <= capturerCrew < capturerRequired + required && 0 <= required && 1 < r ==>
      r * (capturerRequired + required) <= capturerCrew * required
  {
    var totalRequired := capturerRequired + required;
    if totalRequired > capturerCrew then
      var share := Quot(capturerCrew * required, totalRequired);
      assert 1 <= capturerCrew && 0 <= capturerRequired && 0 <= required ==> share <= capturerCrew by {
        if 1 <= capturerCrew && 0 <= capturerRequired && 0 <= required {
          ShareAtMostWhole(capturerCrew, required, totalRequired);
        }
      }
      MaxInt(1, share)
    else
      required
  }

  /** A proportional share of a crew never exceeds the crew. */
  lemma ShareAtMostWhole(crew: int, part: int, whole: int)
    requires 0 <= crew && 0 <= part <= whole && 0 < whole
    ensures Quot(crew * part, whole) <= crew
  {
    var q := Quot(crew * part, whole);
    assert crew * part <= crew * whole by {
      MultiplyMonotone(crew, part, whole);
    }
    if q > crew {
      assert q * whole >= (crew + 1) * whole by {
        MultiplyMonotone(whole, crew + 1, q);
      }
      assert false;
    }
  }

  lemma MultiplyMonotone(k: int, a: int, b: int)
    requires 0 <= k && a <= b
    ensures k * a <= k * b && a * k <= b * k
  {
  }

  // ---------------------------------------------------------------------
  // Hyperspace

  /** The counters of a jump: progress toward the threshold 100, fuel, the
      system the ship is in and the system it is jumping to. */
  datatype JumpState = JumpState(count: int, fuel: real, system: Option<SystemId>, jumpTarget: Option<SystemId>)

  /** The threshold of the jump counter at which the ship changes system. */
  const HyperspaceThreshold: int := 100

  /** At the start of every tick a pending jump is dropped when the ship has
      no fuel or no drive. */
  function JumpGate(s: JumpState, hasDrive: bool): (r: JumpState)
    ensures r.count == s.count && r.fuel == s.fuel && r.system == s.system
    ensures r.jumpTarget.Some? <==> s.jumpTarget.Some? && s.fuel != 0.0 && hasDrive
  {
    if s.fuel == 0.0 || !hasDrive then s.(jumpTarget := None) else s
  }

  /** One tick of the hyperspace phase. While a target is set the counter
      rises by one and costs one unit of fuel; at the threshold the ship
      arrives, paying any jump fuel above 100. Without a target the counter
      falls back, and for a hyperdrive it drops to zero once the ship has
      slowed to cruising speed (`slowed`). */
  function HyperspaceTick(s: JumpState, jumpFuel: real, hasJumpDrive: bool, slowed: bool): (r: JumpState)
    ensures s.jumpTarget.Some? && s.count + 1 < HyperspaceThreshold ==>
      r == s.(count := s.count + 1, fuel := s.fuel - 1.0)
    ensures s.jumpTarget.Some? && s.count + 1 == HyperspaceThreshold ==>
      r.system == s.jumpTarget && r.jumpTarget.None? && r.fuel == s.fuel - 1.0 - (jumpFuel - 100.0)
      && (r.count == HyperspaceThreshold || r.count == 0)
    ensures s.jumpTarget.None? && s.count <= HyperspaceThreshold ==>
      r.fuel == s.fuel && r.system == s.system && r.jumpTarget.None?
      && (r.count == s.count - 1 || (r.count == 0 && !hasJumpDrive && slowed))
  {
    var fuel := if s.jumpTarget.Some? then s.fuel - 1.0 else s.fuel;
    var count := s.count + (if s.jumpTarget.Some? then 1 else -1);
    if count == HyperspaceThreshold then
      var arrived := JumpState(count, fuel - (jumpFuel - 100.0), s.jumpTarget, None);
      if !hasJumpDrive && slowed then arrived.(count := 0) else arrived
    else if !hasJumpDrive && slowed && s.jumpTarget.None? then
      JumpState(0, fuel, s.system, None)
    else
      JumpState(count, fuel, s.system, s.jumpTarget)
  }

  /** The jump-related part of one whole tick of a ship in the hyperspace
      phase: the gate at the start of Move, then the phase itself. */
  function JumpTick(s: JumpState, hasDrive: bool, jumpFuel: real, hasJumpDrive: bool, slowed: bool): JumpState
  {
    var g := JumpGate(s, hasDrive);
    if g.jumpTarget.Some? || g.count != 0 then HyperspaceTick(g, jumpFuel, hasJumpDrive, slowed) else g
  }

  /** `n` successive ticks. */
  function JumpTicks(s: JumpState, n: nat, hasDrive: bool, jumpFuel: real, hasJumpDrive: bool, slowed: bool): JumpState
    decreases n
  {
    if n == 0 then s
    else JumpTick(JumpTicks(s, n - 1, hasDrive, jumpFuel, hasJumpDrive, slowed), hasDrive, jumpFuel, hasJumpDrive, slowed)
  }

  /** Before the threshold a jump only counts up and burns one unit of fuel
      per tick. */
  lemma {:induction false} JumpProgress(s: JumpState, k: nat, hasDrive: bool, jumpFuel: real, hasJumpDrive: bool, slowed: bool)
    requires s.count == 0 && s.jumpTarget.Some? && hasDrive
    requires k < HyperspaceThreshold && s.fuel >= k as real
    ensures JumpTicks(s, k, hasDrive, jumpFuel, hasJumpDrive, slowed)
         == s.(count := k, fuel := s.fuel - k as real)
  {
    if k > 0 {
      JumpProgress(s, k - 1, hasDrive, jumpFuel, hasJumpDrive, slowed);
    }
  }

  /** A jump begun with enough fuel and a drive reaches its target system
      after exactly 100 ticks, having burned exactly the drive's jump fuel. */
  lemma JumpArrives(s: JumpState, hasDrive: bool, jumpFuel: real, hasJumpDrive: bool, slowed: bool)
    requires s.count == 0 && s.jumpTarget.Some? && hasDrive
    requires 100.0 <= jumpFuel <= s.fuel
    ensures JumpTicks(s, 100, hasDrive, jumpFuel, hasJumpDrive, slowed).system == s.jumpTarget
    ensures JumpTicks(s, 100, hasDrive, jumpFuel, hasJumpDrive, slowed).fuel == s.fuel - jumpFuel
    ensures JumpTicks(s, 100, hasDrive, jumpFuel, hasJumpDrive, slowed).jumpTarget.None?
  {
    JumpProgress(s, 99, hasDrive, jumpFuel, hasJumpDrive, slowed);
  }

  // ---------------------------------------------------------------------
  // Landing

  /** A planet as the landing logic sees it. */
  datatype Planet = Planet(name: string, hasSpaceport: bool, isWormhole: bool)

  /** Zoom is counted in steps of 0.02 of full size: full size is 50 steps
      and a landed ship is at 0. */
  const FullZoom: nat := 50

  /** The counters of landing and take-off. */
  datatype LandingState = LandingState(zoom: nat, fuel: real, landingPlanet: Option<Planet>,
                                       targetPlanet: Option<Planet>, system: Option<SystemId>)

  /** Either the ship has landed for good and is deleted, or it goes on. */
  datatype LandingOutcome = Vanished | Continuing(state: LandingState)

  /** The last step of a descent, the one that takes the zoom below zero: a
      wormhole sends the ship on to its exit system with its planets
      cleared, an ordinary or a fleeing ship vanishes, and a special ship
      stays landed at zoom 0. */
  function Touchdown(s: LandingState, isSpecial: bool, isFleeing: bool, wormholeExit: SystemId): (r: LandingOutcome)
    requires s.landingPlanet.Some?
    ensures s.landingPlanet.value.isWormhole ==>
      r == Continuing(s.(zoom := 0, system := Some(wormholeExit), targetPlanet := None, landingPlanet := None))
    ensures r.Vanished? <==> !s.landingPlanet.value.isWormhole && (!isSpecial || isFleeing)
    ensures !s.landingPlanet.value.isWormhole && isSpecial && !isFleeing ==> r == Continuing(s.(zoom := 0))
  {
    if s.landingPlanet.value.isWormhole then
      Continuing(s.(zoom := 0, system := Some(wormholeExit), targetPlanet := None, landingPlanet := None))
    else if !isSpecial || isFleeing then
      Vanished
    else
      Continuing(s.(zoom := 0))
  }

  /** One tick of the landing phase. A landing ship shrinks by one step per
      tick, and the step to zero is its touchdown. A landed ship at a
      spaceport gains one unit of fuel per tick up to capacity; a full one,
      or one with no spaceport, takes off again, growing by one step per tick
      up to full size. */
  function LandingTick(s: LandingState, capacity: real, isSpecial: bool, isFleeing: bool,
                       wormholeExit: SystemId): (r: LandingOutcome)
    ensures s.zoom <= FullZoom && r.Continuing? ==> r.state.zoom <= FullZoom
    ensures s.fuel <= capacity && r.Continuing? ==> r.state.fuel <= capacity
    ensures r.Continuing? ==> s.fuel <= r.state.fuel || r.state.fuel == capacity
    ensures r.Vanished? <==> s.landingPlanet.Some? && s.zoom == 1 && !s.landingPlanet.value.isWormhole
                             && (!isSpecial || isFleeing)
    ensures s.landingPlanet.Some? && s.zoom == 1 ==> r == Touchdown(s, isSpecial, isFleeing, wormholeExit)
    ensures s.landingPlanet.Some? && s.zoom > 1 ==> r == Continuing(s.(zoom := s.zoom - 1))
    ensures s.landingPlanet.None? ==> r == Continuing(s.(zoom := if s.zoom < FullZoom then s.zoom + 1 else s.zoom))
  {
    if s.landingPlanet.Some? && s.zoom != 0 then
      var zoom := s.zoom - 1;
      if zoom == 0 then
        Touchdown(s, isSpecial, isFleeing, wormholeExit)
      else
        Continuing(s.(zoom := zoom))
    else if s.fuel == capacity || s.landingPlanet.None? || !s.landingPlanet.value.hasSpaceport then
      Continuing(s.(zoom := if s.zoom < FullZoom then s.zoom + 1 else s.zoom, landingPlanet := None))
    else
      Continuing(s.(fuel := Min(s.fuel + 1.0, capacity)))
  }

  /** The outcome of `n` landing ticks in a row; a ship that vanished stays
      gone. */
  function LandingRun(s: LandingState, capacity: real, isSpecial: bool, isFleeing: bool, wormholeExit: SystemId,
                      n: nat): LandingOutcome
    decreases n
  {
    if n == 0 then Continuing(s)
    else
      match LandingTick(s, capacity, isSpecial, isFleeing, wormholeExit)
      case Vanished => Vanished
      case Continuing(t) => LandingRun(t, capacity, isSpecial, isFleeing, wormholeExit, n - 1)
  }

  /** A descent from zoom `k` takes exactly `k` ticks: the ship shrinks one
      step per tick and then touches down. */
  lemma {:induction false} DescentTouchesDown(s: LandingState, capacity: real, isSpecial: bool, isFleeing: bool,
                                              wormholeExit: SystemId)
    requires s.landingPlanet.Some? && s.zoom >= 1
    ensures LandingRun(s, capacity, isSpecial, isFleeing, wormholeExit, s.zoom)
         == Touchdown(s, isSpecial, isFleeing, wormholeExit)
    decreases s.zoom
  {
    if s.zoom == 1 {
      match Touchdown(s, isSpecial, isFleeing, wormholeExit)
      case Vanished =>
      case Continuing(t) =>
        assert LandingRun(t, capacity, isSpecial, isFleeing, wormholeExit, 0) == Continuing(t);
    } else {
      var t := s.(zoom := s.zoom - 1);
      assert LandingTick(s, capacity, isSpecial, isFleeing, wormholeExit) == Continuing(t);
      DescentTouchesDown(t, capacity, isSpecial, isFleeing, wormholeExit);
      assert Touchdown(t, isSpecial, isFleeing, wormholeExit) == Touchdown(s, isSpecial, isFleeing, wormholeExit);
    }
  }

  /** Every landing that starts at full size ends, 50 ticks later, on the
      far side of a wormhole, removed from the game, or (a special ship that
      is not fleeing) landed at zoom 0 on the planet. */
  lemma LandingFromFullSize(s: LandingState, capacity: real, isSpecial: bool, isFleeing: bool,
                            wormholeExit: SystemId)
    requires s.landingPlanet.Some? && s.zoom == FullZoom
    ensures var r := LandingRun(s, capacity, isSpecial, isFleeing, wormholeExit, FullZoom);
      (s.landingPlanet.value.isWormhole ==>
         r == Continuing(s.(zoom := 0, system := Some(wormholeExit), targetPlanet := None, landingPlanet := None)))
      && (!s.landingPlanet.value.isWormhole && (!isSpecial || isFleeing) ==> r == Vanished)
      && (!s.landingPlanet.value.isWormhole && isSpecial && !isFleeing ==> r == Continuing(s.(zoom := 0)))
  {
    DescentTouchesDown(s, capacity, isSpecial, isFleeing, wormholeExit);
  }

  /** A ship taking off grows one step per tick until it is back at full
      size. */
  lemma {:induction false} TakeOffGrows(s: LandingState, capacity: real, isSpecial: bool, isFleeing: bool,
                                        wormholeExit: SystemId, k: nat)
    requires s.landingPlanet.None? && s.zoom + k <= FullZoom
    ensures LandingRun(s, capacity, isSpecial, isFleeing, wormholeExit, k) == Continuing(s.(zoom := s.zoom + k))
    decreases k
  {
    if k > 0 {
      var t := s.(zoom := s.zoom + 1);
      assert LandingTick(s, capacity, isSpecial, isFleeing, wormholeExit) == Continuing(t);
      TakeOffGrows(t, capacity, isSpecial, isFleeing, wormholeExit, k - 1);
      assert t.(zoom := t.zoom + (k - 1)) == s.(zoom := s.zoom + k);
    }
  }

  /** A landed ship at a spaceport below capacity refuels by one unit (never
      past capacity) and stays landed. */
  lemma SpaceportRefuels(s: LandingState, capacity: real, isSpecial: bool, isFleeing: bool, wormholeExit: SystemId)
    requires s.zoom == 0 && s.landingPlanet.Some? && s.landingPlanet.value.hasSpaceport
    requires s.fuel != capacity
    ensures LandingTick(s, capacity, isSpecial, isFleeing, wormholeExit)
         == Continuing(s.(fuel := Min(s.fuel + 1.0, capacity)))
  {
  }

  /** Refuelling stops at capacity: a full ship leaves its fuel alone, and the
      next tick starts its take-off instead of refuelling again. */
  lemma FullTankTakesOff(s: LandingState, capacity: real, isSpecial: bool, isFleeing: bool, wormholeExit: SystemId)
    requires s.zoom == 0 && s.landingPlanet.Some? && s.fuel == capacity
    ensures LandingTick(s, capacity, isSpecial, isFleeing, wormholeExit)
         == Continuing(s.(zoom := 1, landingPlanet := None))
  {
  }

  /** Refuelling a landed ship tick after tick reaches capacity and then
      stays there. */
  lemma {:induction false} RefuelReachesCapacity(s: LandingState, capacity: real, n: nat)
    requires s.zoom == 0 && s.landingPlanet.Some? && s.landingPlanet.value.hasSpaceport
    requires s.fuel <= capacity && capacity - s.fuel <= n as real
    ensures RefuelTicks(s.fuel, capacity, n) == capacity
    decreases n
  {
    if n > 0 {
      var next := Min(s.fuel + 1.0, capacity);
      RefuelReachesCapacity(s.(fuel := next), capacity, n - 1);
    }
  }

  /** The fuel after `n` refuelling ticks at a spaceport. */
  function RefuelTicks(fuel: real, capacity: real, n: nat): real
    decreases n
  {
    if n == 0 then fuel else RefuelTicks(Min(fuel + 1.0, capacity), capacity, n - 1)
  }
}
