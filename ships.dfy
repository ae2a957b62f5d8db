/** The ship: its pools (shields, hull, energy, fuel, heat, crew), its
    phase counters (forgetting, explosions, hyperspace, landing zoom, cloak,
    pilot error), its installed outfits, its bays of carried craft and its
    links to other ships. Every state change is a method of `Ship` whose
    postcondition states the new state; the rules are in the value-level
    modules it imports. */
module Ships {
  import opened Basics
  import opened Resources
  import opened Outfits
  import opened Bays
  import opened BayLoops
  import opened Links

  /** The personality flags the economy reads. */
  datatype Personality = Personality(isDerelict: bool, isFleeing: bool, isForbearing: bool)

  /** The orders a pilot (player or AI) gives for one tick, and the turn
      amount. */
  datatype Order = Forward | Back | Afterburner | Land | Jump | Cloak | Board
  datatype Command = Command(orders: set<Order>, turn: real)

  /** A ship out of the player's system this many ticks is forgotten. */
  const ForgetLimit: int := 1000

  /** Length of a spell of pilot error, and of the grace period after a
      successful crew check. */
  const PilotSpell: int := 30

  /** What the resource update of one tick produces from the pools and
      docked craft of an active (not disabled) ship: shields regenerate up to
      their maximum at the price of energy, the surplus is handed to the
      docked fighters and then the docked drones, what they do not take goes
      back to energy, and a negative energy balance is repaid from shields.
      Heat gains generation minus cooling, never below zero. */
  datatype Supply = Supply(energy: real, shields: real, heat: real, fighterBays: seq<Bay>, droneBays: seq<Bay>)

  function SupplyTick(energy: real, shields: real, heat: real, fighterBays: seq<Bay>, droneBays: seq<Bay>,
                      attributes: Attributes): (r: Supply)
    ensures 0.0 <= r.energy && 0.0 <= r.heat
    ensures r.shields <= Max(shields, Get(attributes, "shields"))
    ensures shields <= Get(attributes, "shields") ==> r.shields <= Get(attributes, "shields")
    ensures |r.fighterBays| == |fighterBays| && |r.droneBays| == |droneBays|
    ensures forall i :: 0 <= i < |fighterBays| ==> Charged(fighterBays[i], r.fighterBays[i])
    ensures forall i :: 0 <= i < |droneBays| ==> Charged(droneBays[i], r.droneBays[i])
    ensures r.energy + r.shields + ShieldTotal(r.fighterBays) + ShieldTotal(r.droneBays)
         == energy + shields + Get(attributes, "energy generation")
            + RegeneratedTotal(fighterBays) + RegeneratedTotal(droneBays)
  {
    var generation := Get(attributes, "shield generation");
    var raised := shields + generation;
    var excess := Max(0.0, raised - Get(attributes, "shields"));
    var fighters := ChargeBays(fighterBays, excess);
    var drones := ChargeBays(droneBays, fighters.1);
    var settled := SettleShieldDebt(energy + Get(attributes, "energy generation") - generation + drones.1,
                                    raised - excess);
    ChargeConserves(fighterBays, excess);
    ChargeConserves(droneBays, fighters.1);
    Supply(settled.0, settled.1, Max(0.0, heat + Get(attributes, "heat generation") - Get(attributes, "cooling")),
           fighters.0, drones.0)
  }

  /** The supply step as the source runs it, from `before` to `after`: the
      fighter bays and then the drone bays take the excess shields in turn,
      heat gains generation minus cooling, and the energy balance (with what
      the craft did not take) is settled against the shields. */
  predicate Supplied(before: Supply, after: Supply, attributes: Attributes)
  {
    var raised := before.shields + Get(attributes, "shield generation");
    var excess := Max(0.0, raised - Get(attributes, "shields"));
    var fighters := ChargeBays(before.fighterBays, excess);
    var drones := ChargeBays(before.droneBays, fighters.1);
    after.fighterBays == fighters.0 && after.droneBays == drones.0
    && after.heat == Max(0.0, before.heat + Get(attributes, "heat generation") - Get(attributes, "cooling"))
    && (after.energy, after.shields)
       == SettleShieldDebt(before.energy + Get(attributes, "energy generation") - Get(attributes, "shield generation")
                           + drones.1, raised - excess)
  }

  /** A negative energy balance is paid back out of the shields. */
  method RepayShieldDebt(balance: real, shields: real) returns (energy: real, shieldsLeft: real)
    ensures (energy, shieldsLeft) == SettleShieldDebt(balance, shields)
  {
    energy, shieldsLeft := balance, shields;
    if energy < 0.0 {
      shieldsLeft := shieldsLeft + energy;
      energy := 0.0;
    }
  }

  /** Those steps compute exactly `SupplyTick`, so every property proved of
      `SupplyTick` holds of them. */
  lemma SuppliedIsSupplyTick(before: Supply, after: Supply, attributes: Attributes)
    ensures Supplied(before, after, attributes)
            <==> after == SupplyTick(before.energy, before.shields, before.heat, before.fighterBays, before.droneBays,
                                     attributes)
  {
  }

  /** The surplus reaches the drones only once every docked fighter is
      full. */
  lemma SupplyFightersFirst(energy: real, shields: real, heat: real, fighterBays: seq<Bay>, droneBays: seq<Bay>,
                            attributes: Attributes, k: nat, j: nat)
    requires k < |droneBays| && j < |fighterBays|
    requires GotExtra(droneBays[k], SupplyTick(energy, shields, heat, fighterBays, droneBays, attributes).droneBays[k])
    requires SupplyTick(energy, shields, heat, fighterBays, droneBays, attributes).fighterBays[j].Some?
    ensures Full(SupplyTick(energy, shields, heat, fighterBays, droneBays, attributes).fighterBays[j].value)
  {
    var excess := Max(0.0, shields + Get(attributes, "shield generation") - Get(attributes, "shields"));
    DronesAfterFighters(fighterBays, droneBays, excess, k, j);
  }

  // ---------------------------------------------------------------------
  // Steering costs

  /** The reserves steering draws on. */
  datatype Reserves = Reserves(energy: real, heat: real, fuel: real)

  /** 1 for forward thrust, -1 for reverse thrust, 0 when both or neither
      are ordered. */
  function ThrustDirection(orders: set<Order>): int
  {
    (if Forward in orders then 1 else 0) - (if Back in orders then 1 else 0)
  }

  /** The forward or the reverse version of a thrust stat, by direction. */
  function ThrustStat(orders: set<Order>, attributes: Attributes, forward: string, reverse: string): real
  {
    Get(attributes, if ThrustDirection(orders) > 0 then forward else reverse)
  }

  /** Thrust is applied when it is ordered, the ship has the energy for it,
      and the ship has that kind of thrust at all. */
  predicate ThrustApplies(energy: real, orders: set<Order>, attributes: Attributes)
  {
    ThrustDirection(orders) != 0
    && energy >= ThrustStat(orders, attributes, "thrusting energy", "reverse thrusting energy")
    && ThrustStat(orders, attributes, "thrust", "reverse thrust") != 0.0
  }

  /** The afterburner fires when ordered by a ship that can act and has the
      afterburner thrust, fuel and energy. */
  predicate AfterburnerApplies(r: Reserves, orders: set<Order>, canAct: bool, attributes: Attributes)
  {
    Afterburner in orders && canAct && Get(attributes, "afterburner thrust") != 0.0
    && r.fuel >= Get(attributes, "afterburner fuel") && r.energy >= Get(attributes, "afterburner energy")
  }

  /** The reserves after thrust. */
  function Thrusted(r: Reserves, orders: set<Order>, attributes: Attributes): Reserves
  {
    if ThrustApplies(r.energy, orders, attributes) then
      Reserves(r.energy - ThrustStat(orders, attributes, "thrusting energy", "reverse thrusting energy"),
               r.heat + ThrustStat(orders, attributes, "thrusting heat", "reverse thrusting heat"), r.fuel)
    else r
  }

  /** The reserves after the afterburner. */
  function Afterburned(r: Reserves, orders: set<Order>, canAct: bool, attributes: Attributes): Reserves
  {
    if AfterburnerApplies(r, orders, canAct, attributes) then
      Reserves(r.energy - Get(attributes, "afterburner energy"), r.heat + Get(attributes, "afterburner heat"),
               r.fuel - Get(attributes, "afterburner fuel"))
    else r
  }

  /** The reserves and the turn after turning: a turn the ship cannot pay
      for is cancelled. */
  function Turned(r: Reserves, turn: real, attributes: Attributes): (Reserves, real)
  {
    if turn == 0.0 then (r, turn)
    else if r.energy < Get(attributes, "turning energy") then (r, 0.0)
    else (Reserves(r.energy - Get(attributes, "turning energy"), r.heat + Get(attributes, "turning heat"), r.fuel), turn)
  }

  /** The reserves after the cloak step: an engaged cloak pays its fuel and
      energy. */
  function Cloaked(r: Reserves, engaged: bool, attributes: Attributes): Reserves
  {
    if engaged then
      Reserves(r.energy - Get(attributes, "cloaking energy"), r.heat, r.fuel - Get(attributes, "cloaking fuel"))
    else r
  }

  /** Thrust, then the afterburner, then turning, each on what the one
      before left. */
  function Steered(r: Reserves, command: Command, canAct: bool, attributes: Attributes): (Reserves, real)
  {
    Turned(Afterburned(Thrusted(r, command.orders, attributes), command.orders, canAct, attributes), command.turn,
           attributes)
  }

  /** Steering only pays for what the ship has: energy and fuel that were
      non-negative stay so, the turn is kept or cancelled, and a ship that
      can afford none of the manoeuvres it ordered keeps its reserves. */
  lemma SteeringNeverOverdraws(r: Reserves, command: Command, canAct: bool, attributes: Attributes)
    ensures 0.0 <= r.energy ==> 0.0 <= Steered(r, command, canAct, attributes).0.energy
    ensures 0.0 <= r.fuel ==> 0.0 <= Steered(r, command, canAct, attributes).0.fuel
    ensures Steered(r, command, canAct, attributes).1 == command.turn || Steered(r, command, canAct, attributes).1 == 0.0
    ensures !ThrustApplies(r.energy, command.orders, attributes) && !AfterburnerApplies(r, command.orders, canAct, attributes)
            && (command.turn == 0.0 || r.energy < Get(attributes, "turning energy")) ==>
      Steered(r, command, canAct, attributes).0 == r
  {
  }

  class Ship {
    const id: ShipId
    /** The hull category ("Fighter", "Drone", ...), fixed by the model. */
    const category: string
    /** The base "heat dissipation" stat the heat retention derives from. */
    const dissipationStat: real

    var attributes: Attributes
    var outfits: Counts
    var cargoUsed: real

    var shields: real
    var hull: real
    var energy: real
    var fuel: real
    var heat: real
    var crew: int

    var isOverheated: bool
    var isDisabled: bool
    var isSpecial: bool
    var isInSystem: bool
    var isBoarding: bool

    var forget: int
    var explosionRate: int
    var explosionCount: int
    var explosionTotal: int
    var hyperspaceCount: int
    var zoom: nat  // in steps of 0.02 of full size, `FullZoom` steps in all
    var cloak: real
    var pilotError: int
    var pilotOkay: int

    var currentSystem: Option<SystemId>
    var hyperspaceSystem: Option<SystemId>
    var targetSystem: Option<SystemId>
    var targetPlanet: Option<Planet>
    var landingPlanet: Option<Planet>
    var destination: Option<Planet>
    var government: Option<GovernmentId>
    var personality: Personality
    var commands: Command

    var fighterBays: seq<Bay>
    var droneBays: seq<Bay>
    var escorts: seq<Escort>
    var parent: Option<ShipId>
    var targetShip: Option<ShipId>
    var licenses: LicenseTable

    /** A ship of the given model, in space at full size, with everything
        else empty or zero and bays of the given numbers. */
    constructor (id: ShipId, category: string, attributes: Attributes, dissipationStat: real,
                 fighterBayCount: nat, droneBayCount: nat)
      ensures this.id == id && this.category == category && this.dissipationStat == dissipationStat
      ensures this.attributes == attributes && outfits == map[]
      ensures fighterBays == Empty(fighterBayCount) && droneBays == Empty(droneBayCount)
      ensures FreeCount(fighterBays) == fighterBayCount && FreeCount(droneBays) == droneBayCount
      ensures zoom == FullZoom && escorts == [] && parent.None?
    {
      this.id := id;
      this.category := category;
      this.dissipationStat := dissipationStat;
      this.attributes := attributes;
      outfits := map[];
      cargoUsed := 0.0;
      shields, hull, energy, fuel, heat, crew := 0.0, 0.0, 0.0, 0.0, 0.0, 0;
      isOverheated, isDisabled, isSpecial, isInSystem, isBoarding := false, false, false, true, false;
      forget, explosionRate, explosionCount, explosionTotal, hyperspaceCount := 0, 0, 0, 0, 0;
      zoom, cloak, pilotError, pilotOkay := FullZoom, 0.0, 0, 0;
      currentSystem, hyperspaceSystem, targetSystem := None, None, None;
      targetPlanet, landingPlanet, destination, government := None, None, None, None;
      personality := Personality(false, false, false);
      commands := Command({}, 0.0);
      fighterBays, droneBays := Empty(fighterBayCount), Empty(droneBayCount);
      escorts, parent, targetShip, licenses := [], None, None, map[];
    }

    // -------------------------------------------------------------------
    // Queries

    /** The share of heat kept each tick. */
    function HeatRetention(): (r: real)
      ensures r != 1.0
    {
      HeatDissipation(dissipationStat)
    }

    function RequiredCrew(): (r: int)
      reads this`attributes
      ensures r >= 0
      ensures category != "Drone" ==> r >= 1
      ensures r >= Trunc(Get(attributes, "required crew"))
    {
      Resources.RequiredCrew(category, Get(attributes, "required crew"))
    }

    function MinimumHull(): (r: real)
      reads this`attributes
      ensures 0.0 <= Get(attributes, "hull") ==> 0.0 <= r <= 0.5 * Get(attributes, "hull")
      ensures r >= 0.2 * Get(attributes, "hull")
    {
      Resources.MinimumHull(Get(attributes, "hull"))
    }

    function IsDisabled(): (r: bool)
      reads this`attributes, this`hull, this`crew
      ensures hull < MinimumHull() ==> r
      ensures crew != 0 || RequiredCrew() == 0 ==> (r <==> hull < MinimumHull())
      ensures crew == 0 && RequiredCrew() != 0 ==> r
    {
      Disabled(hull, Get(attributes, "hull"), crew, RequiredCrew())
    }

    function IsDestroyed(): (r: bool)
      reads this`attributes, this`hull, this`crew
      ensures r && 0.0 <= Get(attributes, "hull") ==> IsDisabled()
    {
      DisabledCases(hull, Get(attributes, "hull"), crew, RequiredCrew());
      hull < 0.0
    }

    function ShouldDelete(): (r: bool)
      reads this`attributes, this`hull, this`crew, this`zoom, this`isSpecial, this`explosionCount, this`explosionTotal
      ensures !IsDestroyed() ==> (r <==> zoom == 0 && !isSpecial)
      ensures isSpecial ==> (r <==> IsDestroyed() && explosionCount >= explosionTotal)
    {
      (zoom == 0 && !isSpecial) || (IsDestroyed() && explosionCount >= explosionTotal)
    }

    function CannotAct(): (r: bool)
      reads this`zoom, this`isDisabled, this`hyperspaceCount, this`pilotError, this`cloak
      ensures isDisabled || pilotError != 0 || hyperspaceCount != 0 ==> r
      ensures !r ==> zoom == FullZoom && cloak == 0.0
    {
      zoom != FullZoom || isDisabled || hyperspaceCount != 0 || pilotError != 0 || cloak != 0.0
    }

    /** The normalised gauges. */
    function ShieldsFraction(): (r: real)
      reads this`attributes, this`shields
      ensures Get(attributes, "shields") == 0.0 ==> r == 0.0
      ensures 0.0 < Get(attributes, "shields") && 0.0 <= shields ==> 0.0 <= r <= 1.0
    {
      Fraction(shields, Get(attributes, "shields"), 0.0)
    }

    function HullFraction(): (r: real)
      reads this`attributes, this`hull
      ensures Get(attributes, "hull") == 0.0 ==> r == 1.0
      ensures 0.0 < Get(attributes, "hull") && 0.0 <= hull ==> 0.0 <= r <= 1.0
    {
      Fraction(hull, Get(attributes, "hull"), 1.0)
    }

    function FuelFraction(): (r: real)
      reads this`attributes, this`fuel
      ensures Get(attributes, "fuel capacity") == 0.0 ==> r == 0.0
      ensures 0.0 < Get(attributes, "fuel capacity") && 0.0 <= fuel ==> 0.0 <= r <= 1.0
    {
      Fraction(fuel, Get(attributes, "fuel capacity"), 0.0)
    }

    function EnergyFraction(): (r: real)
      reads this`attributes, this`energy, this`hull
      ensures Get(attributes, "energy capacity") == 0.0 ==> (r == 1.0 <==> hull > 0.0) && (r == 0.0 <==> hull <= 0.0)
      ensures 0.0 < Get(attributes, "energy capacity") && 0.0 <= energy ==> 0.0 <= r <= 1.0
    {
      Fraction(energy, Get(attributes, "energy capacity"), if hull > 0.0 then 1.0 else 0.0)
    }

    /** The mass the ship moves: its hull and outfits, its cargo and every
        docked craft. */
    function TotalMass(): real
      reads this`attributes, this`cargoUsed, this`fighterBays, this`droneBays
    {
      CarriedMass(droneBays) + CarriedMass(fighterBays) + cargoUsed + Get(attributes, "mass")
    }

    method Mass() returns (mass: real)
      ensures mass == TotalMass()
    {
      var drones := SumMass(droneBays);
      var fighters := SumMass(fighterBays);
      mass := drones + fighters + cargoUsed + Get(attributes, "mass");
    }

    method HeatFraction() returns (r: real)
      ensures r == Fraction(heat, TotalMass() * 100.0, 1.0)
      ensures TotalMass() == 0.0 ==> r == 1.0
      ensures 0.0 < TotalMass() && 0.0 <= heat ==> 0.0 <= r <= 1.0
      ensures 0.0 < TotalMass() ==> (r == 1.0 <==> heat >= 100.0 * TotalMass())
    {
      var mass := Mass();
      r := Fraction(heat, mass * 100.0, 1.0);
    }

    function JumpsRemaining(): (r: int)
      reads this`attributes, this`fuel
      ensures Get(attributes, "jump fuel") == 0.0 ==> r == 0
      ensures 0.0 <= fuel && 0.0 < Get(attributes, "jump fuel") ==>
        0 <= r && r as real * Get(attributes, "jump fuel") <= fuel < (r + 1) as real * Get(attributes, "jump fuel")
    {
      Resources.JumpsRemaining(fuel, Get(attributes, "jump fuel"))
    }

    function CanRefuel(other: Ship): (r: bool)
      reads this`attributes, this`fuel, other`attributes
      ensures r ==> fuel - Get(other.attributes, "jump fuel") >= Get(attributes, "jump fuel")
      ensures r && 0.0 < Get(attributes, "jump fuel") && 0.0 <= Get(other.attributes, "jump fuel") ==> JumpsRemaining() >= 1
    {
      if Resources.CanRefuel(fuel, Get(attributes, "jump fuel"), Get(other.attributes, "jump fuel"))
         && 0.0 < Get(attributes, "jump fuel") && 0.0 <= Get(other.attributes, "jump fuel") then
        AtLeastOneJump(fuel, Get(attributes, "jump fuel"));
        true
      else
        Resources.CanRefuel(fuel, Get(attributes, "jump fuel"), Get(other.attributes, "jump fuel"))
    }

    function Licenses(government: Option<GovernmentId>): (r: seq<string>)
      reads this`licenses
      ensures government in licenses ==> r == licenses[government]
      ensures government !in licenses ==> r == LicenseLookup(licenses, None)
    {
      FallbackIsUniversal(licenses, government, []);
      LicenseLookup(licenses, government)
    }

    function OutfitCount(outfit: OutfitId): (r: int)
      reads this`outfits
      ensures outfit !in outfits ==> r == 0
      ensures NoZeroCounts(outfits) ==> (r != 0 <==> outfit in outfits)
    {
      CountOf(outfits, outfit)
    }

    function CanFire(outfit: Option<Outfit>): (r: bool)
      reads this`outfits, this`energy, this`fuel
      ensures r ==> outfit.Some? && outfit.value.isWeapon
      ensures r ==> energy >= Get(outfit.value.weapon, "firing energy") && fuel >= Get(outfit.value.weapon, "firing fuel")
      ensures r && outfit.value.ammo.Some? ==> OutfitCount(outfit.value.ammo.value.name) >= 1
      ensures r <==> outfit.Some? && outfit.value.isWeapon
                     && (outfit.value.ammo.None? || OutfitCount(outfit.value.ammo.value.name) > 0)
                     && energy >= Get(outfit.value.weapon, "firing energy")
                     && fuel >= Get(outfit.value.weapon, "firing fuel")
    {
      CanFireWith(outfits, energy, fuel, outfit)
    }

    // -------------------------------------------------------------------
    // Fuel, crew, repair

    /** Move fuel to another ship, or (with no recipient and a negative
        amount) scoop it up. The amount is first raised so that the sender
        does not stay above its capacity, then lowered so that the recipient
        does not go above its own. */
    method TransferFuel(amount: real, to: Ship?) returns (moved: real)
      modifies this`fuel, if to == null then {} else {to}`fuel
      ensures moved == TransferAmount(amount, Tank(old(fuel), Get(attributes, "fuel capacity")),
                                       if to == null then None else Some(Tank(old(to.fuel), Get(to.attributes, "fuel capacity"))))
      ensures to != this ==> fuel == old(fuel) - moved
      ensures to != null && to != this ==> to.fuel == old(to.fuel) + moved
      ensures to != null && to != this ==> to.fuel <= Get(to.attributes, "fuel capacity")
      ensures to == null ==> fuel <= Get(attributes, "fuel capacity")
      ensures to == this ==> fuel == old(fuel)
    {
      moved := Max(fuel - Get(attributes, "fuel capacity"), amount);
      if to != null {
        moved := Min(Get(to.attributes, "fuel capacity") - to.fuel, moved);
        to.fuel := to.fuel + moved;
      }
      fuel := fuel - moved;
    }

    /** Point the ship at a new parent; this drops every target. */
    method SetParent(newParent: Option<ShipId>)
      modifies this`parent, this`targetShip, this`targetPlanet, this`targetSystem
      ensures parent == newParent && targetShip.None? && targetPlanet.None? && targetSystem.None?
    {
      parent := newParent;
      targetShip := None;
      targetPlanet := None;
      targetSystem := None;
    }

    /** This ship has been boarded and taken by `capturer`: it is patched up
        to just above disabled, changes sides, takes crew from the capturer
        (the bare minimum it needs if the capturer can spare it, a share
        otherwise), and follows the capturer. */
    method WasCaptured(capturer: Ship)
      requires capturer != this
      requires capturer.crew >= 0 || capturer.RequiredCrew() + RequiredCrew() != 0
      modifies this`hull, this`government, this`crew, capturer`crew, this`parent, this`targetShip,
               this`targetPlanet, this`targetSystem, this`commands, this`isDisabled, this`hyperspaceSystem,
               this`isSpecial, this`personality
      ensures hull == Max(old(hull), MinimumHull())
      ensures government == capturer.government
      ensures crew == old(crew) + CaptureTransfer(old(capturer.crew), capturer.RequiredCrew(), RequiredCrew())
      ensures crew + capturer.crew == old(crew) + old(capturer.crew)
      ensures parent == Some(capturer.id) && targetShip.None? && targetPlanet.None? && targetSystem.None?
      ensures commands == Command({}, 0.0) && !isDisabled && hyperspaceSystem.None?
      ensures isSpecial == capturer.isSpecial && personality == capturer.personality
      ensures old(crew) >= 0 ==> !IsDisabled()
    {
      hull := Max(hull, MinimumHull());
      ShareCrew(capturer);
      JoinCapturer(capturer);
    }

    /** The allegiance part of a capture: the ship takes the capturer's
        government, personality and special status, follows it, and forgets
        its orders and any pending jump. */
    method JoinCapturer(capturer: Ship)
      requires capturer != this
      modifies this`government, this`parent, this`targetShip, this`targetPlanet, this`targetSystem,
               this`commands, this`isDisabled, this`hyperspaceSystem, this`isSpecial, this`personality
      ensures government == capturer.government
      ensures parent == Some(capturer.id) && targetShip.None? && targetPlanet.None? && targetSystem.None?
      ensures commands == Command({}, 0.0) && !isDisabled && hyperspaceSystem.None?
      ensures isSpecial == capturer.isSpecial && personality == capturer.personality
    {
      government := capturer.government;
      SetParent(Some(capturer.id));
      commands := Command({}, 0.0);
      isDisabled := false;
      hyperspaceSystem := None;
      isSpecial := capturer.isSpecial;
      personality := capturer.personality;
    }

    /** The crew part of a capture: the captured ship receives the bare
        minimum it needs when the capturer can cover both ships'
        requirements, and otherwise a share of the capturer's crew in
        proportion to its requirement, but at least one. */
    method ShareCrew(capturer: Ship)
      requires capturer != this
      requires capturer.crew >= 0 || capturer.RequiredCrew() + RequiredCrew() != 0
      modifies this`crew, capturer`crew
      ensures crew == old(crew) + CaptureTransfer(old(capturer.crew), capturer.RequiredCrew(), RequiredCrew())
      ensures capturer.crew == old(capturer.crew) - CaptureTransfer(old(capturer.crew), capturer.RequiredCrew(), RequiredCrew())
      ensures old(crew) >= 0 ==> crew != 0 || RequiredCrew() == 0
    {
      var totalRequired := capturer.RequiredCrew() + RequiredCrew();
      var transfer := RequiredCrew();
      if totalRequired > capturer.crew {
        transfer := MaxInt(1, Quot(capturer.crew * RequiredCrew(), totalRequired));
      }
      capturer.crew := capturer.crew - transfer;
      crew := crew + transfer;
    }

    /** Repair and refill (on landing): a destroyed ship is left as it is;
        at a spaceport crew is topped up to the requirement and fuel filled;
        pilot error is forgiven; unless derelict, shields, hull and energy
        are filled; heat is set to the level at which it stays steady. */
    method Recharge(atSpaceport: bool)
      modifies this`crew, this`fuel, this`pilotError, this`pilotOkay, this`shields, this`hull, this`energy, this`heat
      ensures old(IsDestroyed()) ==>
        crew == old(crew) && fuel == old(fuel) && pilotError == old(pilotError) && pilotOkay == old(pilotOkay)
        && shields == old(shields) && hull == old(hull) && energy == old(energy) && heat == old(heat)
      ensures !old(IsDestroyed()) ==>
        crew == (if atSpaceport then MaxInt(old(crew), RequiredCrew()) else old(crew))
        && fuel == (if atSpaceport then Get(attributes, "fuel capacity") else old(fuel))
        && pilotError == 0 && pilotOkay == 0
        && heat == EquilibriumHeat(Get(attributes, "heat generation"), Get(attributes, "cooling"), HeatRetention())
      ensures !old(IsDestroyed()) && !personality.isDerelict ==>
        shields == Get(attributes, "shields") && hull == Get(attributes, "hull")
        && energy == Get(attributes, "energy capacity")
      ensures !old(IsDestroyed()) && personality.isDerelict ==>
        shields == old(shields) && hull == old(hull) && energy == old(energy)
      ensures (!old(IsDestroyed()) && atSpaceport && !personality.isDerelict
               && 0.0 <= Get(attributes, "hull")) ==> !IsDisabled()
    {
      if IsDestroyed() {
        return;
      }
      if atSpaceport {
        crew := MaxInt(crew, RequiredCrew());
        fuel := Get(attributes, "fuel capacity");
      }
      pilotError := 0;
      pilotOkay := 0;
      if !personality.isDerelict {
        shields := Get(attributes, "shields");
        hull := Get(attributes, "hull");
        energy := Get(attributes, "energy capacity");
      }
      heat := EquilibriumHeat(Get(attributes, "heat generation"), Get(attributes, "cooling"), HeatRetention());
    }

    // -------------------------------------------------------------------
    // Damage

    /** Apply one hit. Returns the events it caused: Disable and Destroy
        only on the hit that crosses the line, Provoke when a direct hit
        from a government that was not hostile leaves the ship hurt or the
        ship does not forbear. */
    method TakeDamage(weapon: Weapon, isBlast: bool, shooter: Option<GovernmentId>, shooterIsHostile: bool)
        returns (events: set<ShipEvent>)
      modifies this`shields, this`hull, this`heat, this`isBoarding
      ensures Hit(shields, hull, heat) == AbsorbHit(old(shields), old(hull), old(heat), weapon)
      ensures !isBoarding
      ensures Disable in events <==> !old(IsDisabled()) && IsDisabled()
      ensures Destroy in events <==> !old(IsDestroyed()) && IsDestroyed()
      ensures Provoke in events <==> !isBlast && shooter.Some? && !shooterIsHostile
                                     && (ShieldsFraction() < 0.9 || HullFraction() < 0.9 || !personality.isForbearing)
      ensures old(IsDestroyed()) ==> Destroy !in events
    {
      events := {};
      var wasDisabled := IsDisabled();
      var wasDestroyed := IsDestroyed();
      isBoarding := false;
      Absorb(weapon);
      if !wasDisabled && IsDisabled() {
        events := events + {Disable};
      }
      if !wasDestroyed && IsDestroyed() {
        events := events + {Destroy};
      }
      if !isBlast && shooter.Some? && !shooterIsHostile
         && (ShieldsFraction() < 0.9 || HullFraction() < 0.9 || !personality.isForbearing) {
        events := events + {Provoke};
      }
    }

    /** The pools' side of a hit: shields take the shield damage if they
        can; otherwise they are knocked out, and the hull takes the share of
        the hull damage the shields did not stop. */
    method Absorb(weapon: Weapon)
      modifies this`shields, this`hull, this`heat
      ensures Hit(shields, hull, heat) == AbsorbHit(old(shields), old(hull), old(heat), weapon)
    {
      var shieldDamage := weapon.shieldDamage;
      var hullDamage := weapon.hullDamage;
      if shields > shieldDamage {
        shields := shields - shieldDamage;
        heat := heat + 0.5 * weapon.heatDamage;
      } else if shields == 0.0 || shieldDamage != 0.0 {
        if shieldDamage != 0.0 {
          hullDamage := hullDamage * (1.0 - shields / shieldDamage);
          shields := 0.0;
        }
        hull := hull - hullDamage;
        heat := heat + weapon.heatDamage;
      }
    }

    // -------------------------------------------------------------------
    // Outfits and weapons

    /** Install `count` of an outfit (remove, if negative); its stats are
        added to the ship's, scaled by the count. */
    method AddOutfit(outfit: Option<Outfit>, count: int)
      modifies this`outfits, this`attributes
      ensures outfit.None? || count == 0 ==> outfits == old(outfits) && attributes == old(attributes)
      ensures outfit.Some? && count != 0 ==>
        outfits == AddCount(old(outfits), outfit.value.name, count)
        && attributes == AddScaled(old(attributes), outfit.value.attributes, count)
      ensures outfit.Some? ==> OutfitCount(outfit.value.name) == old(OutfitCount(outfit.value.name)) + count
      ensures NoZeroCounts(old(outfits)) ==> NoZeroCounts(outfits)
    {
      if outfit.Some? && count != 0 {
        var id := outfit.value.name;
        if id !in outfits {
          outfits := outfits[id := count];
        } else {
          outfits := outfits[id := outfits[id] + count];
          if outfits[id] == 0 {
            outfits := outfits - {id};
          }
        }
        attributes := AddScaled(attributes, outfit.value.attributes, count);
      }
    }

    /** Pay for one shot of a weapon: one unit of its ammunition, its firing
        energy and fuel, and its firing heat. After a shot that `CanFire`
        allowed, nothing is overdrawn. */
    method ExpendAmmo(outfit: Option<Outfit>)
      modifies this`outfits, this`attributes, this`energy, this`fuel, this`heat
      ensures outfit.None? ==>
        outfits == old(outfits) && attributes == old(attributes)
        && energy == old(energy) && fuel == old(fuel) && heat == old(heat)
      ensures outfit.Some? ==>
        energy == old(energy) - Get(outfit.value.weapon, "firing energy")
        && fuel == old(fuel) - Get(outfit.value.weapon, "firing fuel")
        && heat == old(heat) + Get(outfit.value.weapon, "firing heat")
      ensures outfit.Some? && outfit.value.ammo.Some? ==>
        outfits == AddCount(old(outfits), outfit.value.ammo.value.name, -1)
        && attributes == AddScaled(old(attributes), outfit.value.ammo.value.attributes, -1)
      ensures outfit.Some? && outfit.value.ammo.None? ==> outfits == old(outfits) && attributes == old(attributes)
      ensures old(CanFire(outfit)) ==>
        0.0 <= energy && 0.0 <= fuel
        && (outfit.value.ammo.Some? ==> OutfitCount(outfit.value.ammo.value.name) >= 0)
    {
      if outfit.None? {
        return;
      }
      if outfit.value.ammo.Some? {
        AddOutfit(outfit.value.ammo, -1);
      }
      energy := energy - Get(outfit.value.weapon, "firing energy");
      fuel := fuel - Get(outfit.value.weapon, "firing fuel");
      heat := heat + Get(outfit.value.weapon, "firing heat");
    }

    // -------------------------------------------------------------------
    // Bays

    method FighterBaysFree() returns (count: int)
      ensures count == FreeCount(fighterBays)
      ensures 0 <= count <= |fighterBays|
    {
      count := CountFree(fighterBays);
    }

    method DroneBaysFree() returns (count: int)
      ensures count == FreeCount(droneBays)
      ensures 0 <= count <= |droneBays|
    {
      count := CountFree(droneBays);
    }

    /** The docked craft: fighters in bay order, then drones in bay order. */
    method CarriedShips() returns (crafts: seq<Craft>)
      ensures crafts == Carried(fighterBays) + Carried(droneBays)
      ensures |crafts| == |fighterBays| + |droneBays| - FreeCount(fighterBays) - FreeCount(droneBays)
    {
      var fighters := ListCarried(fighterBays);
      var drones := ListCarried(droneBays);
      crafts := fighters + drones;
    }

    /** Dock a craft: a fighter goes into the first empty fighter bay, a
        drone into the first empty drone bay; anything else, or a craft with
        no free bay of its kind, is refused and nothing changes. */
    method AddFighter(craft: Option<Craft>) returns (added: bool)
      modifies this`fighterBays, this`droneBays
      ensures craft.None? || (craft.value.category != "Fighter" && craft.value.category != "Drone") ==>
        !added && fighterBays == old(fighterBays) && droneBays == old(droneBays)
      ensures craft.Some? && craft.value.category == "Fighter" ==>
        droneBays == old(droneBays) && DockedInto(old(fighterBays), fighterBays, craft.value, added)
      ensures craft.Some? && craft.value.category == "Drone" ==>
        fighterBays == old(fighterBays) && DockedInto(old(droneBays), droneBays, craft.value, added)
      ensures added && craft.value.category == "Fighter" ==> FreeCount(fighterBays) == FreeCount(old(fighterBays)) - 1
      ensures added && craft.value.category == "Drone" ==> FreeCount(droneBays) == FreeCount(old(droneBays)) - 1
      ensures added ==> multiset(Carried(fighterBays) + Carried(droneBays))
                        == multiset(Carried(old(fighterBays)) + Carried(old(droneBays))) + multiset{Stowed(craft.value)}
    {
      if craft.None? {
        return false;
      }
      var c := craft.value;
      if c.category == "Fighter" {
        fighterBays, added := Dock(fighterBays, c);
      } else if c.category == "Drone" {
        droneBays, added := Dock(droneBays, c);
      } else {
        added := false;
      }
    }

    /** Put every docked craft back into the world, in the carrier's system
        and on its landing planet, and empty every bay. Returns the released
        craft, fighters first. */
    method UnloadFighters() returns (released: seq<Craft>)
      modifies this`fighterBays, this`droneBays
      ensures fighterBays == Empty(|old(fighterBays)|) && droneBays == Empty(|old(droneBays)|)
      ensures FreeCount(fighterBays) == |fighterBays| && FreeCount(droneBays) == |droneBays|
      ensures released == ReleaseAll(Carried(old(fighterBays)) + Carried(old(droneBays)), currentSystem, landingPlanet)
    {
      var system, planet := currentSystem, landingPlanet;
      var fighterSlots, fighters := Unload(fighterBays, system, planet);
      var droneSlots, drones := Unload(droneBays, system, planet);
      ReleaseAllAppend(Carried(fighterBays), Carried(droneBays), system, planet);
      fighterBays, droneBays, released := fighterSlots, droneSlots, fighters + drones;
    }

    // -------------------------------------------------------------------
    // One tick of movement

    /** Whether the ship has any drive that can make a jump. */
    function HasDrive(): bool
      reads this`attributes
    {
      Get(attributes, "hyperdrive") != 0.0 || Get(attributes, "jump drive") != 0.0
    }

    /** The jump counters, as the hyperspace rules see them. */
    function JumpCounters(): JumpState
      reads this`hyperspaceCount, this`fuel, this`currentSystem, this`hyperspaceSystem
    {
      JumpState(hyperspaceCount, fuel, currentSystem, hyperspaceSystem)
    }

    /** The landing counters, as the landing rules see them. */
    function LandingCounters(): LandingState
      reads this`zoom, this`fuel, this`landingPlanet, this`targetPlanet, this`currentSystem
    {
      LandingState(zoom, fuel, landingPlanet, targetPlanet, currentSystem)
    }

    /** Start of a tick: a ship away from the player's system counts up
        towards being forgotten; a forgotten ordinary ship, or one in no
        system, is to be deleted. Otherwise the in-system flag is reset for
        the next tick and a pending jump is dropped when the ship has no fuel
        or no drive. */
    method ForgetStep() returns (keep: bool)
      modifies this`forget, this`isInSystem, this`hyperspaceSystem
      ensures forget == old(forget) + (if old(isInSystem) then 0 else 1)
      ensures keep <==> (isSpecial || forget < ForgetLimit) && currentSystem.Some?
      ensures keep ==> !isInSystem && JumpCounters() == JumpGate(old(JumpCounters()), HasDrive())
      ensures !keep ==> isInSystem == old(isInSystem) && hyperspaceSystem == old(hyperspaceSystem)
    {
      forget := forget + (if isInSystem then 0 else 1);
      if (!isSpecial && forget >= ForgetLimit) || currentSystem.None? {
        return false;
      }
      isInSystem := false;
      if fuel == 0.0 || !HasDrive() {
        hyperspaceSystem := None;
      }
      return true;
    }

    /** Pools that exceeded their maximum during the last tick are clamped,
        heat decays, the overheated flag follows its hysteresis band, and the
        disabled flag is refreshed. */
    method ClampAndCool()
      modifies this`energy, this`heat, this`isOverheated, this`shields, this`hull, this`isDisabled
      ensures energy == Min(old(energy), Get(attributes, "energy capacity"))
      ensures heat == Decayed(old(heat), HeatRetention())
      ensures isOverheated == NextOverheated(heat, TotalMass(), old(isOverheated))
      ensures shields == Min(old(shields), Get(attributes, "shields"))
      ensures hull == Min(old(hull), Get(attributes, "hull"))
      ensures isDisabled == (isOverheated || IsDisabled())
    {
      ClampEnergy();
      Cool();
      ClampHealth();
    }

    /** Energy is clamped to the battery capacity. */
    method ClampEnergy()
      modifies this`energy
      ensures energy == Min(old(energy), Get(attributes, "energy capacity"))
    {
      energy := Min(energy, Get(attributes, "energy capacity"));
    }

    /** Shields and hull are clamped to their maxima, and the disabled flag
        is refreshed from the clamped hull and the overheated flag. */
    method ClampHealth()
      modifies this`shields, this`hull, this`isDisabled
      ensures shields == Min(old(shields), Get(attributes, "shields"))
      ensures hull == Min(old(hull), Get(attributes, "hull"))
      ensures isDisabled == (isOverheated || IsDisabled())
    {
      shields := Min(shields, Get(attributes, "shields"));
      hull := Min(hull, Get(attributes, "hull"));
      isDisabled := isOverheated || IsDisabled();
    }

    /** Heat decays by the retention factor, and the overheated flag is set
        above 100 heat per unit of mass and cleared below 90. */
    method Cool()
      modifies this`heat, this`isOverheated
      ensures heat == Decayed(old(heat), HeatRetention())
      ensures isOverheated == NextOverheated(heat, TotalMass(), old(isOverheated))
    {
      heat := Decayed(heat, HeatRetention());
      var mass := Mass();
      if heat > mass * 100.0 {
        isOverheated := true;
      } else if heat < mass * 90.0 {
        isOverheated := false;
      }
    }

    /** Supply levels: hull repairs unless overheated; an active ship scoops
        fuel (`scoop` is the intake the ramscoop stat gives), generates energy
        and heat, regenerates shields and tops up its docked craft. */
    method Regenerate(scoop: real)
      modifies this`hull, this`fuel, this`energy, this`heat, this`shields, this`fighterBays, this`droneBays
      ensures hull == old(hull) + (if isOverheated then 0.0 else Get(attributes, "hull repair rate"))
      ensures isDisabled ==>
        fuel == old(fuel) && energy == old(energy) && heat == old(heat) && shields == old(shields)
        && fighterBays == old(fighterBays) && droneBays == old(droneBays)
      ensures !isDisabled ==>
        fuel == (if Get(attributes, "ramscoop") != 0.0
                 then old(fuel) - TransferAmount(-scoop, Tank(old(fuel), Get(attributes, "fuel capacity")), None)
                 else old(fuel))
      ensures !isDisabled ==>
        Supplied(Supply(old(energy), old(shields), old(heat), old(fighterBays), old(droneBays)),
                 Supply(energy, shields, heat, fighterBays, droneBays), attributes)
      ensures !isDisabled ==> 0.0 <= energy
    {
      if !isOverheated {
        hull := hull + Get(attributes, "hull repair rate");
      }
      if isDisabled {
        return;
      }
      if Get(attributes, "ramscoop") != 0.0 {
        var scooped := TransferFuel(-scoop, null);
      }
      SupplyStep();
    }

    /** Energy and heat generation, shield regeneration, and the surplus
        passed on to docked fighters and then drones; a shield boost the
        energy could not pay for is taken back from the shields. */
    method SupplyStep()
      modifies this`energy, this`heat, this`shields, this`fighterBays, this`droneBays
      ensures Supplied(Supply(old(energy), old(shields), old(heat), old(fighterBays), old(droneBays)),
                       Supply(energy, shields, heat, fighterBays, droneBays), attributes)
    {
      ghost var before := Supply(energy, shields, heat, fighterBays, droneBays);
      var power := energy + Get(attributes, "energy generation");
      var warmth := Max(0.0, heat + Get(attributes, "heat generation") - Get(attributes, "cooling"));
      var generation := Get(attributes, "shield generation");
      var raised := shields + generation;
      power := power - generation;
      var excess := Max(0.0, raised - Get(attributes, "shields"));
      var boosted := raised - excess;
      var fighters, left := ChargeList(fighterBays, excess);
      var drones, rest := ChargeList(droneBays, left);
      power := power + rest;
      power, boosted := RepayShieldDebt(power, boosted);
      assert Supplied(before, Supply(power, boosted, warmth, fighters, drones), attributes);
      energy, heat, shields, fighterBays, droneBays := power, warmth, boosted, fighters, drones;
    }

    /** A destroyed ship first sets off explosions at a growing rate (one
        more each tick; a roll of `roll` out of 1024 below the rate sets one
        off, and `placed` says whether it found a spot on the hull), then,
        once all have gone off or the ship is forgotten, is emptied and
        deleted. A ship that is not forgotten goes out in a final burst of
        `explosionTotal` explosions, of which `burstPlaced` found a spot and
        count. */
    method DestroyedStep(roll: int, placed: bool, burstPlaced: nat) returns (keep: bool)
      requires 0 <= roll < 1024
      requires burstPlaced <= MaxInt(explosionTotal, 0)
      modifies this`energy, this`heat, this`fuel, this`explosionRate, this`explosionCount
      ensures !keep <==> old(explosionCount) == explosionTotal || forget != 0
      ensures !keep ==> energy == 0.0 && heat == 0.0 && fuel == 0.0 && explosionRate == old(explosionRate)
                        && explosionCount == old(explosionCount) + (if forget == 0 then burstPlaced else 0)
      ensures keep ==>
        explosionRate == old(explosionRate) + 1
        && explosionCount == old(explosionCount) + (if roll < explosionRate && placed then 1 else 0)
        && energy == old(energy) && heat == old(heat) && fuel == old(fuel)
    {
      if explosionCount == explosionTotal || forget != 0 {
        if forget == 0 {
          explosionCount := explosionCount + burstPlaced;
        }
        energy := 0.0;
        heat := 0.0;
        fuel := 0.0;
        return false;
      }
      explosionRate := explosionRate + 1;
      if roll < explosionRate && placed {
        explosionCount := explosionCount + 1;
      }
      return true;
    }

    /** One tick in hyperspace: the jump counter moves one step toward 100
        while a target is set (one unit of fuel per step) and back otherwise;
        at 100 the ship arrives, pays the rest of its jump fuel and drops its
        targets. A hyperdrive ship that has slowed to cruising speed
        (`slowed`) and has no jump pending resets the counter. */
    method HyperspaceStep(slowed: bool)
      modifies this`fuel, this`hyperspaceCount, this`currentSystem, this`hyperspaceSystem, this`targetSystem,
               this`targetPlanet
      ensures JumpCounters() == HyperspaceTick(old(JumpCounters()), Get(attributes, "jump fuel"), Get(attributes, "jump drive") != 0.0, slowed)
      ensures old(hyperspaceCount) + (if old(hyperspaceSystem).Some? then 1 else -1) == HyperspaceThreshold ==>
        targetSystem.None? && targetPlanet.None?
      ensures old(hyperspaceCount) + (if old(hyperspaceSystem).Some? then 1 else -1) != HyperspaceThreshold ==>
        targetSystem == old(targetSystem) && targetPlanet == old(targetPlanet)
    {
      fuel := fuel - (if hyperspaceSystem.Some? then 1.0 else 0.0);
      var direction := if hyperspaceSystem.Some? then 1 else -1;
      hyperspaceCount := hyperspaceCount + direction;
      var hasJumpDrive := Get(attributes, "jump drive") != 0.0;
      if hyperspaceCount == HyperspaceThreshold {
        currentSystem := hyperspaceSystem;
        fuel := fuel - (Get(attributes, "jump fuel") - 100.0);
        hyperspaceSystem := None;
        targetSystem := None;
        targetPlanet := None;
        if hasJumpDrive {
          return;
        }
      }
      if !hasJumpDrive && slowed && hyperspaceSystem.None? {
        hyperspaceCount := 0;
      }
    }

    /** One tick of landing or take-off. `wormholeExit` is the system the
        landing planet's wormhole leads to from here. Returns false when the
        ship has landed for good. */
    method LandingStep(wormholeExit: SystemId) returns (keep: bool)
      modifies this`zoom, this`fuel, this`landingPlanet, this`targetPlanet, this`currentSystem
      ensures var next := LandingTick(old(LandingCounters()), Get(attributes, "fuel capacity"), isSpecial,
                                      personality.isFleeing, wormholeExit);
        (keep <==> next.Continuing?) && (keep ==> LandingCounters() == next.state)
    {
      var capacity := Get(attributes, "fuel capacity");
      if landingPlanet.Some? && zoom != 0 {
        zoom := zoom - 1;
        if zoom == 0 {
          if landingPlanet.value.isWormhole {
            currentSystem := Some(wormholeExit);
            targetPlanet := None;
            landingPlanet := None;
          } else if !isSpecial || personality.isFleeing {
            return false;
          }
        }
      } else if fuel == capacity || landingPlanet.None? || !landingPlanet.value.hasSpaceport {
        if zoom < FullZoom {
          zoom := zoom + 1;
        }
        landingPlanet := None;
      } else {
        fuel := Min(fuel + 1.0, capacity);
      }
      return true;
    }

    /** Whether the ship may begin to land on its target planet;
        `landingAllowed` is the planet's consent and the distance and speed
        check. */
    function CanLand(landingAllowed: bool): (r: bool)
      reads this`targetPlanet, this`isDisabled, this`attributes, this`hull, this`crew
      ensures r ==> targetPlanet.Some? && !isDisabled && 0.0 <= hull
    {
      targetPlanet.Some? && !isDisabled && !IsDestroyed() && landingAllowed
    }

    /** Whether the ship may begin a jump to its target system; `speedOk` is
        the speed (or scram drive) check and `facingOk` the hyperdrive's
        facing check. A ship only starts a jump it has the fuel for. */
    function CanHyperspace(speedOk: bool, facingOk: bool): (r: bool)
      reads this`attributes, this`hull, this`crew, this`targetSystem, this`fuel
      ensures r ==> targetSystem.Some? && fuel >= Get(attributes, "jump fuel") && HasDrive() && !IsDisabled()
    {
      !IsDisabled() && targetSystem.Some? && fuel >= Get(attributes, "jump fuel") && speedOk
      && (Get(attributes, "jump drive") != 0.0 || (Get(attributes, "hyperdrive") != 0.0 && facingOk))
    }

    /** A landing order starts a landing; otherwise a jump order starts a
        jump. */
    method BeginTravel(landingAllowed: bool, speedOk: bool, facingOk: bool)
      modifies this`landingPlanet, this`hyperspaceSystem
      ensures Land in commands.orders && CanLand(landingAllowed) ==>
        landingPlanet == targetPlanet && hyperspaceSystem == old(hyperspaceSystem)
      ensures !(Land in commands.orders && CanLand(landingAllowed)) && Jump in commands.orders
              && CanHyperspace(speedOk, facingOk) ==>
        hyperspaceSystem == targetSystem && landingPlanet == old(landingPlanet)
      ensures !(Land in commands.orders && CanLand(landingAllowed))
              && !(Jump in commands.orders && CanHyperspace(speedOk, facingOk)) ==>
        landingPlanet == old(landingPlanet) && hyperspaceSystem == old(hyperspaceSystem)
    {
      if Land in commands.orders && CanLand(landingAllowed) {
        landingPlanet := targetPlanet;
      } else if Jump in commands.orders && CanHyperspace(speedOk, facingOk) {
        hyperspaceSystem := targetSystem;
      }
    }

    /** Whether the cloak can be engaged this tick. */
    function CanCloak(): (r: bool)
      reads this`attributes, this`zoom, this`isDisabled, this`hyperspaceCount, this`fuel, this`energy
      ensures r ==> fuel >= Get(attributes, "cloaking fuel") && energy >= Get(attributes, "cloaking energy")
    {
      zoom == FullZoom && !isDisabled && hyperspaceCount == 0 && Get(attributes, "cloak") != 0.0
      && fuel >= Get(attributes, "cloaking fuel") && energy >= Get(attributes, "cloaking energy")
    }

    /** The cloak fades in while ordered and affordable, paying its fuel and
        energy, and fades out otherwise. */
    method CloakStep()
      modifies this`cloak, this`fuel, this`energy
      ensures Cloak in commands.orders && old(CanCloak()) ==>
        cloak == Min(1.0, old(cloak) + Get(attributes, "cloak"))
        && fuel == old(fuel) - Get(attributes, "cloaking fuel")
        && energy == old(energy) - Get(attributes, "cloaking energy")
      ensures !(Cloak in commands.orders && old(CanCloak())) ==>
        fuel == old(fuel) && energy == old(energy)
        && cloak == (if Get(attributes, "cloak") != 0.0 then Max(0.0, old(cloak) - Get(attributes, "cloak")) else 0.0)
      ensures 0.0 <= old(fuel) ==> 0.0 <= fuel
      ensures 0.0 <= old(energy) ==> 0.0 <= energy
      ensures 0.0 <= old(cloak) <= 1.0 && 0.0 <= Get(attributes, "cloak") ==> 0.0 <= cloak <= 1.0
    {
      var speed := Get(attributes, "cloak");
      if Cloak in commands.orders && CanCloak() {
        cloak := Min(1.0, cloak + speed);
        fuel := fuel - Get(attributes, "cloaking fuel");
        energy := energy - Get(attributes, "cloaking energy");
      } else if speed != 0.0 {
        cloak := Max(0.0, cloak - speed);
      } else {
        cloak := 0.0;
      }
    }

    /** The crew check: a spell of pilot error or of grace runs down first;
        when neither runs, a ship that needs crew rolls `roll` (uniform below
        its requirement) and errs for 30 ticks if the roll reaches its crew,
        and otherwise is fine for 30 ticks. */
    method PilotStep(roll: int)
      requires 0 <= roll && (RequiredCrew() != 0 ==> roll < RequiredCrew())
      modifies this`pilotError, this`pilotOkay
      ensures old(pilotError) != 0 ==> pilotError == old(pilotError) - 1 && pilotOkay == old(pilotOkay)
      ensures old(pilotError) == 0 && old(pilotOkay) != 0 ==> pilotError == 0 && pilotOkay == old(pilotOkay) - 1
      ensures old(pilotError) == 0 && old(pilotOkay) == 0 ==>
        if RequiredCrew() != 0 && roll >= crew then pilotError == PilotSpell && pilotOkay == 0
        else pilotError == 0 && pilotOkay == PilotSpell
      ensures old(pilotError) == 0 && crew >= RequiredCrew() ==> pilotError == 0
      ensures 0 <= old(pilotError) <= PilotSpell && 0 <= old(pilotOkay) <= PilotSpell ==>
        0 <= pilotError <= PilotSpell && 0 <= pilotOkay <= PilotSpell
    {
      var requiredCrew := RequiredCrew();
      if pilotError != 0 {
        pilotError := pilotError - 1;
      } else if pilotOkay != 0 {
        pilotOkay := pilotOkay - 1;
      } else if requiredCrew != 0 && roll >= crew {
        pilotError := PilotSpell;
      } else {
        pilotOkay := PilotSpell;
      }
    }

    /** The energy, fuel and heat side of steering: a disabled or erring
        ship does nothing; otherwise thrust, afterburner and turning each
        happen only if the ship can pay for them (a turn it cannot pay for is
        cancelled). Any steering order ends boarding. */
    method ThrustStep()
      modifies this`energy, this`heat, this`fuel, this`commands, this`isBoarding
      ensures isDisabled || pilotError != 0 ==>
        energy == old(energy) && heat == old(heat) && fuel == old(fuel) && commands == old(commands)
      ensures commands.orders == old(commands.orders)
      ensures commands.turn == old(commands.turn) || commands.turn == 0.0
      ensures 0.0 <= old(energy) ==> 0.0 <= energy
      ensures 0.0 <= old(fuel) ==> 0.0 <= fuel
      ensures isBoarding <==>
        old(isBoarding) && Forward !in commands.orders && Back !in commands.orders && commands.turn == 0.0
      ensures !isDisabled && pilotError == 0 ==>
        (Reserves(energy, heat, fuel), commands.turn) == Steered(old(Reserves(energy, heat, fuel)), old(commands), !CannotAct(),
                                                                 attributes)
    {
      if !isDisabled && pilotError == 0 {
        Steer();
      }
      if isBoarding && (Forward in commands.orders || Back in commands.orders || commands.turn != 0.0) {
        isBoarding := false;
      }
    }

    /** Thrust, afterburner and turning in that order, each paid from what
        the one before left. */
    method Steer()
      modifies this`energy, this`heat, this`fuel, this`commands
      ensures (Reserves(energy, heat, fuel), commands.turn)
              == Steered(old(Reserves(energy, heat, fuel)), old(commands), !CannotAct(), attributes)
      ensures commands.orders == old(commands.orders)
    {
      ghost var start := Reserves(energy, heat, fuel);
      Thrust();
      ghost var thrusted := Reserves(energy, heat, fuel);
      assert thrusted == Thrusted(start, commands.orders, attributes);
      Afterburn();
      ghost var burned := Reserves(energy, heat, fuel);
      assert burned == Afterburned(thrusted, commands.orders, !CannotAct(), attributes);
      Turn();
      assert (Reserves(energy, heat, fuel), commands.turn) == Turned(burned, old(commands.turn), attributes);
    }

    /** Forward or reverse thrust, paid in energy (and heat) only when the
        ship has the energy and the thrust capability for it. */
    method Thrust()
      modifies this`energy, this`heat
      ensures ThrustApplies(old(energy), commands.orders, attributes) ==>
        energy == old(energy) - ThrustStat(commands.orders, attributes, "thrusting energy", "reverse thrusting energy")
        && heat == old(heat) + ThrustStat(commands.orders, attributes, "thrusting heat", "reverse thrusting heat")
      ensures !ThrustApplies(old(energy), commands.orders, attributes) ==> energy == old(energy) && heat == old(heat)
      ensures 0.0 <= old(energy) ==> 0.0 <= energy
      ensures (Forward in commands.orders) == (Back in commands.orders) ==> energy == old(energy) && heat == old(heat)
    {
      var thrustCommand := (if Forward in commands.orders then 1 else 0) - (if Back in commands.orders then 1 else 0);
      if thrustCommand != 0 {
        var cost := Get(attributes, if thrustCommand > 0 then "thrusting energy" else "reverse thrusting energy");
        if energy >= cost && Get(attributes, if thrustCommand > 0 then "thrust" else "reverse thrust") != 0.0 {
          energy := energy - cost;
          heat := heat + Get(attributes, if thrustCommand > 0 then "thrusting heat" else "reverse thrusting heat");
        }
      }
    }

    /** The afterburner fires when ordered, when the ship can act, and when
        it has the thrust, fuel and energy; then it pays all three costs. */
    method Afterburn()
      modifies this`energy, this`heat, this`fuel
      ensures AfterburnerApplies(old(Reserves(energy, heat, fuel)), commands.orders, !CannotAct(), attributes) ==>
        energy == old(energy) - Get(attributes, "afterburner energy")
        && heat == old(heat) + Get(attributes, "afterburner heat")
        && fuel == old(fuel) - Get(attributes, "afterburner fuel")
      ensures !AfterburnerApplies(old(Reserves(energy, heat, fuel)), commands.orders, !CannotAct(), attributes) ==>
        energy == old(energy) && heat == old(heat) && fuel == old(fuel)
      ensures 0.0 <= old(energy) ==> 0.0 <= energy
      ensures 0.0 <= old(fuel) ==> 0.0 <= fuel
      ensures Afterburner !in commands.orders || CannotAct() ==>
        energy == old(energy) && heat == old(heat) && fuel == old(fuel)
    {
      if Afterburner in commands.orders && !CannotAct() {
        var thrust := Get(attributes, "afterburner thrust");
        var cost := Get(attributes, "afterburner fuel");
        var energyCost := Get(attributes, "afterburner energy");
        if !(thrust == 0.0 || fuel < cost || energy < energyCost) {
          heat := heat + Get(attributes, "afterburner heat");
          fuel := fuel - cost;
          energy := energy - energyCost;
        }
      }
    }

    /** A turn is paid in energy (and heat), or cancelled when the ship
        cannot pay for it. */
    method Turn()
      modifies this`energy, this`heat, this`commands
      ensures commands.orders == old(commands.orders)
      ensures commands.turn == old(commands.turn) || commands.turn == 0.0
      ensures energy < old(energy) ==> commands.turn == old(commands.turn) != 0.0
      ensures 0.0 <= old(energy) ==> 0.0 <= energy
      ensures commands.turn == 0.0 <==> old(commands.turn) == 0.0 || old(energy) < Get(attributes, "turning energy")
      ensures old(commands.turn) != 0.0 && old(energy) >= Get(attributes, "turning energy") ==>
        energy == old(energy) - Get(attributes, "turning energy") && heat == old(heat) + Get(attributes, "turning heat")
      ensures old(commands.turn) == 0.0 || old(energy) < Get(attributes, "turning energy") ==>
        energy == old(energy) && heat == old(heat)
    {
      if commands.turn != 0.0 {
        var cost := Get(attributes, "turning energy");
        if energy < cost {
          commands := commands.(turn := 0.0);
        } else {
          energy := energy - cost;
          heat := heat + Get(attributes, "turning heat");
        }
      }
    }

    /** One tick of a ship, in the order of the source: forgetting, clamping
        and cooling, supply, then the destroyed, hyperspace or landing phase,
        and for a ship in ordinary flight (a destroyed one that is still
        exploding included) travel orders, cloak, crew check and steering.
        The random rolls and the geometric checks are inputs. Returns false
        when the ship is to be deleted. */
    method Move(scoop: real, explosionRoll: int, explosionPlaced: bool, burstPlaced: nat, slowed: bool,
                wormholeExit: SystemId, landingAllowed: bool, speedOk: bool, facingOk: bool, pilotRoll: int)
      returns (keep: bool)
      requires 0 <= explosionRoll < 1024
      requires burstPlaced <= MaxInt(explosionTotal, 0)
      requires 0 <= pilotRoll && (RequiredCrew() != 0 ==> pilotRoll < RequiredCrew())
      modifies this`forget, this`isInSystem, this`hyperspaceSystem, this`energy, this`heat, this`isOverheated,
               this`shields, this`hull, this`isDisabled, this`fuel, this`fighterBays, this`droneBays,
               this`explosionRate, this`explosionCount, this`hyperspaceCount, this`currentSystem, this`targetSystem,
               this`targetPlanet, this`zoom, this`landingPlanet, this`cloak, this`pilotError, this`pilotOkay,
               this`commands, this`isBoarding
      ensures !isSpecial && old(forget) + (if old(isInSystem) then 0 else 1) >= ForgetLimit ==> !keep
      ensures old(currentSystem).None? ==> !keep
      ensures keep ==> !isInSystem && forget == old(forget) + (if old(isInSystem) then 0 else 1)
      ensures keep && !isDisabled ==> 0.0 <= energy
    {
      keep := ForgetStep();
      if !keep {
        return;
      }
      keep := Advance(scoop, explosionRoll, explosionPlaced, burstPlaced, slowed, wormholeExit, landingAllowed, speedOk,
                      facingOk, pilotRoll);
    }

    /** The rest of a tick for a ship that is kept: upkeep, then its phase. */
    method Advance(scoop: real, explosionRoll: int, explosionPlaced: bool, burstPlaced: nat, slowed: bool,
                   wormholeExit: SystemId, landingAllowed: bool, speedOk: bool, facingOk: bool, pilotRoll: int)
      returns (keep: bool)
      requires 0 <= explosionRoll < 1024
      requires burstPlaced <= MaxInt(explosionTotal, 0)
      requires 0 <= pilotRoll && (RequiredCrew() != 0 ==> pilotRoll < RequiredCrew())
      modifies this`hyperspaceSystem, this`energy, this`heat, this`isOverheated, this`shields, this`hull,
               this`isDisabled, this`fuel, this`fighterBays, this`droneBays, this`explosionRate, this`explosionCount,
               this`hyperspaceCount, this`currentSystem, this`targetSystem, this`targetPlanet, this`zoom,
               this`landingPlanet, this`cloak, this`pilotError, this`pilotOkay, this`commands, this`isBoarding
      ensures keep && !isDisabled ==> 0.0 <= energy
    {
      Upkeep(scoop);
      keep := Phases(explosionRoll, explosionPlaced, burstPlaced, slowed, wormholeExit, landingAllowed, speedOk,
                     facingOk, pilotRoll);
    }

    /** Clamping, cooling and supply: the overheated flag follows the
        hysteresis band on the decayed heat, the disabled flag is taken on
        the clamped hull, the hull repairs unless overheated, and an active
        ship scoops fuel and runs the supply step on the clamped pools, ending
        with energy in hand; a disabled ship keeps its clamped pools. */
    method Upkeep(scoop: real)
      modifies this`energy, this`heat, this`isOverheated, this`shields, this`hull, this`isDisabled, this`fuel,
               this`fighterBays, this`droneBays
      ensures isOverheated == NextOverheated(Decayed(old(heat), HeatRetention()), old(TotalMass()), old(isOverheated))
      ensures isDisabled == (isOverheated || Disabled(Min(old(hull), Get(attributes, "hull")), Get(attributes, "hull"),
                                                      crew, RequiredCrew()))
      ensures hull == Min(old(hull), Get(attributes, "hull"))
                      + (if isOverheated then 0.0 else Get(attributes, "hull repair rate"))
      ensures isDisabled ==>
        energy == Min(old(energy), Get(attributes, "energy capacity")) && heat == Decayed(old(heat), HeatRetention())
        && shields == Min(old(shields), Get(attributes, "shields")) && fuel == old(fuel)
        && fighterBays == old(fighterBays) && droneBays == old(droneBays)
      ensures !isDisabled ==>
        fuel == (if Get(attributes, "ramscoop") != 0.0
                 then old(fuel) - TransferAmount(-scoop, Tank(old(fuel), Get(attributes, "fuel capacity")), None)
                 else old(fuel))
      ensures !isDisabled ==>
        Supplied(Supply(Min(old(energy), Get(attributes, "energy capacity")), Min(old(shields), Get(attributes, "shields")),
                        Decayed(old(heat), HeatRetention()), old(fighterBays), old(droneBays)),
                 Supply(energy, shields, heat, fighterBays, droneBays), attributes)
      ensures !isDisabled ==> 0.0 <= energy
    {
      ClampAndCool();
      assert isDisabled == (isOverheated || Disabled(hull, Get(attributes, "hull"), crew, RequiredCrew()));
      Regenerate(scoop);
    }

    /** What follows the supply step: the destroyed, hyperspace or landing
        phase, or ordinary flight (also for a destroyed ship that is still
        exploding). */
    method Phases(explosionRoll: int, explosionPlaced: bool, burstPlaced: nat, slowed: bool, wormholeExit: SystemId,
                  landingAllowed: bool, speedOk: bool, facingOk: bool, pilotRoll: int) returns (keep: bool)
      requires 0 <= explosionRoll < 1024
      requires burstPlaced <= MaxInt(explosionTotal, 0)
      requires 0 <= pilotRoll && (RequiredCrew() != 0 ==> pilotRoll < RequiredCrew())
      modifies this`hyperspaceSystem, this`energy, this`heat, this`fuel, this`explosionRate, this`explosionCount,
               this`hyperspaceCount, this`currentSystem, this`targetSystem, this`targetPlanet, this`zoom,
               this`landingPlanet, this`cloak, this`pilotError, this`pilotOkay, this`commands, this`isBoarding
      ensures old(IsDestroyed()) ==> (!keep <==> old(explosionCount) == explosionTotal || forget != 0)
      ensures !old(IsDestroyed()) && (old(hyperspaceSystem).Some? || old(hyperspaceCount) != 0) ==>
        keep && JumpCounters() == HyperspaceTick(old(JumpCounters()), Get(attributes, "jump fuel"),
                                                 Get(attributes, "jump drive") != 0.0, slowed)
      ensures !old(IsDestroyed()) && old(hyperspaceSystem).None? && old(hyperspaceCount) == 0
              && (old(landingPlanet).Some? || old(zoom) < FullZoom) ==>
        var next := LandingTick(old(LandingCounters()), Get(attributes, "fuel capacity"), isSpecial,
                                personality.isFleeing, wormholeExit);
        (keep <==> next.Continuing?) && (keep ==> LandingCounters() == next.state)
      ensures !old(IsDestroyed()) && old(hyperspaceSystem).None? && old(hyperspaceCount) == 0
              && old(landingPlanet).None? && old(zoom) >= FullZoom ==>
        keep
      ensures keep && (old(IsDestroyed()) || (old(hyperspaceSystem).None? && old(hyperspaceCount) == 0
                                              && old(landingPlanet).None? && old(zoom) >= FullZoom)) ==>
        zoom == old(zoom) && hyperspaceCount == old(hyperspaceCount) && currentSystem == old(currentSystem)
      ensures !keep ==>
        IsDestroyed() || LandingTick(old(LandingCounters()), Get(attributes, "fuel capacity"), isSpecial,
                                     personality.isFleeing, wormholeExit).Vanished?
      ensures keep && 0.0 <= old(energy) ==> 0.0 <= energy
    {
      keep := true;
      if IsDestroyed() {
        keep := DestroyedStep(explosionRoll, explosionPlaced, burstPlaced);
        if !keep {
          return;
        }
      } else if hyperspaceSystem.Some? || hyperspaceCount != 0 {
        HyperspaceStep(slowed);
        return;
      } else if landingPlanet.Some? || zoom < FullZoom {
        keep := LandingStep(wormholeExit);
        return;
      }
      Fly(landingAllowed, speedOk, facingOk, pilotRoll);
    }

    /** Ordinary flight: travel orders, cloak, crew check and steering,
        the steering paying from what the cloak left. */
    method Fly(landingAllowed: bool, speedOk: bool, facingOk: bool, pilotRoll: int)
      requires 0 <= pilotRoll && (RequiredCrew() != 0 ==> pilotRoll < RequiredCrew())
      modifies this`landingPlanet, this`hyperspaceSystem, this`cloak, this`fuel, this`energy, this`pilotError,
               this`pilotOkay, this`heat, this`commands, this`isBoarding
      ensures Land in old(commands.orders) && old(CanLand(landingAllowed)) ==>
        landingPlanet == targetPlanet && hyperspaceSystem == old(hyperspaceSystem)
      ensures !(Land in old(commands.orders) && old(CanLand(landingAllowed))) && Jump in old(commands.orders)
              && old(CanHyperspace(speedOk, facingOk)) ==>
        hyperspaceSystem == targetSystem && landingPlanet == old(landingPlanet)
      ensures !(Land in old(commands.orders) && old(CanLand(landingAllowed)))
              && !(Jump in old(commands.orders) && old(CanHyperspace(speedOk, facingOk))) ==>
        landingPlanet == old(landingPlanet) && hyperspaceSystem == old(hyperspaceSystem)
      ensures Cloak in old(commands.orders) && old(CanCloak()) ==> cloak == Min(1.0, old(cloak) + Get(attributes, "cloak"))
      ensures !(Cloak in old(commands.orders) && old(CanCloak())) ==>
        cloak == (if Get(attributes, "cloak") != 0.0 then Max(0.0, old(cloak) - Get(attributes, "cloak")) else 0.0)
      ensures old(pilotError) != 0 ==> pilotError == old(pilotError) - 1
      ensures old(pilotError) == 0 && crew >= RequiredCrew() ==> pilotError == 0
      ensures isDisabled || pilotError != 0 ==>
        Reserves(energy, heat, fuel)
          == Cloaked(old(Reserves(energy, heat, fuel)), Cloak in old(commands.orders) && old(CanCloak()), attributes)
        && commands == old(commands)
      ensures !isDisabled && pilotError == 0 ==>
        (Reserves(energy, heat, fuel), commands.turn)
          == Steered(Cloaked(old(Reserves(energy, heat, fuel)), Cloak in old(commands.orders) && old(CanCloak()), attributes),
                     old(commands), !CannotAct(), attributes)
      ensures 0.0 <= old(energy) ==> 0.0 <= energy
      ensures 0.0 <= old(fuel) ==> 0.0 <= fuel
    {
      ghost var start, engaged := Reserves(energy, heat, fuel), Cloak in commands.orders && CanCloak();
      BeginTravel(landingAllowed, speedOk, facingOk);
      assert start == Reserves(energy, heat, fuel) && engaged == (Cloak in commands.orders && CanCloak());
      Manoeuvre(pilotRoll);
    }

    /** The cloak, the crew check and steering, the steering paying from
        what the cloak left. */
    method Manoeuvre(pilotRoll: int)
      requires 0 <= pilotRoll && (RequiredCrew() != 0 ==> pilotRoll < RequiredCrew())
      modifies this`cloak, this`fuel, this`energy, this`pilotError, this`pilotOkay, this`heat, this`commands,
               this`isBoarding
      ensures Cloak in old(commands.orders) && old(CanCloak()) ==> cloak == Min(1.0, old(cloak) + Get(attributes, "cloak"))
      ensures !(Cloak in old(commands.orders) && old(CanCloak())) ==>
        cloak == (if Get(attributes, "cloak") != 0.0 then Max(0.0, old(cloak) - Get(attributes, "cloak")) else 0.0)
      ensures old(pilotError) != 0 ==> pilotError == old(pilotError) - 1
      ensures old(pilotError) == 0 && crew >= RequiredCrew() ==> pilotError == 0
      ensures isDisabled || pilotError != 0 ==>
        Reserves(energy, heat, fuel)
          == Cloaked(old(Reserves(energy, heat, fuel)), Cloak in old(commands.orders) && old(CanCloak()), attributes)
        && commands == old(commands)
      ensures !isDisabled && pilotError == 0 ==>
        (Reserves(energy, heat, fuel), commands.turn)
          == Steered(Cloaked(old(Reserves(energy, heat, fuel)), Cloak in old(commands.orders) && old(CanCloak()), attributes),
                     old(commands), !CannotAct(), attributes)
      ensures 0.0 <= old(energy) ==> 0.0 <= energy
      ensures 0.0 <= old(fuel) ==> 0.0 <= fuel
    {
      ghost var start := Reserves(energy, heat, fuel);
      ghost var engaged := Cloak in commands.orders && CanCloak();
      CloakStep();
      assert Reserves(energy, heat, fuel) == Cloaked(start, engaged, attributes);
      PilotStep(pilotRoll);
      ThrustStep();
    }

    // -------------------------------------------------------------------
    // Escorts

    method AddEscort(escort: Escort)
      modifies this`escorts
      ensures escorts == old(escorts) + [escort]
      ensures escort !in old(escorts) ==> RemoveFirst(escorts, escort) == old(escorts)
    {
      escorts := escorts + [escort];
      if escort !in old(escorts) {
        AddThenRemove(old(escorts), escort);
      }
    }

    /** Erase the first escort entry that refers to `escort`. */
    method RemoveEscort(escort: Escort)
      modifies this`escorts
      ensures escorts == RemoveFirst(old(escorts), escort)
    {
      var i := 0;
      while i < |escorts|
        invariant 0 <= i <= |escorts|
        invariant escorts == old(escorts)
        invariant escort !in escorts[..i]
      {
        if escorts[i] == escort {
          var first := FirstIndex(escorts, escort);
          assert first == i;
          escorts := escorts[..i] + escorts[i + 1..];
          return;
        }
        assert escorts[..i + 1] == escorts[..i] + [escorts[i]];
        i := i + 1;
      }
      assert escorts[..i] == escorts;
    }
  }
}
