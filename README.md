# Ship resource economy

A Dafny model of the per-ship resource economy of the game's `Ship` class
(`trunk/Ship.cpp`). It covers the pools a ship carries: shields, hull,
energy, fuel, heat and crew. It also covers the counters that drive one
tick of `Ship::Move`:

- forgetting a ship that is away from the player;
- clamping, cooling and the overheat hysteresis;
- regeneration, including topping up docked fighters and drones;
- the explosion, hyperspace and landing phases;
- the cloak, the crew check and steering costs.

Beside `Move` it models:

- the damage model and the disabled/destroyed predicates;
- fuel transfer, refuelling and jump counting;
- capture, with its crew split;
- repair on landing;
- the outfit count map and the weapon resource gate;
- the carried-craft bays;
- the escort list;
- the license lookup.

Layout:

- `basics.dfy` (`Basics`): `Option`, identifiers, the attribute bag (a map
  of stats read with default 0), C++-style truncation and integer division.
- `resources.dfy` (`Resources`): the value-level rules. These are the
  minimum hull, required crew, disabled, gauges, heat dissipation and its
  steady state, overheat hysteresis, shield debt, damage absorption, fuel
  transfer, jumps, the capture crew share, the hyperspace counter and the
  landing counter.
- `outfits.dfy` (`Outfits`): installed counts with erase-on-zero, the
  scaled attribute sum, and the firing gate.
- `bays.dfy`: two modules.
  - `Bays` holds bays as sequences of optional craft records, with free
    counts, the carried list in order, and first-free-slot docking. It also
    holds the regeneration top-up, which hands the carrier's excess shields
    to docked craft in bay order.
  - `BayLoops` holds the loops the source runs over the bay vectors, each
    proved against a `Bays` function.
- `links.dfy` (`Links`): the escort list (append, erase first match) and
  the license table lookup with its universal fallback.
- `ships.dfy` (`Ships`): the class `Ship`. It holds the mutable fields,
  the queries as functions with field-granular `reads`, and every operation
  as a method with field-granular `modifies`, so "nothing else changes"
  follows from each frame. `SupplyTick` states the regeneration step as a
  function, with its conservation and bounds.

Inputs that the source takes from elsewhere are method parameters:

- random draws: the explosion roll below 1024 and the pilot-error roll
  below the required crew;
- geometric gates: landing distance and speed, jump speed, and hyperdrive
  facing;
- whether an explosion found a spot on the hull, and how many of a dying
  ship's final burst did;
- whether a ship slowed to cruising speed leaving hyperspace;
- the wormhole's exit system;
- the ramscoop intake, which the source computes with a square root;
- whether the shooter's government is hostile.

Three behaviours of the code worth noting:

- Hyperspace fuel. The code debits one unit of fuel on every tick while a
  jump target is set, plus `jump fuel - 100` on arrival
  (`trunk/Ship.cpp:534`, `568`). It is not debited once when the jump
  starts. `HyperspaceTick` and `JumpArrives` state exactly this.
- Destroyed ships in flight. A destroyed ship that has not finished
  exploding falls through to the ordinary flight section of `Move`
  (`trunk/Ship.cpp:512-530`). `Ships.Ship.Phases` follows that.
- Landing zoom. Zoom is counted in whole steps of 0.02, full size being
  50 steps (`Resources.FullZoom`). In the source's doubles, 1.0 less fifty
  times 0.02 ends just below zero, so a descent from full size takes its
  `zoom < 0` branch (`trunk/Ship.cpp:631-650`) on its 50th tick. The model
  takes that branch on the step that reaches zero (`Resources.Touchdown`).

## Model

| member | source | states |
|---|---|---|
| Resources.MinimumHull | trunk/Ship.cpp:1723-1727 | The minimum hull is at least a fifth of the maximum and at least the smaller of half the maximum and 400. It is exactly half below 800, exactly 400 from 800 to 2000, and exactly a fifth above 2000. |
| Resources.RequiredCrew | trunk/Ship.cpp:1308-1313 | Required crew is never negative, is at least 1 for every category but "Drone", and is at least the truncated "required crew" stat. It equals that stat or the category floor. |
| Resources.DestroyedIsDisabled | trunk/Ship.cpp:1037-1042 | A ship with negative hull (and non-negative maximum) is disabled. |
| Resources.DisabledCases | trunk/Ship.cpp:1037-1042 | With crew aboard, disabled holds exactly when hull is below the minimum hull. With no crew and a nonzero requirement, it always holds. |
| Resources.Fraction | trunk/Ship.cpp:1251-1297 | A gauge with zero maximum shows its fallback. Otherwise it is at most 1, it is 1 exactly when the value reaches the maximum, it is non-negative for a non-negative value, and it is the exact ratio below the maximum. |
| Resources.HeatDissipation | trunk/Ship.cpp:122-126 | A zero stat gives a retention of 0.999. For stats in (0, 1000] the retention lies in [0, 1). It is never 1. |
| Resources.EquilibriumHeat | trunk/Ship.cpp:1229 | The repaired heat level is non-negative when retention is below 1. |
| Resources.EquilibriumIsSteady | trunk/Ship.cpp:1229 | Heat set by `Recharge` is a fixed point of one tick of decay (line 430), generation and cooling (lines 458-460). |
| Resources.NextOverheated | trunk/Ship.cpp:431-434 | The ship overheats above 100 times the mass, recovers below 90 times the mass, and keeps its flag in between. |
| Resources.OverheatLatches | trunk/Ship.cpp:431-434 | Any number of ticks with heat inside the band leaves the overheated flag as it was. |
| Resources.SettleShieldDebt | trunk/Ship.cpp:503-507 | Energy ends non-negative and energy plus shields is conserved. A non-negative balance is untouched, and a deficit is taken from shields. |
| Resources.AbsorbHit | trunk/Ship.cpp:1441-1455 | Shields never rise and never go negative. When shields hold, hull is untouched. Heat rises by at most the heat damage. |
| Resources.ShieldsHold | trunk/Ship.cpp:1441-1445 | When shields exceed the shield damage, shields fall by exactly that much, hull is unchanged and heat rises by half the heat damage. |
| Resources.ShieldsFail | trunk/Ship.cpp:1446-1455 | Otherwise, with nonzero shield damage, shields drop to 0 and hull falls by the hull damage times (1 - shields/shieldDamage). Heat rises by the full heat damage. |
| Resources.NoShieldDamage | trunk/Ship.cpp:1446-1455 | With no shield damage, a ship whose shields are exactly 0 takes the full hull damage. One with negative shields takes nothing at all. |
| Resources.DamageExamples | trunk/Ship.cpp:1441-1455 | Shields 50 against 80 shield damage and 40 hull damage cost 15 hull. Shields 100 against 30 shield damage leave 70 shields and the hull intact. |
| Resources.TransferAmount | trunk/Ship.cpp:1332-1342 | With no recipient the sender ends at or below its capacity. With a recipient, the recipient ends at or below its own capacity. An amount the sender can give is moved unchanged. |
| Resources.JumpsRemaining | trunk/Ship.cpp:1275-1281 | No jump fuel means 0 jumps. Otherwise the count is the largest n with n jumps' fuel on hand. |
| Resources.RefuelLeavesBothAJump | trunk/Ship.cpp:1324-1342 | When `CanRefuel` holds and the helper gives the other ship one jump's fuel, the helper keeps its own jump and (with room in its tank for a jump) the other ship ends with at least one jump. |
| Resources.AtLeastOneJump | trunk/Ship.cpp:1275-1281 | A tank holding at least one jump's fuel can make at least one jump. |
| Resources.CaptureTransfer | trunk/Ship.cpp:1355-1360 | When the capturer covers both requirements, exactly the required crew moves. Otherwise at least one moves, never more than the capturer has, and no more than its proportional share. |
| Resources.JumpGate | trunk/Ship.cpp:419-420 | A pending jump survives only with fuel and a drive. The counter, fuel and system are untouched. |
| Resources.HyperspaceTick | trunk/Ship.cpp:532-620 | While a target is set, the counter rises by one and one unit of fuel is spent. At 100 the ship arrives, pays `jump fuel - 100` more and drops the target. Without a target the counter falls back, and a slowed hyperdrive ship resets it. |
| Resources.JumpProgress | trunk/Ship.cpp:534-538 | After k < 100 ticks of a pending jump, the counter is k, exactly k units of fuel are spent, and nothing else has changed. |
| Resources.JumpArrives | trunk/Ship.cpp:534-570 | After 100 ticks the ship is in the target system, has paid exactly its jump fuel, and has no target. |
| Resources.Touchdown | trunk/Ship.cpp:632-650 | A wormhole sends the ship to its exit system with target and landing planet cleared and zoom 0. Otherwise the ship vanishes exactly when it is not special or is fleeing, and a special ship that is not fleeing stays landed at zoom 0. |
| Resources.LandingTick | trunk/Ship.cpp:622-666 | Zoom stays within full size and fuel never rises past capacity. Fuel never falls, except to capacity. A landing ship shrinks one step, and the step to zero is its touchdown. It vanishes exactly on that step, on a true planet, when it is not special or is fleeing. A ship with no landing planet grows one step up to full size. |
| Resources.DescentTouchesDown | trunk/Ship.cpp:626-650 | A descent from zoom k ends, after exactly k ticks, in its touchdown. |
| Resources.LandingFromFullSize | trunk/Ship.cpp:626-650 | Fifty ticks after a landing starts at full size, the ship is through the wormhole at its exit, or removed, or (special and not fleeing) landed at zoom 0. |
| Resources.TakeOffGrows | trunk/Ship.cpp:653-657 | A ship taking off grows one step per tick until it is back at full size. |
| Resources.SpaceportRefuels | trunk/Ship.cpp:659-660 | A landed ship at a spaceport that is not full gains min(fuel + 1, capacity) fuel and stays landed. |
| Resources.FullTankTakesOff | trunk/Ship.cpp:652-657 | A landed ship with a full tank starts taking off: zoom rises by one step (0.02) and the landing planet is cleared. |
| Resources.RefuelReachesCapacity | trunk/Ship.cpp:659-660 | Enough refuelling ticks fill the tank exactly to capacity. |
| Outfits.CountOf | trunk/Ship.cpp:1613-1617 | A missing outfit counts 0. With no zero entries, a count is nonzero exactly when the outfit has an entry. |
| Outfits.AddCount | trunk/Ship.cpp:1641-1650 | The outfit's count changes by exactly `count` and no other count changes. The no-zero-entry invariant is preserved, and no new keys appear but this one. |
| Outfits.AddCountUndo | trunk/Ship.cpp:1641-1650 | Installing and removing the same number restores the exact map, entries included. |
| Outfits.AddScaled | trunk/Ship.cpp:1651 | Every stat grows by count times the outfit's stat. |
| Outfits.AddScaledUndo | trunk/Ship.cpp:1651 | Removing what was installed restores every stat. |
| Outfits.CanFireWith | trunk/Ship.cpp:1676-1696 | A weapon passes exactly when its ammunition (if it uses any) is in stock and its firing energy and fuel are on hand. After paying its firing energy and fuel neither goes negative, and spending one round leaves a non-negative count. |
| Bays.Empty | trunk/Ship.cpp:1549-1556 | n bays, all empty. |
| Bays.FreeCount | trunk/Ship.cpp:1497-1513 | The free count is at most the number of bays. It is 0 exactly when every bay is full, and equals the number of bays exactly when all are empty. |
| Bays.Carried | trunk/Ship.cpp:1576-1586 | Carried craft plus free bays account for every bay. |
| Bays.CarriedMembers | trunk/Ship.cpp:1576-1586 | A craft is listed exactly when some bay holds it. |
| Bays.CarriedAppend | trunk/Ship.cpp:1576-1586 | The list of two bay vectors is the first's list followed by the second's. |
| Bays.FirstFree | trunk/Ship.cpp:1528-1534 | The first free bay is empty and every earlier bay is full. There is none exactly when no bay is free. |
| Bays.FillBayCount | trunk/Ship.cpp:1531 | Filling an empty bay lowers the free count by one. |
| Bays.FillBayCarried | trunk/Ship.cpp:1531 | Filling an empty bay inserts the craft into the carried list at its bay's position. The multiset grows by exactly that craft. |
| Bays.CarriedMass | trunk/Ship.cpp:1387-1396 | Carried mass is non-negative when every craft's mass is, and 0 when every bay is empty. |
| Bays.Stowed | trunk/Ship.cpp:1532-1533 | A docked craft has no system, no planet, no destination and zoom 0. Nothing else about it changes. |
| Bays.Released | trunk/Ship.cpp:1545-1546 | A released craft takes the carrier's system and landing planet, has no destination and zoom 0. Nothing else changes. |
| Bays.ReleaseAll | trunk/Ship.cpp:1541-1557 | Each craft in the list is released, in order. |
| Bays.TopUp | trunk/Ship.cpp:474-483 | Only shields change. They end between regenerated and maximum, and what the craft gains beyond regeneration is exactly what the excess loses. Leftover excess means the craft is full. |
| Bays.ChargeBays | trunk/Ship.cpp:470-499 | Occupancy and craft are kept. Each craft ends between its regenerated shields and its maximum. The excess never grows and stays non-negative. |
| Bays.NoExcessNoExtra | trunk/Ship.cpp:478 | Without excess no craft gets more than its own regeneration. |
| Bays.ChargeConserves | trunk/Ship.cpp:470-499 | The docked craft's shields plus the leftover equal their regenerated shields plus the excess handed in. |
| Bays.LeftoverMeansFull | trunk/Ship.cpp:478-483 | If excess is left over, every docked craft is full. |
| Bays.ChargeInOrder | trunk/Ship.cpp:470-483 | A later bay gets extra only if every earlier docked craft is full. |
| Bays.ChargeInSequence | trunk/Ship.cpp:470-499 | Charging two lists one after the other is charging their concatenation. |
| Bays.DronesAfterFighters | trunk/Ship.cpp:470-499 | A drone gets extra only if every docked fighter is full. |
| BayLoops.CountFree | trunk/Ship.cpp:1497-1503 | The counting loop returns `FreeCount`. |
| BayLoops.ListCarried | trunk/Ship.cpp:1576-1586 | The collecting loop returns `Carried`. |
| BayLoops.SumMass | trunk/Ship.cpp:1389-1395 | The summing loop returns `CarriedMass`. |
| BayLoops.Dock | trunk/Ship.cpp:1527-1536 | The craft, stowed, fills the first free bay exactly when one is free; otherwise nothing changes. On success the free count drops by one and the carried multiset gains the craft. |
| BayLoops.Unload | trunk/Ship.cpp:1543-1549 | Every bay ends empty and the released craft are the carried list, each released. |
| BayLoops.ChargeList | trunk/Ship.cpp:470-484 | The top-up loop computes `ChargeBays`. |
| Links.FirstIndex | trunk/Ship.cpp:1856-1859 | The index holds the entry and no earlier entry equals it. |
| Links.RemoveFirst | trunk/Ship.cpp:1854-1863 | An absent entry leaves the list unchanged. Otherwise the result is the list with its first matching entry cut out and the order of the rest kept, so the list loses one element and its multiset exactly that entry. |
| Links.AddThenRemove | trunk/Ship.cpp:1837-1863 | Appending a new escort and removing it gives back the list. |
| Links.LicenseLookup | trunk/Ship.cpp:281-291 | A government's own entry wins. Without one the universal entry is used, or nothing. |
| Links.FallbackIsUniversal | trunk/Ship.cpp:281-291 | A government without an entry needs exactly the universal licenses, and giving it an entry overrides them. |
| Ships.SupplyTick | trunk/Ship.cpp:449-508 | The regeneration step for an active ship. Energy and heat end non-negative, and shields never end above their maximum once within it. Bays keep their length and every docked craft ends between regenerated and full. Energy plus shields plus docked shields equals the old totals plus energy generation and the craft's own regeneration. |
| Ships.SuppliedIsSupplyTick | trunk/Ship.cpp:457-508 | The source's supply steps, `Supplied`, relate two states exactly when the second is `SupplyTick` of the first, so every property of `SupplyTick` holds of them. |
| Ships.RepayShieldDebt | trunk/Ship.cpp:503-507 | A negative energy balance is paid back out of the shields and energy is set to 0, as `SettleShieldDebt` states. |
| Ships.SupplyFightersFirst | trunk/Ship.cpp:470-499 | Surplus reaches a drone only when every docked fighter is full. |
| Ships.Ship.HeatRetention | trunk/Ship.cpp:122-126 | The retention factor is never 1. |
| Ships.Ship.RequiredCrew | trunk/Ship.cpp:1308-1313 | As `Resources.RequiredCrew`, for this ship's category and stat. |
| Ships.Ship.MinimumHull | trunk/Ship.cpp:1723-1727 | Between a fifth and a half of the maximum hull. |
| Ships.Ship.IsDisabled | trunk/Ship.cpp:1037-1042 | Below the minimum hull, or crewless with a crew requirement, the ship is disabled. With crew (or no requirement) it is disabled exactly when below the minimum. |
| Ships.Ship.IsDestroyed | trunk/Ship.cpp:1243-1246 | A destroyed ship is disabled. |
| Ships.Ship.ShouldDelete | trunk/Ship.cpp:1380-1383 | An intact ship is deleted exactly when it has landed for good and is not special. A special one only once destroyed and fully exploded. |
| Ships.Ship.CannotAct | trunk/Ship.cpp:1716-1719 | Disabled, erring or jumping ships cannot act. One that can act is full size and uncloaked. |
| Ships.Ship.ShieldsFraction | trunk/Ship.cpp:1251-1255 | 0 with no shields. Otherwise in [0, 1] for non-negative shields. |
| Ships.Ship.HullFraction | trunk/Ship.cpp:1259-1263 | 1 with no hull. Otherwise in [0, 1] for non-negative hull. |
| Ships.Ship.FuelFraction | trunk/Ship.cpp:1267-1271 | 0 with no tank. Otherwise in [0, 1] for non-negative fuel. |
| Ships.Ship.EnergyFraction | trunk/Ship.cpp:1285-1289 | With no battery it is 1 exactly when hull is positive and 0 otherwise. Otherwise in [0, 1]. |
| Ships.Ship.Mass | trunk/Ship.cpp:1387-1396 | Docked craft plus cargo plus hull mass. |
| Ships.Ship.HeatFraction | trunk/Ship.cpp:1293-1297 | 1 for a massless ship. Otherwise in [0, 1], reaching 1 exactly at 100 heat per unit of mass. |
| Ships.Ship.JumpsRemaining | trunk/Ship.cpp:1275-1281 | 0 without jump fuel. Otherwise the number of whole jumps the tank holds. |
| Ships.Ship.CanRefuel | trunk/Ship.cpp:1324-1328 | After sparing the other ship's jump fuel, this ship keeps its own, so it can still jump. |
| Ships.Ship.Licenses | trunk/Ship.cpp:281-291 | Own entry first, then the universal one. |
| Ships.Ship.OutfitCount | trunk/Ship.cpp:1613-1617 | 0 for an uninstalled outfit. Nonzero exactly when installed, given the no-zero-entry invariant. |
| Ships.Ship.CanFire | trunk/Ship.cpp:1676-1696 | True exactly for a weapon whose ammunition, if it uses any, is installed with a positive count, and whose firing energy and fuel the ship has. |
| Ships.Ship.TransferFuel | trunk/Ship.cpp:1332-1342 | The sender loses exactly what the recipient gains, and that is the return value. The recipient stays within its capacity; without a recipient the sender ends within its own. |
| Ships.Ship.SetParent | trunk/Ship.cpp:1844-1850 | The new parent is set and every target is cleared. |
| Ships.Ship.WasCaptured | trunk/Ship.cpp:1346-1375 | Hull is raised to the minimum hull and the government becomes the capturer's. Crew moves by `CaptureTransfer`, with the total conserved. The ship follows the capturer with targets, orders and jump cleared; it is no longer disabled and takes the capturer's special status and personality. A ship with crew is no longer disabled by its hull or crew. |
| Ships.Ship.ShareCrew | trunk/Ship.cpp:1355-1361 | The capturer loses exactly what the captured ship gains. |
| Ships.Ship.JoinCapturer | trunk/Ship.cpp:1363-1374 | Government, parent, cleared targets and orders, no pending jump, special status and personality. |
| Ships.Ship.Recharge | trunk/Ship.cpp:1210-1230 | A destroyed ship is left alone. At a spaceport, crew is raised to the requirement and fuel filled. Pilot error is cleared. Unless derelict, shields, hull and energy are filled. Heat goes to the steady level. A non-derelict ship repaired at a spaceport is not disabled. |
| Ships.Ship.Absorb | trunk/Ship.cpp:1441-1455 | Shields, hull and heat change exactly as `AbsorbHit` gives for the weapon. |
| Ships.Ship.TakeDamage | trunk/Ship.cpp:1427-1476 | Pools change by `AbsorbHit` and boarding ends. Disable and Destroy are reported exactly on the hit that crosses the line, so an already destroyed ship never reports Destroy. Provoke follows the direct-hit, non-hostile and hurt-or-not-forbearing rule. |
| Ships.Ship.AddOutfit | trunk/Ship.cpp:1637-1658 | No outfit or a zero count changes nothing. Otherwise the count map is updated with erase-on-zero and the stats are scaled in. |
| Ships.Ship.ExpendAmmo | trunk/Ship.cpp:1702-1712 | One round is removed and the firing energy, fuel and heat are applied. After a shot `CanFire` allowed, nothing is overdrawn. |
| Ships.Ship.FighterBaysFree | trunk/Ship.cpp:1497-1503 | The number of empty fighter bays. |
| Ships.Ship.DroneBaysFree | trunk/Ship.cpp:1507-1513 | The number of empty drone bays. |
| Ships.Ship.CarriedShips | trunk/Ship.cpp:1576-1586 | Docked fighters in bay order, then docked drones. |
| Ships.Ship.AddFighter | trunk/Ship.cpp:1517-1537 | No craft, or a category other than fighter or drone, is refused with nothing changed. A fighter docks only in the fighter bays and a drone only in the drone bays, in the first free one, stowed. A full list refuses it unchanged. On success the free count drops by one. |
| Ships.Ship.UnloadFighters | trunk/Ship.cpp:1541-1557 | All bays end empty. The released craft are the docked ones, fighters first, each placed in the carrier's system and landing planet. |
| Ships.Ship.ForgetStep | trunk/Ship.cpp:416-421 | The forget counter rises when out of the player's system. The ship is kept exactly when special or under 1000 and in a system, and then the pending jump is gated. |
| Ships.Ship.ClampEnergy | trunk/Ship.cpp:428 | Energy is clamped to the battery capacity. |
| Ships.Ship.Cool | trunk/Ship.cpp:430-434 | Heat decays by the retention factor (`Decayed`). The overheated flag is set above 100 heat per unit of mass, cleared below 90, and kept in between. |
| Ships.Ship.ClampHealth | trunk/Ship.cpp:436-439 | Shields and hull are clamped to their maxima. The disabled flag becomes overheated-or-disabled on the clamped hull. |
| Ships.Ship.ClampAndCool | trunk/Ship.cpp:428-439 | Energy, shields and hull are clamped to their maxima and heat decays. Overheat follows the hysteresis on the total mass, and the disabled flag is refreshed. |
| Ships.Ship.Regenerate | trunk/Ship.cpp:442-508 | Hull repairs unless overheated. A disabled ship changes nothing else. An active one scoops fuel as `TransferFuel` allows and ends its pools and bays as `Supplied` relates them (that is, as `SupplyTick` gives), with energy non-negative. |
| Ships.Ship.SupplyStep | trunk/Ship.cpp:457-508 | The generation and bay loops take the pools and bays from the old state to the new one as `Supplied` states, and so compute `SupplyTick`. |
| Ships.Ship.DestroyedStep | trunk/Ship.cpp:512-530 | All exploded or forgotten: the ship is emptied and deleted, and unless forgotten the explosions of its final burst that landed are counted. Otherwise the rate rises by one and one more explosion counts when the roll is below it and lands. |
| Ships.Ship.HyperspaceStep | trunk/Ship.cpp:532-620 | The counters move as `HyperspaceTick`, and targets are dropped on arrival only. |
| Ships.Ship.LandingStep | trunk/Ship.cpp:622-666 | The counters move as `LandingTick`, so a descent touches down on the step to zero. The ship is deleted exactly when that says it vanished. |
| Ships.Ship.CanLand | trunk/Ship.cpp:1061-1073 | Landing needs a target planet and a ship neither disabled nor destroyed. |
| Ships.Ship.CanHyperspace | trunk/Ship.cpp:1078-1111 | A jump needs a target, the jump fuel, a drive, and a ship not disabled. |
| Ships.Ship.BeginTravel | trunk/Ship.cpp:668-671 | A landing order takes precedence over a jump order. Each sets its target only when allowed, and nothing changes otherwise. |
| Ships.Ship.CanCloak | trunk/Ship.cpp:673-676 | The cloak engages only with its fuel and energy on hand. |
| Ships.Ship.CloakStep | trunk/Ship.cpp:673-686 | An affordable cloak order fades in and pays; otherwise the cloak fades out at no cost. Fuel, energy and the cloak level stay in range. |
| Ships.Ship.PilotStep | trunk/Ship.cpp:688-699 | Spells of error and grace run down. A fresh roll at or above the crew starts a 30-tick error, otherwise a 30-tick grace, so a fully crewed ship never errs. Both counters stay within 0..30. |
| Ships.Ship.ThrustStep | trunk/Ship.cpp:702-785 | A disabled or erring ship pays nothing. Otherwise its energy, heat, fuel and turn end exactly as `Steered` gives from the old ones, so energy and fuel stay non-negative and an unaffordable turn is cancelled. Any steering order ends boarding. |
| Ships.Ship.Steer | trunk/Ship.cpp:708-780 | Thrust, afterburner and turning, each paying from what the one before left: the reserves and the turn end as `Steered` gives, and the orders are kept. |
| Ships.Ship.Thrust | trunk/Ship.cpp:708-732 | When a single direction is ordered, its energy is on hand and the ship has that thrust, exactly that direction's energy is paid and its heat added. Otherwise energy and heat are unchanged, so non-negative energy stays non-negative. |
| Ships.Ship.Afterburn | trunk/Ship.cpp:733-765 | When ordered by a ship that can act, with afterburner thrust and its fuel and energy on hand, exactly the afterburner fuel and energy are paid and its heat added. Otherwise nothing changes, so neither pool goes negative. |
| Ships.Ship.Turn | trunk/Ship.cpp:768-780 | The turn is cancelled exactly when it was already 0 or the turning energy is not on hand. A paid turn costs exactly the turning energy and adds the turning heat; otherwise energy and heat are unchanged. The orders are kept. |
| Ships.Ship.Fly | trunk/Ship.cpp:668-785 | The travel orders as `BeginTravel` states them, then the cloak level, the crew check and the reserves as `Manoeuvre` states them, all in terms of the state before the flight step. |
| Ships.Ship.Manoeuvre | trunk/Ship.cpp:673-785 | The cloak fades in or out as ordered and affordable. Error spells run down and a fully crewed ship does not start one. A disabled or erring ship keeps what the cloak left (`Cloaked`); otherwise steering pays from it exactly as `Steered` gives. Energy and fuel stay non-negative. |
| Ships.SteeringNeverOverdraws | trunk/Ship.cpp:708-780 | Steering keeps non-negative energy and fuel non-negative, keeps or cancels the turn, and leaves the reserves alone when no ordered manoeuvre is affordable. |
| Ships.Ship.Phases | trunk/Ship.cpp:512-785 | The phase that runs is the one the source picks. A destroyed ship is dropped exactly when fully exploded or forgotten. A jumping ship is kept and its counters move as `HyperspaceTick`. A landing or growing ship moves as `LandingTick` and is dropped exactly when that says it vanished. Otherwise the ship is kept with its zoom, jump counter and system untouched. A ship dropped was destroyed or vanished on landing. A kept ship keeps non-negative energy. |
| Ships.Ship.Upkeep | trunk/Ship.cpp:428-508 | The overheated flag follows the hysteresis on the decayed heat and the old mass. The disabled flag is taken on the clamped hull, and the hull then repairs unless overheated. A disabled ship keeps its clamped energy and shields, its decayed heat, its fuel and its bays. An active one scoops fuel and ends as `Supplied` relates it to the clamped, decayed state, with energy non-negative. |
| Ships.Ship.Move | trunk/Ship.cpp:412-829 | A forgotten ordinary ship and a ship in no system are deleted. A kept ship has its in-system flag reset and its forget counter advanced, and an active kept ship ends the tick with non-negative energy. |
| Ships.Ship.Advance | trunk/Ship.cpp:428-785 | After upkeep and the phase, a kept active ship has non-negative energy. |
| Ships.Ship.AddEscort | trunk/Ship.cpp:1837-1840 | The escort is appended. A new escort removed again gives back the list. |
| Ships.Ship.RemoveEscort | trunk/Ship.cpp:1854-1863 | The erase loop cuts out the first matching entry and keeps the order of the rest (an expired reference matches an absent ship). |

## Left out

- Loading, saving and `FinishLoading`'s catalog lookups (`trunk/Ship.cpp:35-255`): they read and write the data-file format through classes that are not part of this model. The constructor stands in for a loaded ship, and `HeatDissipation` models the one rule of `FinishLoading` used here.
- Positions, velocities and angles: the model has no 2-D geometry. Motion, drag, hit force (`ApplyForce`), hyperspace exit placement, the hyperspace offset, landing approach and the boarding approach and docking are left out. The gates they feed are boolean inputs.
- Boarding start: `isBoarding` is only ever cleared in the model. Setting it and `hasBoarded` depend on distances and speeds.
- Visual effects: explosions (`CreateExplosion`), the final burst of explosions, jump particles and afterburner flares. Whether an explosion lands on the hull is the input `explosionPlaced`, and how many of the final burst land is the input `burstPlaced`.
- `Launch`, `Board`, `Scan`, `Fire` and `FireAntiMissile`: they depend on cargo, armament and projectile classes that are not part of this model.
- Armament bookkeeping in `AddOutfit` (`armament.Add`) and the cargo hold resize.
- `AddOutfit`: the attribute aggregation of the Outfit class is modelled as a pointwise sum scaled by the count (`AddScaled`). Category changes through outfits are not modelled; the category is fixed.
- Messages to the player.
- Floating point: pools are exact reals and the source's doubles are not rounded.
- Resources.LandingTick and Ships.Ship.LandingStep: zoom is a whole number of 0.02 steps, so the double rounding the source relies on to reach its `zoom < 0` branch is replaced by taking that branch on the step to zero. Take-off needs no such replacement: from 0, fifty additions of 0.02 in doubles pass 1.0 on the tick the step count reaches 50, and the clamp `min(1., zoom + .02)` then gives exactly 1.
- Docked craft are value records rather than shared ships. `UnloadFighters` returns the released craft instead of updating shared objects, and aliasing between a bay and other holders of the same ship is not modelled.
- Ships.Ship.Regenerate: the ramscoop intake `0.03 * sqrt(ramscoop)` is the input `scoop`, not computed.
- Ships.Ship.LandingStep: the wormhole's exit is the input `wormholeExit`.
- Ships.Ship.CanLand: the planet's own permission and the distance and speed checks are the single input `landingAllowed`.
- Ships.Ship.CanHyperspace: the speed or scram-drive check and the hyperdrive facing check are inputs.
- Ships.Ship.TakeDamage: the shooter's government hostility (`IsEnemy`) is the input `shooterIsHostile`.
- Ships.Ship.WasCaptured: requires the capturer to be another ship. It also requires the capturer's crew to be non-negative, or the two requirements not to sum to zero, so that the source's integer division is defined.
- Ships.Ship.Move and Ships.Ship.Advance: their contracts state the forget and deletion rules and the energy bound only. The exact effect of the upkeep and of each phase is stated by Ships.Ship.Upkeep and Ships.Ship.Phases, whose contracts are in terms of the state between the two steps, which a contract on `Move` cannot name.
- Ships.Ship.Move: the random draws (explosion roll, pilot-error roll) are inputs, and so is whether a hyperdrive ship has slowed to cruising speed.
- Ships.Ship.HyperspaceStep: the hyperdrive's velocity change is not modelled; "slowed below cruising speed" is the input `slowed`.
- Ship event codes: the bitmask values are represented as a set of event kinds.
- `trunk/ShipyardPanel.cpp`: user interface drawing and layout, not part of this model.
