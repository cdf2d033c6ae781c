/**
 * The interaction primitives: one hunting exchange (a report, no state change),
 * drinking, resting and becoming pregnant (each updates records in place).
 *
 * Every random draw of the source is a parameter; its range is a precondition.
 * Outcome messages are kept as the values they are formatted from; the text
 * itself is not modelled.
 */
module InteractionFunctions {
  import opened Wrappers
  import opened Enums
  import opened Models
  import opened AttackInteractions

  /** The report of one hunting exchange. */
  datatype HuntReport = HuntReport(
    attacker: string,
    defender: string,
    attackerHitChance: real,     // percent, before rounding to two places
    defenderDefendChance: real,  // percent, before rounding to two places
    attackerCycle: Option<ActivityCycle>,
    defenderCycle: Option<ActivityCycle>,
    hits: bool)                  // the result line says "Hits" when true, "Misses" otherwise

  /** What a non-combat interaction reports. */
  datatype Outcome =
    | Drank(organism: string, amount: real, healthGain: int, thirstLoss: int)
    | NoWater(organism: string, healthLoss: int, thirstGain: int)
    | Rested(organism: string, healthGain: int)
    | Pregnant(mother: Organism)  // the message formats the organism object itself

  /**
   * One exchange of a hunt. `draw` is the uniform draw in [0, 1); the exchange is
   * reported as a hit when the draw EXCEEDS the hit chance. Whether it is night is
   * derived from the attacker's own activity cycle, not from the ecosystem clock.
   */
  function HuntPrey(root: real -> real, attacker: Organism, defender: Organism, draw: real): (r: HuntReport)
    reads attacker, defender
    requires 0.0 <= draw < 1.0
    requires Scorable(attacker) && Scorable(defender)
    ensures r.attacker == attacker.name && r.defender == defender.name
    ensures r.attackerHitChance == 100.0 * HitChance(root, attacker, defender, attacker.activityCycle == Some(Nocturnal))
    ensures 5.0 <= r.attackerHitChance <= 95.0
    ensures r.defenderDefendChance == 100.0 - r.attackerHitChance
    ensures r.hits <==> 100.0 * draw > r.attackerHitChance
    ensures r.attackerCycle == attacker.activityCycle && r.defenderCycle == defender.activityCycle
  {
    var attackChance := HitChance(root, attacker, defender, attacker.activityCycle == Some(Nocturnal));
    var successfulAttack := draw > attackChance;
    HuntReport(
      attacker.name,
      defender.name,
      attackChance * 100.0,
      (1.0 - attackChance) * 100.0,
      attacker.activityCycle,
      defender.activityCycle,
      successfulAttack)
  }

  /**
   * The organism drinks its consumption from the ecosystem's pool if enough is
   * left, recovering `health` and losing `thirst`; otherwise it loses `health` and
   * gains `thirst`. Both draws are in [5, 20] and are taken before the test.
   */
  method DrinkWater(ecosystem: Ecosystem, organism: Organism, health: int, thirst: int) returns (o: Outcome)
    requires 5 <= health <= 20 && 5 <= thirst <= 20
    modifies ecosystem`waterAvailable, organism`thirst, organism`health
    ensures old(ecosystem.waterAvailable) >= organism.waterConsumption ==>
      && ecosystem.waterAvailable == old(ecosystem.waterAvailable) - organism.waterConsumption
      && ecosystem.waterAvailable >= 0.0
      && organism.thirst == old(organism.thirst) - thirst as real
      && organism.health == old(organism.health) + health as real
      && o == Drank(organism.name, organism.waterConsumption, health, thirst)
    ensures old(ecosystem.waterAvailable) < organism.waterConsumption ==>
      && ecosystem.waterAvailable == old(ecosystem.waterAvailable)
      && organism.thirst == old(organism.thirst) + thirst as real
      && organism.health == old(organism.health) - health as real
      && o == NoWater(organism.name, health, thirst)
    ensures old(ecosystem.waterAvailable) >= 0.0 ==> ecosystem.waterAvailable >= 0.0
  {
    if ecosystem.waterAvailable >= organism.waterConsumption {
      ecosystem.waterAvailable := ecosystem.waterAvailable - organism.waterConsumption;
      organism.thirst := organism.thirst - thirst as real;
      organism.health := organism.health + health as real;
      o := Drank(organism.name, organism.waterConsumption, health, thirst);
    } else {
      organism.thirst := organism.thirst + thirst as real;
      organism.health := organism.health - health as real;
      o := NoWater(organism.name, health, thirst);
    }
  }

  /** The organism rests and recovers `health`, a draw in [10, 30]. */
  method Rest(organism: Organism, health: int) returns (o: Outcome)
    requires 10 <= health <= 30
    modifies organism`health
    ensures organism.health == old(organism.health) + health as real
    ensures organism.health > old(organism.health)
    ensures o == Rested(organism.name, health)
  {
    organism.health := organism.health + health as real;
    o := Rested(organism.name, health);
  }

  /**
   * The organism at position `choice` (the random pick from a non-empty list)
   * becomes pregnant. No other organism changes, and choosing one that is
   * already pregnant changes nothing.
   */
  method Reproduce(organisms: seq<Organism>, choice: nat) returns (o: Outcome)
    requires choice < |organisms|
    modifies (organisms[choice] as Organism)`pregnant
    ensures organisms[choice].pregnant
    ensures forall i :: 0 <= i < |organisms| && organisms[i] != organisms[choice] ==>
      organisms[i].pregnant == old(organisms[i].pregnant)
    ensures old(organisms[choice].pregnant) ==> unchanged(organisms[choice])
    ensures o == Pregnant(organisms[choice])
  {
    var chosen := organisms[choice];
    chosen.pregnant := true;
    o := Pregnant(chosen);
  }
}
