# EcoSim leaf logic in Dafny

A model of the leaf components of EcoSimAPI, a survival-ecology simulator in which
organisms and plants share an ecosystem's water, fight, rest and reproduce:

- **Combat scoring** (`attack_interactions.dfy`, module `AttackInteractions`): the
  combat power of one organism against another (physical term, speed, experience,
  type advantage, activity-cycle bonus, social bonus, floored at 0.1) and the hit
  chance of an attacker, clamped to [0.05, 0.95]. Pure functions over `real`.
- **Interaction primitives** (`interaction_functions.dfy`, module
  `InteractionFunctions`): one hunting exchange as a report (a function that changes
  nothing), and `DrinkWater`, `Rest`, `Reproduce` as methods that update the
  ecosystem and organisms in place. Random draws are parameters whose ranges are
  preconditions.
- **Records and relations** (`models.dfy`, module `Models`): `Organism`, `Plant` and
  `Ecosystem` as classes with their column defaults, and `LinkTable` for the
  PredationLink and PollinationLink tables. The prey/predator lists and the
  pollination-target/pollinator lists are both computed from one table, so each
  pair of lists mirrors the other.
- **Action catalogue** (`interactions_list.dfy`, module `InteractionsList`): the
  constant action lists and the `get_mapping` lookup.
- `enums.dfy` holds the enumerations; `wrappers.dfy` the `Option` type for
  `Optional[...]` fields; `sequences.dfy` the no-duplicates predicate.

Behaviour of the code worth knowing:

- A hunt is a single exchange. It reports a hit or a miss and changes no health,
  hunger or life. There are no repeated exchanges and no kill bookkeeping.
- "Hits" is reported when the uniform draw is greater than the hit chance. A high
  hit chance therefore makes a reported hit less likely.
- Night for a hunt comes from the attacker's own activity cycle, not from the
  ecosystem clock.
- A new organism's column default for social behaviour is solitary. The creation
  service in `app/api/services/organism.py` substitutes pack when none is given;
  that service is not part of this model.

## Model

| member | source | states |
|---|---|---|
| AttackInteractions.HitChance | app/api/utils/attack_interactions.py:5-13 | the hit chance always lies in [0.05, 0.95] |
| AttackInteractions.HitChanceComplement | app/api/utils/attack_interactions.py:5-13 | swapping attacker and defender gives 1 minus the original chance |
| AttackInteractions.StrongerAttackerFavoured | app/api/utils/attack_interactions.py:5-13 | the chance is at least 0.5 exactly when the attacker's score is at least the defender's |
| AttackInteractions.SharesComplement | app/api/utils/attack_interactions.py:9-11 | the two unclamped shares of one exchange sum to 1; the attacker's share is at least 0.5 iff its score is at least the defender's |
| AttackInteractions.CombatPower | app/api/utils/attack_interactions.py:16-42 | the score is never below 0.1, and equals the sum of the six terms whenever that sum is at least 0.1 |
| AttackInteractions.RawScoreLowerBound | app/api/utils/attack_interactions.py:16-42 | with a power function that is non-negative on non-negative arguments, the unfloored sum is at least -1.5 |
| AttackInteractions.SpeedValue | app/api/utils/attack_interactions.py:24-25 | the speed coefficient lies in [0.7, 1.4] |
| AttackInteractions.Experience | app/api/utils/attack_interactions.py:27-31 | the experience term lies in [0.3, 1.0] whenever its divisor is non-zero |
| AttackInteractions.ExperiencePeak | app/api/utils/attack_interactions.py:27-31 | for a non-negative maximum age, experience is 1.0 exactly when age is 35% of the maximum age |
| AttackInteractions.TypeAdvantage | app/api/utils/attack_interactions.py:45-82 | the type advantage lies in [-2, 2], and a pollinator attacker always gets -2 |
| AttackInteractions.CycleBonus | app/api/utils/attack_interactions.py:85-92 | the cycle bonus lies in [-0.5, 1.0] |
| AttackInteractions.CycleBonusMirror | app/api/utils/attack_interactions.py:85-92 | nocturnal gets 1.0 at night and -0.5 by day; diurnal is its mirror image; crepuscular gets 0.4 whatever the time |
| AttackInteractions.SocialBonus | app/api/utils/attack_interactions.py:95-101 | the social bonus lies in [0, 0.8] |
| InteractionFunctions.HuntPrey | app/api/utils/interaction_functions.py:11-28 | the hit chance is in [5, 95] percent; the defend chance is 100 minus it; it is computed with night iff the attacker is nocturnal; a hit is reported iff the draw exceeds the chance; neither organism changes |
| InteractionFunctions.DrinkWater | app/api/utils/interaction_functions.py:31-46 | with enough water the pool drops by exactly the consumption and stays non-negative, thirst drops and health rises by the draws; otherwise the pool is unchanged, thirst rises and health falls; only the pool, thirst and health change; a non-negative pool stays non-negative |
| InteractionFunctions.Rest | app/api/utils/interaction_functions.py:49-52 | health rises by the draw and nothing else changes |
| InteractionFunctions.Reproduce | app/api/utils/interaction_functions.py:55-58 | the chosen organism is pregnant afterwards, no other organism's flag changes, and choosing an already pregnant one changes nothing |
| Models.Targets | app/database/models.py:63-71 | an id is in the forward view exactly when the table holds that pair; with unique pairs the view has no duplicates |
| Models.Sources | app/database/models.py:54-62 | an id is in the backward view exactly when the table holds that pair; with unique pairs the view has no duplicates |
| Models.RowsMatchPairs | app/database/models.py:25-27 | under the composite primary key, the number of rows equals the number of distinct pairs |
| Models.LinkTable.constructor | app/database/models.py:25-27 | a new link table is empty and satisfies the key constraint |
| Models.LinkTable.Insert | app/database/models.py:25-32 | a pair already present is refused; otherwise it is appended; the key constraint is kept |
| Models.Organism.constructor | app/database/models.py:35-96 | a new organism starts with hunger 0, thirst 0, health 100, not pregnant, diurnal, normal speed, solitary, age 0, max age 0, reproduction age 0, fertility rate 1 |
| Models.Organism.Prey | app/database/models.py:63-71 | q is in p's prey list exactly when the table holds (p, q); the list has no duplicates |
| Models.Organism.Predators | app/database/models.py:54-62 | p is in q's predator list exactly when the table holds (p, q); the list has no duplicates |
| Models.Organism.PollinationTargets | app/database/models.py:72-76 | a plant is a target exactly when the table holds (organism, plant) |
| Models.Plant.constructor | app/database/models.py:99-127 | a new plant starts with health 100, not fruiting, weight 0, size 0, age 0, max age 1 |
| Models.Plant.Pollinators | app/database/models.py:116-118 | an organism is a pollinator exactly when the table holds (organism, plant) |
| Models.Ecosystem.constructor | app/database/models.py:130-150 | a new ecosystem is diurnal, with days 0, year 0, no food, status finished, no members |
| Models.PredationMirrors | app/database/models.py:54-71 | q is in p's prey list exactly when p is in q's predator list |
| Models.PollinationMirrors | app/database/models.py:72-76 | a plant is in an organism's targets exactly when the organism is among the plant's pollinators |
| InteractionsList.GetMapping | app/database/interactions_list.py:70-83 | each of the nine keys maps to exactly its list, and any other key gives None |
| InteractionsList.ListSizes | app/database/interactions_list.py:2-67 | universal has 7 actions, plant 5, every other list 4 |
| InteractionsList.ListsDistinct | app/database/interactions_list.py:2-67 | no list repeats an action, and the nine lists are pairwise disjoint |
| InteractionsList.DrinkAndRestOnlyUniversal | app/database/interactions_list.py:2-10 | drink_water and rest are universal actions and occur in no other list |

## Left out

- The tick engine (action selection, death removal, grazing, nectar collection, the day/year clock, water replenishment, multi-tick runs): none of it is in the modelled code.
- AttackInteractions.CombatPower: the physical term `(weight * size) ** 0.33` is a function parameter `root`, because floating-point exponentiation has no exact counterpart over `real`. Scoring requires `weight * size >= 0`, because Python yields a complex number for a negative base and the clamp then fails.
- AttackInteractions.Experience: requires `0.35 * max_age + 0.01 != 0`, the division the source performs; the peak property is proved for `max_age >= 0` only.
- InteractionFunctions.HuntPrey: the percentages are not rounded to two places, and the result message is reduced to a hit flag.
- All arithmetic is over exact reals, not floats. AttackInteractions.SharesComplement and AttackInteractions.HitChanceComplement depend on this: in floating point, `hit_chance(d, a)` and `1 - hit_chance(a, d)` can differ in the last bit.
- Outcome messages are kept as the values they are formatted from, not as text.
- InteractionFunctions.Reproduce: an empty list raises IndexError in the source (from `random.choice`); the model requires a non-empty list, through `choice < |organisms|`.
- InteractionFunctions.Reproduce: the outcome keeps the chosen organism object, because the source formats the object's representation rather than its name; the text of that representation is not modelled.
- Random draws (`random.random`, `random.randint`, `random.choice`) are parameters. Their ranges are preconditions.
- Optional columns are modelled as plain values, so `None` is not represented: Organism `hunger`, `thirst`, `health` (reals) and `pregnant` (bool); Plant `weight`, `size`, `max_age`, `reproduction_age`, `water_need` (reals) and `fertility_rate` (int); Ecosystem `year` (int). A `None` in the numeric ones would make the interactions fail.
- Models.LinkTable: rows are kept in insertion order; the database returns the lists in an unspecified order.
- Models.Ecosystem: `organisms`/`plants` and the members' `ecosystemId` are independent fields. The back-populated foreign key that makes the ecosystem's lists hold exactly the members whose `ecosystem_id` names it is not modelled.
- Foreign keys from the link tables to existing organisms and plants are not modelled.
- The `Simulation` results table: it only stores serialized results.
- Database sessions, commits, FastAPI routers, request schemas and service-level duplicate-name checks: persistence and HTTP glue.
