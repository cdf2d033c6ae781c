/**
 * The catalogue of action names: one constant list per kind of organism (and one
 * for plants, one for every organism), and the lookup from a kind to its list.
 */
module InteractionsList {
  import opened Wrappers
  import opened Sequences

  const ActionsUniversal: seq<string> :=
    ["drink_water", "eat", "reproduce", "age", "rest", "move", "die"]

  const ActionsPredator: seq<string> :=
    ["hunt_prey", "compete_for_territory", "mark_territory", "teach_hunt"]

  const ActionsHerbivore: seq<string> :=
    ["graze_plants", "flee_from_predator", "form_herd", "group_reproduce"]

  const ActionsPollinator: seq<string> :=
    ["pollinate_plants", "collect_nectar", "build_colony", "gather_pollen"]

  const ActionsOmnivore: seq<string> :=
    ["hunt_small_prey", "eat_fruits", "adapt_diet", "care_for_offspring"]

  const ActionsMammal: seq<string> :=
    ["breastfeed_offspring", "socialize", "migrate_in_group", "defend_offspring"]

  const ActionsBird: seq<string> :=
    ["fly_or_migrate", "sing", "spread_seeds", "build_nest"]

  const ActionsReptile: seq<string> :=
    ["bask_in_sun", "hibernate", "shed_skin", "hunt_insects"]

  const ActionsPlant: seq<string> :=
    ["photosynthesize", "absorb_resources", "grow", "produce_fruit", "wither"]

  /** The keys the lookup knows, in the order its table lists them. */
  const Keys: seq<string> :=
    ["universal", "predator", "herbivore", "pollinator", "omnivore", "mammal", "bird", "reptile", "plant"]

  /** The lists, in the same order as `Keys`. */
  const Lists: seq<seq<string>> :=
    [ActionsUniversal, ActionsPredator, ActionsHerbivore, ActionsPollinator, ActionsOmnivore,
     ActionsMammal, ActionsBird, ActionsReptile, ActionsPlant]

  /** The action list for a kind of organism, or None for a kind the table does not know. */
  function GetMapping(organismType: string): (r: Option<seq<string>>)
    ensures r.Some? <==> organismType in Keys
    ensures forall k :: 0 <= k < |Keys| && organismType == Keys[k] ==> r == Some(Lists[k])
  {
    match organismType
    case "universal" => Some(ActionsUniversal)
    case "predator" => Some(ActionsPredator)
    case "herbivore" => Some(ActionsHerbivore)
    case "pollinator" => Some(ActionsPollinator)
    case "omnivore" => Some(ActionsOmnivore)
    case "mammal" => Some(ActionsMammal)
    case "bird" => Some(ActionsBird)
    case "reptile" => Some(ActionsReptile)
    case "plant" => Some(ActionsPlant)
    case _ => None
  }

  /** Every organism gets seven universal actions, plants five, each other kind four. */
  lemma ListSizes()
    ensures |ActionsUniversal| == 7 && |ActionsPlant| == 5
    ensures forall k :: 1 <= k < 8 ==> |Lists[k]| == 4
  {
  }

  /** No list names an action twice, and no action is in two lists. */
  lemma ListsDistinct()
    ensures forall k :: 0 <= k < |Lists| ==> NoDuplicates(Lists[k])
    ensures forall k, m, a :: 0 <= k < m < |Lists| && a in Lists[k] ==> a !in Lists[m]
  {
  }

  /** Drinking and resting are universal actions and belong to no other list. */
  lemma DrinkAndRestOnlyUniversal()
    ensures "drink_water" in ActionsUniversal && "rest" in ActionsUniversal
    ensures forall k :: 1 <= k < |Lists| ==> "drink_water" !in Lists[k] && "rest" !in Lists[k]
  {
  }
}
