/**
 * The persistent records of the simulation: organisms, plants, the ecosystem that
 * owns them, and the two link tables behind the predator/prey and
 * pollinator/pollination-target relations.
 *
 * Records are classes because every interaction updates their fields in place.
 * The predator/prey and pollination relations are not stored on either end:
 * both ends read the same link table, so the two directions cannot drift apart.
 * Ecosystem membership is different: an ecosystem's `organisms` and `plants`
 * and each member's `ecosystemId` are independent fields here.
 */
module Models {
  import opened Wrappers
  import opened Sequences
  import opened Enums

  /** Identifiers (UUIDs in the database) are opaque; only equality matters. */
  type Id = nat

  /** One row of a link table: (predator_id, prey_id) or (pollinator_id, plant_id). */
  datatype Link = Link(left: Id, right: Id)

  /** The `right` ends of the rows whose `left` end is `left`, in row order. */
  function Targets(rows: seq<Link>, left: Id): (r: seq<Id>)
    ensures forall b :: b in r <==> Link(left, b) in rows
    ensures NoDuplicates(rows) ==> NoDuplicates(r)
  {
    if rows == [] then []
    else
      assert rows == [rows[0]] + rows[1..];
      var rest := Targets(rows[1..], left);
      if rows[0].left == left then
        assert NoDuplicates(rows) ==> rows[0] !in rows[1..];
        NoDuplicatesCons(rows[0].right, rest);
        [rows[0].right] + rest
      else rest
  }

  /** The `left` ends of the rows whose `right` end is `right`, in row order. */
  function Sources(rows: seq<Link>, right: Id): (r: seq<Id>)
    ensures forall a :: a in r <==> Link(a, right) in rows
    ensures NoDuplicates(rows) ==> NoDuplicates(r)
  {
    if rows == [] then []
    else
      assert rows == [rows[0]] + rows[1..];
      var rest := Sources(rows[1..], right);
      if rows[0].right == right then
        assert NoDuplicates(rows) ==> rows[0] !in rows[1..];
        NoDuplicatesCons(rows[0].left, rest);
        [rows[0].left] + rest
      else rest
  }

  /** The set of pairs a list of rows holds. */
  function PairsOf(rows: seq<Link>): set<Link> {
    set l | l in rows
  }

  /** With a composite primary key, the rows and the set of pairs they hold are the same size. */
  lemma {:induction false} RowsMatchPairs(rows: seq<Link>)
    requires NoDuplicates(rows)
    ensures |PairsOf(rows)| == |rows|
  {
    if rows != [] {
      var rest := rows[1..];
      assert NoDuplicates(rest) by {
        forall i, j | 0 <= i < j < |rest| ensures rest[i] != rest[j] {
          assert rest[i] == rows[i + 1] && rest[j] == rows[j + 1];
        }
      }
      RowsMatchPairs(rest);
      assert rows == [rows[0]] + rest;
      assert rows[0] !in rest;
      assert PairsOf(rows) == PairsOf(rest) + {rows[0]};
    }
  }

  /**
   * A link table (PredationLink or PollinationLink): a list of rows whose primary
   * key is the whole (left, right) pair, so no pair is stored twice.
   */
  class LinkTable {
    var rows: seq<Link>

    ghost predicate Valid()
      reads this
    {
      NoDuplicates(rows)
    }

    constructor ()
      ensures Valid() && rows == []
    {
      rows := [];
    }

    /** Adds a row and commits; a row with an existing key is refused (an integrity error). */
    method Insert(l: Link) returns (ok: bool)
      requires Valid()
      modifies this
      ensures Valid()
      ensures ok <==> l !in old(rows)
      ensures rows == if ok then old(rows) + [l] else old(rows)
      ensures PairsOf(rows) == PairsOf(old(rows)) + {l}
    {
      ok := l !in rows;
      if ok {
        forall i, j | 0 <= i < j < |rows + [l]| ensures (rows + [l])[i] != (rows + [l])[j] {
          if j == |rows| {
            assert (rows + [l])[i] == rows[i];
          } else {
            assert (rows + [l])[i] == rows[i] && (rows + [l])[j] == rows[j];
          }
        }
        rows := rows + [l];
      }
    }
  }

  /** An organism placed in (or templated for) an ecosystem. */
  class Organism {
    const id: Id
    var name: string
    var kind: OrganismType

    // Physical / demography
    var weight: real
    var size: real
    var age: real
    var maxAge: real
    var reproductionAge: real
    var fertilityRate: int

    // Needs
    var waterConsumption: real
    var foodConsumption: real
    var dietType: DietType

    // Behaviour
    var activityCycle: Option<ActivityCycle>
    var speed: Option<Speed>
    var socialBehavior: Option<SocialBehavior>

    var ecosystemId: Option<Id>

    // State that each ecosystem member updates
    var hunger: real
    var thirst: real
    var health: real
    var pregnant: bool

    /**
     * The column constraint `reproduction_age >= 0`. It is recorded here, not
     * enforced: as in the source's table class, assigning a field does not check it.
     */
    ghost predicate Valid()
      reads this
    {
      reproductionAge >= 0.0
    }

    /** A new organism from its required fields; everything else takes its column default. */
    constructor (id: Id, name: string, kind: OrganismType, dietType: DietType,
                 weight: real, size: real, waterConsumption: real, foodConsumption: real)
      ensures Valid()
      ensures this.id == id && this.name == name && this.kind == kind && this.dietType == dietType
      ensures this.weight == weight && this.size == size
      ensures this.waterConsumption == waterConsumption && this.foodConsumption == foodConsumption
      ensures age == 0.0 && maxAge == 0.0 && reproductionAge == 0.0 && fertilityRate == 1
      ensures activityCycle == Some(Diurnal) && speed == Some(Normal) && socialBehavior == Some(Solitary)
      ensures ecosystemId == None
      ensures hunger == 0.0 && thirst == 0.0 && health == 100.0 && !pregnant
    {
      this.id := id;
      this.name := name;
      this.kind := kind;
      this.dietType := dietType;
      this.weight := weight;
      this.size := size;
      this.waterConsumption := waterConsumption;
      this.foodConsumption := foodConsumption;
      age, maxAge, reproductionAge, fertilityRate := 0.0, 0.0, 0.0, 1;
      activityCycle, speed, socialBehavior := Some(Diurnal), Some(Normal), Some(Solitary);
      ecosystemId := None;
      hunger, thirst, health, pregnant := 0.0, 0.0, 100.0, false;
    }

    /** The `prey` list: the organisms this one is recorded as hunting. */
    function Prey(predation: LinkTable): (r: seq<Id>)
      reads predation
      ensures forall q :: q in r <==> Link(id, q) in predation.rows
      ensures predation.Valid() ==> NoDuplicates(r)
    {
      Targets(predation.rows, id)
    }

    /** The `predator` list: the organisms recorded as hunting this one. */
    function Predators(predation: LinkTable): (r: seq<Id>)
      reads predation
      ensures forall p :: p in r <==> Link(p, id) in predation.rows
      ensures predation.Valid() ==> NoDuplicates(r)
    {
      Sources(predation.rows, id)
    }

    /** The `pollination_target` list: the plants this organism pollinates. */
    function PollinationTargets(pollination: LinkTable): (r: seq<Id>)
      reads pollination
      ensures forall pl :: pl in r <==> Link(id, pl) in pollination.rows
      ensures pollination.Valid() ==> NoDuplicates(r)
    {
      Targets(pollination.rows, id)
    }
  }

  /** A plant placed in (or templated for) an ecosystem. */
  class Plant {
    const id: Id
    var name: string
    var kind: PlantType

    var weight: real
    var size: real
    var age: real
    var maxAge: real
    var reproductionAge: real
    var fertilityRate: int

    var waterNeed: real

    var health: real
    var fruiting: bool

    var ecosystemId: Option<Id>

    /**
     * The column constraint `age >= 0`. It is recorded here, not enforced: as in
     * the source's table class, assigning a field does not check it.
     */
    ghost predicate Valid()
      reads this
    {
      age >= 0.0
    }

    /** A new plant from its required fields; everything else takes its column default. */
    constructor (id: Id, name: string, kind: PlantType)
      ensures Valid()
      ensures this.id == id && this.name == name && this.kind == kind
      ensures weight == 0.0 && size == 0.0 && age == 0.0 && maxAge == 1.0
      ensures reproductionAge == 0.0 && fertilityRate == 0 && waterNeed == 0.0
      ensures health == 100.0 && !fruiting && ecosystemId == None
    {
      this.id := id;
      this.name := name;
      this.kind := kind;
      weight, size, age, maxAge := 0.0, 0.0, 0.0, 1.0;
      reproductionAge, fertilityRate, waterNeed := 0.0, 0, 0.0;
      health, fruiting := 100.0, false;
      ecosystemId := None;
    }

    /** The `pollinators` list: the organisms that pollinate this plant. */
    function Pollinators(pollination: LinkTable): (r: seq<Id>)
      reads pollination
      ensures forall o :: o in r <==> Link(o, id) in pollination.rows
      ensures pollination.Valid() ==> NoDuplicates(r)
    {
      Sources(pollination.rows, id)
    }
  }

  /** The container that owns organisms and plants and carries the water pool and the clock. */
  class Ecosystem {
    const id: Id
    var name: string

    var waterAvailable: real
    var foodAvailable: real
    var minimumWaterToAddPerSimulation: int
    var maxWaterToAddPerSimulation: int
    var cycle: ActivityCycle
    var days: int
    var year: int
    var simulationStatus: SimulationStatus

    var organisms: seq<Organism>
    var plants: seq<Plant>

    /** A new, empty ecosystem at the start of its clock. */
    constructor (id: Id, name: string, waterAvailable: real,
                 minimumWaterToAddPerSimulation: int, maxWaterToAddPerSimulation: int)
      ensures this.id == id && this.name == name && this.waterAvailable == waterAvailable
      ensures this.minimumWaterToAddPerSimulation == minimumWaterToAddPerSimulation
      ensures this.maxWaterToAddPerSimulation == maxWaterToAddPerSimulation
      ensures foodAvailable == 0.0 && cycle == Diurnal && days == 0 && year == 0
      ensures simulationStatus == Finished
      ensures organisms == [] && plants == []
    {
      this.id := id;
      this.name := name;
      this.waterAvailable := waterAvailable;
      this.minimumWaterToAddPerSimulation := minimumWaterToAddPerSimulation;
      this.maxWaterToAddPerSimulation := maxWaterToAddPerSimulation;
      foodAvailable, cycle, days, year := 0.0, Diurnal, 0, 0;
      simulationStatus := Finished;
      organisms, plants := [], [];
    }
  }

  /** Predation mirrors: q is in p's prey list exactly when p is in q's predator list. */
  lemma PredationMirrors(predation: LinkTable, p: Organism, q: Organism)
    ensures q.id in p.Prey(predation) <==> p.id in q.Predators(predation)
  {
  }

  /** Pollination mirrors: a plant is a target of an organism exactly when the organism is among its pollinators. */
  lemma PollinationMirrors(pollination: LinkTable, o: Organism, pl: Plant)
    ensures pl.id in o.PollinationTargets(pollination) <==> o.id in pl.Pollinators(pollination)
  {
  }
}
