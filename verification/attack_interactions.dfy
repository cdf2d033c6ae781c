/**
 * Combat scoring: how effective one organism is against another in a single
 * exchange, and the bounded chance that an attacker hits a defender.
 *
 * The physical term `(weight * size) ** 0.33` is floating-point exponentiation;
 * the model keeps it abstract as a function `root` supplied by the caller. Python
 * returns a complex number for a negative base (and `max` then fails), so an
 * organism can be scored only when weight * size is not negative.
 */
module AttackInteractions {
  import opened Wrappers
  import opened Enums
  import opened Models

  /** The abstract power function is non-negative on non-negative arguments, as x ** 0.33 is. */
  ghost predicate NonNegativeOnNonNegatives(root: real -> real) {
    forall x: real :: 0.0 <= x ==> 0.0 <= root(x)
  }

  function Max(a: real, b: real): real { if a >= b then a else b }

  function Min(a: real, b: real): real { if a <= b then a else b }

  function Abs(x: real): real { if x < 0.0 then -x else x }

  /** The "peak age": 35% of the maximum age. */
  function IdealAge(maxAge: real): real { maxAge * 0.35 }

  /** What scoring demands of an organism: a real physical term and a non-zero divisor in the experience term. */
  predicate Scorable(org: Organism)
    reads org
  {
    org.weight * org.size >= 0.0 && IdealAge(org.maxAge) + 0.01 != 0.0
  }

  /** The speed coefficient; a missing speed counts as normal. */
  function SpeedValue(speed: Option<Speed>): (r: real)
    ensures 0.7 <= r <= 1.4
  {
    match speed
    case Some(Slow) => 0.7
    case Some(Normal) => 1.0
    case Some(Fast) => 1.4
    case None => 1.0
  }

  /** Experience: 1 at the peak age, falling off linearly with distance from it, clamped to [0.3, 1]. */
  function Experience(age: real, maxAge: real): (r: real)
    requires IdealAge(maxAge) + 0.01 != 0.0
    ensures 0.3 <= r <= 1.0
  {
    var ideal := IdealAge(maxAge);
    var raw := 1.0 - Abs(age - ideal) / (ideal + 0.01);
    Max(0.3, Min(raw, 1.0))
  }

  /** The advantage the attacker's biological type gives it over the defender's. */
  function TypeAdvantage(attacker: Organism, defender: Organism): (r: real)
    reads attacker, defender
    ensures -2.0 <= r <= 2.0
    ensures attacker.kind == Pollinator ==> r == -2.0
  {
    if attacker.kind == Predator && defender.kind == Herbivore then 2.0
    else if attacker.kind == Predator && defender.kind == Omnivore then 1.0
    else if attacker.kind == Omnivore && defender.kind == Herbivore then 0.7
    else if attacker.kind == Herbivore && defender.kind == Predator then -1.5
    else if attacker.kind == Herbivore && defender.kind == Omnivore then -0.7
    else if attacker.kind == Pollinator then -2.0
    else 0.0
  }

  /** The bonus for fighting in (or out of) the organism's active part of the day. */
  function CycleBonus(org: Organism, isNight: bool): (r: real)
    reads org
    ensures -0.5 <= r <= 1.0
  {
    match org.activityCycle
    case Some(Nocturnal) => if isNight then 1.0 else -0.5
    case Some(Diurnal) => if !isNight then 1.0 else -0.5
    case Some(Crepuscular) => 0.4
    case None => 0.0
  }

  /** The bonus for fighting alongside others; a missing behaviour counts as none. */
  function SocialBonus(org: Organism): (r: real)
    reads org
    ensures 0.0 <= r <= 0.8
  {
    match org.socialBehavior
    case Some(Solitary) => 0.0
    case Some(Pack) => 0.8
    case Some(Herd) => 0.4
    case None => 0.0
  }

  /** The score before the floor is applied: the sum of the six terms. */
  function RawScore(root: real -> real, org: Organism, opponent: Organism, isNight: bool): real
    reads org, opponent
    requires Scorable(org)
  {
    root(org.weight * org.size) * 1.2
    + SpeedValue(org.speed)
    + Experience(org.age, org.maxAge)
    + TypeAdvantage(org, opponent)
    + CycleBonus(org, isNight)
    + SocialBonus(org)
  }

  /** The combat score of `org` against `opponent`, floored at 0.1. */
  function CombatPower(root: real -> real, org: Organism, opponent: Organism, isNight: bool): (r: real)
    reads org, opponent
    requires Scorable(org)
    ensures r >= 0.1
    ensures RawScore(root, org, opponent, isNight) >= 0.1 ==> r == RawScore(root, org, opponent, isNight)
  {
    Max(RawScore(root, org, opponent, isNight), 0.1)
  }

  /** The share of the two scores that falls to the attacker, clamped to [0.05, 0.95]. */
  function HitChance(root: real -> real, attacker: Organism, defender: Organism, isNight: bool): (r: real)
    reads attacker, defender
    requires Scorable(attacker) && Scorable(defender)
    ensures 0.05 <= r <= 0.95
  {
    var atk := CombatPower(root, attacker, defender, isNight);
    var dfd := CombatPower(root, defender, attacker, isNight);
    var total := atk + dfd;
    var chance := atk / total;
    Max(0.05, Min(chance, 0.95))
  }

  /** The attacker's unclamped share of the two scores. */
  function Share(atk: real, dfd: real): real
    requires atk > 0.0 && dfd > 0.0
  {
    atk / (atk + dfd)
  }

  /** The two shares of one exchange add up to one. */
  lemma SharesComplement(atk: real, dfd: real)
    requires atk > 0.0 && dfd > 0.0
    ensures Share(dfd, atk) == 1.0 - Share(atk, dfd)
    ensures Share(atk, dfd) >= 0.5 <==> atk >= dfd
  {
    var t := atk + dfd;
    var s, s' := atk / t, dfd / t;
    assert Share(atk, dfd) == s && Share(dfd, atk) == s';
    assert s * t == atk && s' * t == dfd;
    assert (s + s') * t == s * t + s' * t == atk + dfd == t;
    assert s + s' == 1.0;
    assert s >= 0.5 ==> atk >= 0.5 * t;
    assert atk >= 0.5 * t ==> s * t >= 0.5 * t;
  }

  /** Clamping to [0.05, 0.95] commutes with taking the complement. */
  lemma ClampComplement(c: real)
    ensures Max(0.05, Min(1.0 - c, 0.95)) == 1.0 - Max(0.05, Min(c, 0.95))
  {
  }

  /** Swapping attacker and defender gives the complementary chance. */
  lemma HitChanceComplement(root: real -> real, a: Organism, d: Organism, isNight: bool)
    requires Scorable(a) && Scorable(d)
    ensures HitChance(root, d, a, isNight) == 1.0 - HitChance(root, a, d, isNight)
  {
    var atk := CombatPower(root, a, d, isNight);
    var dfd := CombatPower(root, d, a, isNight);
    SharesComplement(atk, dfd);
    ClampComplement(Share(atk, dfd));
  }

  /** The attacker has at least an even chance exactly when its score is at least the defender's. */
  lemma StrongerAttackerFavoured(root: real -> real, a: Organism, d: Organism, isNight: bool)
    requires Scorable(a) && Scorable(d)
    ensures HitChance(root, a, d, isNight) >= 0.5
        <==> CombatPower(root, a, d, isNight) >= CombatPower(root, d, a, isNight)
  {
    SharesComplement(CombatPower(root, a, d, isNight), CombatPower(root, d, a, isNight));
  }

  /** Experience reaches 1 exactly at the peak age, when the maximum age is not negative. */
  lemma ExperiencePeak(age: real, maxAge: real)
    requires maxAge >= 0.0
    ensures Experience(age, maxAge) == 1.0 <==> age == IdealAge(maxAge)
  {
  }

  /** A nocturnal organism's bonus is the mirror image of a diurnal one's; a crepuscular one ignores the time. */
  lemma CycleBonusMirror(n: Organism, di: Organism, c: Organism, isNight: bool)
    requires n.activityCycle == Some(Nocturnal) && di.activityCycle == Some(Diurnal)
    requires c.activityCycle == Some(Crepuscular)
    ensures CycleBonus(n, isNight) == CycleBonus(di, !isNight)
    ensures CycleBonus(n, isNight) == (if isNight then 1.0 else -0.5)
    ensures CycleBonus(c, isNight) == CycleBonus(c, !isNight) == 0.4
  {
  }

  /**
   * Without the floor, a score is at least the sum of the lowest table entries
   * (0.7 + 0.3 - 2.0 - 0.5 + 0): the unfloored sum can be no lower than -1.5.
   */
  lemma RawScoreLowerBound(root: real -> real, org: Organism, opponent: Organism, isNight: bool)
    requires NonNegativeOnNonNegatives(root)
    requires Scorable(org)
    ensures RawScore(root, org, opponent, isNight) >= -1.5
  {
  }
}
