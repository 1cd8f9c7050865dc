/**
 * The default badge catalogue and the script that loads it: sixteen badges
 * in six groups (period awards, four tiered families, two special badges),
 * the structure of their tier ranges, how those ranges compare with the
 * tiers the badge route hard-codes, and the seeding procedure (decline,
 * delete, add, commit or roll back).
 */
module SeedBadges {
  import opened Common
  import opened Query
  import opened BadgeModel
  import BadgeRoutes

  /** The measure a tier range applies to. */
  datatype Metric = TasksCompleted | PerformanceScore | ComputationTime | DaysActive

  /** The `criteria` column of a default badge. */
  datatype Criteria =
    | ForPeriod(period: string)
    | Tier(metric: Metric, min: real, max: Option<real>)
    | Ranking(maxRank: int)
    | AvgExecutionTime(percentile: int)

  /** One entry of `default_badges`. */
  datatype BadgeSpec = BadgeSpec(
    badgeId: string,
    name: string,
    description: string,
    category: string,
    icon: string,
    level: string,
    criteria: Criteria)

  function MetricName(m: Metric): string {
    match m
    case TasksCompleted => "tasks_completed"
    case PerformanceScore => "performance_score"
    case ComputationTime => "computation_time"
    case DaysActive => "days_active"
  }

  /** The criteria as the JSON column stores them. */
  function CriteriaJson(c: Criteria): (j: Json)
    ensures j.JObj? && "type" in j.fields
  {
    match c
    case ForPeriod(p) => JObj(map["type" := JStr("period"), "period" := JStr(p)])
    case Tier(m, lo, None) => JObj(map["type" := JStr(MetricName(m)), "min" := JReal(lo)])
    case Tier(m, lo, Some(hi)) => JObj(map["type" := JStr(MetricName(m)), "min" := JReal(lo), "max" := JReal(hi)])
    case Ranking(r) => JObj(map["type" := JStr("ranking"), "max_rank" := JInt(r)])
    case AvgExecutionTime(p) => JObj(map["type" := JStr("avg_execution_time"), "percentile" := JInt(p)])
  }

  // ---------------------------------------------------------------- the table

  const PeriodBadges: seq<BadgeSpec> := [
    BadgeSpec("volunteer_of_week", "Volontaire de la Semaine",
      "Décerné au volontaire le plus actif de la semaine", "period", "🌟", "gold", ForPeriod("week")),
    BadgeSpec("volunteer_of_month", "Volontaire du Mois",
      "Décerné au volontaire le plus performant du mois", "period", "⭐", "gold", ForPeriod("month")),
    BadgeSpec("volunteer_of_year", "Volontaire de l'Année",
      "Décerné au volontaire ayant contribué le plus durant l'année", "period", "🏆", "gold", ForPeriod("year"))]

  const ParticipantBadges: seq<BadgeSpec> := [
    BadgeSpec("participant_bronze", "Participant Actif - Bronze", "Complété 50 tâches",
      "most_tasks", "🎯", "bronze", Tier(TasksCompleted, 50.0, Some(199.0))),
    BadgeSpec("participant_silver", "Participant Actif - Argent", "Complété 200 tâches",
      "most_tasks", "🎯", "silver", Tier(TasksCompleted, 200.0, Some(499.0))),
    BadgeSpec("participant_gold", "Participant Actif - Or", "Complété 500 tâches ou plus",
      "most_tasks", "🎯", "gold", Tier(TasksCompleted, 500.0, None))]

  const PerformanceBadges: seq<BadgeSpec> := [
    BadgeSpec("performance_silver", "Performance Excellence - Argent", "Score de performance supérieur à 80%",
      "best_performance", "⚡", "silver", Tier(PerformanceScore, 80.0, Some(94.9))),
    BadgeSpec("performance_gold", "Performance Excellence - Or", "Score de performance supérieur à 95%",
      "best_performance", "⚡", "gold", Tier(PerformanceScore, 95.0, None))]

  const LoyaltyBadges: seq<BadgeSpec> := [
    BadgeSpec("loyalty_bronze", "Contributeur Fidèle - Bronze", "50 heures de contribution",
      "most_connected", "⭐", "bronze", Tier(ComputationTime, 50.0, Some(199.0))),
    BadgeSpec("loyalty_silver", "Contributeur Fidèle - Argent", "200 heures de contribution",
      "most_connected", "⭐", "silver", Tier(ComputationTime, 200.0, Some(499.0))),
    BadgeSpec("loyalty_gold", "Contributeur Fidèle - Or", "500 heures de contribution ou plus",
      "most_connected", "⭐", "gold", Tier(ComputationTime, 500.0, None))]

  const VeteranBadges: seq<BadgeSpec> := [
    BadgeSpec("veteran_bronze", "Vétéran - Bronze", "90 jours d'ancienneté",
      "consistency", "🏅", "bronze", Tier(DaysActive, 90.0, Some(364.0))),
    BadgeSpec("veteran_silver", "Vétéran - Argent", "1 an d'ancienneté",
      "consistency", "🏅", "silver", Tier(DaysActive, 365.0, Some(729.0))),
    BadgeSpec("veteran_gold", "Vétéran - Or", "2 ans d'ancienneté ou plus",
      "consistency", "🏅", "gold", Tier(DaysActive, 730.0, None))]

  const SpecialBadges: seq<BadgeSpec> := [
    BadgeSpec("top_performer", "Top Performer", "Classé dans le top 10 des volontaires",
      "fastest", "🚀", "gold", Ranking(10)),
    BadgeSpec("speedster", "Speedster", "Temps d'exécution moyen très rapide",
      "fastest", "💨", "gold", AvgExecutionTime(90))]

  /** `default_badges`, in the order the script adds them. */
  const DefaultBadges: seq<BadgeSpec> :=
    PeriodBadges + ParticipantBadges + PerformanceBadges + LoyaltyBadges + VeteranBadges + SpecialBadges

  // ---------------------------------------------------------------- structure of the table

  predicate DistinctIds(bs: seq<BadgeSpec>) {
    forall i, j | 0 <= i < j < |bs| :: bs[i].badgeId != bs[j].badgeId
  }

  /** Two groups share no badge id. */
  predicate DisjointIds(a: seq<BadgeSpec>, b: seq<BadgeSpec>) {
    forall i, j | 0 <= i < |a| && 0 <= j < |b| :: a[i].badgeId != b[j].badgeId
  }

  lemma DistinctConcat(a: seq<BadgeSpec>, b: seq<BadgeSpec>)
    requires DistinctIds(a) && DistinctIds(b) && DisjointIds(a, b)
    ensures DistinctIds(a + b)
  {
    var c := a + b;
    forall i, j | 0 <= i < j < |c| ensures c[i].badgeId != c[j].badgeId {
      if j < |a| {
        assert c[i] == a[i] && c[j] == a[j];
      } else if i >= |a| {
        assert c[i] == b[i - |a|] && c[j] == b[j - |a|];
      } else {
        assert c[i] == a[i] && c[j] == b[j - |a|];
      }
    }
  }

  lemma DisjointConcat(a: seq<BadgeSpec>, b: seq<BadgeSpec>, c: seq<BadgeSpec>)
    requires DisjointIds(a, c) && DisjointIds(b, c)
    ensures DisjointIds(a + b, c)
  {
    var ab := a + b;
    forall i, j | 0 <= i < |ab| && 0 <= j < |c| ensures ab[i].badgeId != c[j].badgeId {
      if i < |a| { assert ab[i] == a[i]; } else { assert ab[i] == b[i - |a|]; }
    }
  }

  /** Every id of a group starts with the same two letters. */
  predicate IdsStartWith(bs: seq<BadgeSpec>, c0: char, c1: char) {
    forall i | 0 <= i < |bs| :: |bs[i].badgeId| > 1 && bs[i].badgeId[0] == c0 && bs[i].badgeId[1] == c1
  }

  lemma DisjointByPrefix(a: seq<BadgeSpec>, a0: char, a1: char, b: seq<BadgeSpec>, b0: char, b1: char)
    requires IdsStartWith(a, a0, a1) && IdsStartWith(b, b0, b1) && (a0 != b0 || a1 != b1)
    ensures DisjointIds(a, b)
  {
  }

  /** Ids are distinct inside each group, and each tiered group has its own two-letter prefix. */
  lemma PeriodFacts()
    ensures DistinctIds(PeriodBadges) && IdsStartWith(PeriodBadges, 'v', 'o')
  {
    assert PeriodBadges[0].badgeId[13] == 'w' && PeriodBadges[1].badgeId[13] == 'm' && PeriodBadges[2].badgeId[13] == 'y';
  }

  lemma ParticipantFacts()
    ensures DistinctIds(ParticipantBadges) && IdsStartWith(ParticipantBadges, 'p', 'a')
  {
    assert ParticipantBadges[0].badgeId[12] == 'b' && ParticipantBadges[1].badgeId[12] == 's' && ParticipantBadges[2].badgeId[12] == 'g';
  }

  lemma PerformanceFacts()
    ensures DistinctIds(PerformanceBadges) && IdsStartWith(PerformanceBadges, 'p', 'e')
  {
    assert PerformanceBadges[0].badgeId[12] == 's' && PerformanceBadges[1].badgeId[12] == 'g';
  }

  lemma LoyaltyFacts()
    ensures DistinctIds(LoyaltyBadges) && IdsStartWith(LoyaltyBadges, 'l', 'o')
  {
    assert LoyaltyBadges[0].badgeId[8] == 'b' && LoyaltyBadges[1].badgeId[8] == 's' && LoyaltyBadges[2].badgeId[8] == 'g';
  }

  lemma VeteranFacts()
    ensures DistinctIds(VeteranBadges) && IdsStartWith(VeteranBadges, 'v', 'e')
  {
    assert VeteranBadges[0].badgeId[8] == 'b' && VeteranBadges[1].badgeId[8] == 's' && VeteranBadges[2].badgeId[8] == 'g';
  }

  lemma SpecialFacts()
    ensures DistinctIds(SpecialBadges)
    ensures forall i | 0 <= i < |SpecialBadges| :: |SpecialBadges[i].badgeId| > 0 && SpecialBadges[i].badgeId[0] in {'t', 's'}
  {
    assert SpecialBadges[0].badgeId[0] == 't' && SpecialBadges[1].badgeId[0] == 's';
  }

  lemma GroupFacts()
    ensures DistinctIds(PeriodBadges) && DistinctIds(ParticipantBadges) && DistinctIds(PerformanceBadges)
    ensures DistinctIds(LoyaltyBadges) && DistinctIds(VeteranBadges) && DistinctIds(SpecialBadges)
    ensures IdsStartWith(PeriodBadges, 'v', 'o') && IdsStartWith(ParticipantBadges, 'p', 'a')
    ensures IdsStartWith(PerformanceBadges, 'p', 'e') && IdsStartWith(LoyaltyBadges, 'l', 'o')
    ensures IdsStartWith(VeteranBadges, 'v', 'e')
    ensures forall i | 0 <= i < |SpecialBadges| :: |SpecialBadges[i].badgeId| > 0 && SpecialBadges[i].badgeId[0] in {'t', 's'}
  {
    PeriodFacts();
    ParticipantFacts();
    PerformanceFacts();
    LoyaltyFacts();
    VeteranFacts();
    SpecialFacts();
  }

  /** The special badges share no id with the five other groups. */
  lemma SpecialDisjoint(a: seq<BadgeSpec>, c0: char, c1: char)
    requires IdsStartWith(a, c0, c1) && c0 in {'v', 'p', 'l'}
    ensures DisjointIds(a, SpecialBadges)
  {
    GroupFacts();
  }

  /** The sixteen badge ids are pairwise distinct. */
  lemma DefaultBadgeIdsDistinct()
    ensures |DefaultBadges| == 16
    ensures DistinctIds(DefaultBadges)
  {
    GroupFacts();
    var g1 := PeriodBadges + ParticipantBadges;
    DisjointByPrefix(PeriodBadges, 'v', 'o', ParticipantBadges, 'p', 'a');
    DistinctConcat(PeriodBadges, ParticipantBadges);
    var g2 := g1 + PerformanceBadges;
    DisjointByPrefix(PeriodBadges, 'v', 'o', PerformanceBadges, 'p', 'e');
    DisjointByPrefix(ParticipantBadges, 'p', 'a', PerformanceBadges, 'p', 'e');
    DisjointConcat(PeriodBadges, ParticipantBadges, PerformanceBadges);
    DistinctConcat(g1, PerformanceBadges);
    var g3 := g2 + LoyaltyBadges;
    DisjointByPrefix(PeriodBadges, 'v', 'o', LoyaltyBadges, 'l', 'o');
    DisjointByPrefix(ParticipantBadges, 'p', 'a', LoyaltyBadges, 'l', 'o');
    DisjointByPrefix(PerformanceBadges, 'p', 'e', LoyaltyBadges, 'l', 'o');
    DisjointConcat(PeriodBadges, ParticipantBadges, LoyaltyBadges);
    DisjointConcat(g1, PerformanceBadges, LoyaltyBadges);
    DistinctConcat(g2, LoyaltyBadges);
    var g4 := g3 + VeteranBadges;
    DisjointByPrefix(PeriodBadges, 'v', 'o', VeteranBadges, 'v', 'e');
    DisjointByPrefix(ParticipantBadges, 'p', 'a', VeteranBadges, 'v', 'e');
    DisjointByPrefix(PerformanceBadges, 'p', 'e', VeteranBadges, 'v', 'e');
    DisjointByPrefix(LoyaltyBadges, 'l', 'o', VeteranBadges, 'v', 'e');
    DisjointConcat(PeriodBadges, ParticipantBadges, VeteranBadges);
    DisjointConcat(g1, PerformanceBadges, VeteranBadges);
    DisjointConcat(g2, LoyaltyBadges, VeteranBadges);
    DistinctConcat(g3, VeteranBadges);
    SpecialDisjoint(PeriodBadges, 'v', 'o');
    SpecialDisjoint(ParticipantBadges, 'p', 'a');
    SpecialDisjoint(PerformanceBadges, 'p', 'e');
    SpecialDisjoint(LoyaltyBadges, 'l', 'o');
    SpecialDisjoint(VeteranBadges, 'v', 'e');
    DisjointConcat(PeriodBadges, ParticipantBadges, SpecialBadges);
    DisjointConcat(g1, PerformanceBadges, SpecialBadges);
    DisjointConcat(g2, LoyaltyBadges, SpecialBadges);
    DisjointConcat(g3, VeteranBadges, SpecialBadges);
    DistinctConcat(g4, SpecialBadges);
  }

  /** A tier covers a value between its minimum and, when it has one, its maximum, both included. */
  predicate Covers(b: BadgeSpec, x: real) {
    b.criteria.Tier? && b.criteria.min <= x && (b.criteria.max.None? || x <= b.criteria.max.value)
  }

  /** The level of the first tier of `bs` covering `x`, if any. */
  function SeededLevel(bs: seq<BadgeSpec>, x: real): (r: Option<string>)
    ensures r.None? <==> forall b | b in bs :: !Covers(b, x)
    ensures r.Some? ==> exists b | b in bs :: Covers(b, x) && b.level == r.value
  {
    if bs == [] then None
    else if Covers(bs[0], x) then Some(bs[0].level)
    else SeededLevel(bs[1..], x)
  }

  /** How many tiers of `bs` cover `x`. */
  function Coverage(bs: seq<BadgeSpec>, x: real): (n: nat)
    ensures n <= |bs|
    ensures n == 0 <==> forall b | b in bs :: !Covers(b, x)
  {
    if bs == [] then 0 else (if Covers(bs[0], x) then 1 else 0) + Coverage(bs[1..], x)
  }

  /** Within a tiered family, minimums increase strictly and levels go bronze, silver, gold. */
  predicate Ascending(bs: seq<BadgeSpec>) {
    && |bs| > 0
    && (forall i | 0 <= i < |bs| :: bs[i].criteria.Tier?)
    && (forall i, j | 0 <= i < j < |bs| :: bs[i].criteria.min < bs[j].criteria.min)
    && bs[|bs| - 1].level == "gold" && bs[|bs| - 1].criteria.max.None?
  }

  /** The participant tiers go bronze, silver, gold with rising minimums. */
  lemma ParticipantTiersAscend()
    ensures Ascending(ParticipantBadges)
    ensures ParticipantBadges[0].level == "bronze" && ParticipantBadges[1].level == "silver"
  {
  }

  /** The performance tiers go silver, gold with rising minimums. */
  lemma PerformanceTiersAscend()
    ensures Ascending(PerformanceBadges)
    ensures PerformanceBadges[0].level == "silver"
  {
  }

  /** The loyalty tiers go bronze, silver, gold with rising minimums. */
  lemma LoyaltyTiersAscend()
    ensures Ascending(LoyaltyBadges)
    ensures LoyaltyBadges[0].level == "bronze" && LoyaltyBadges[1].level == "silver"
  {
  }

  /** The veteran tiers go bronze, silver, gold with rising minimums. */
  lemma VeteranTiersAscend()
    ensures Ascending(VeteranBadges)
    ensures VeteranBadges[0].level == "bronze" && VeteranBadges[1].level == "silver"
  {
  }

  function Indicator(b: bool): nat {
    if b then 1 else 0
  }

  /** Coverage and first covering level of a three-tier family, entry by entry. */
  lemma Unfold3(bs: seq<BadgeSpec>, x: real)
    requires |bs| == 3
    ensures Coverage(bs, x) == Indicator(Covers(bs[0], x)) + Indicator(Covers(bs[1], x)) + Indicator(Covers(bs[2], x))
    ensures SeededLevel(bs, x) ==
      if Covers(bs[0], x) then Some(bs[0].level)
      else if Covers(bs[1], x) then Some(bs[1].level)
      else if Covers(bs[2], x) then Some(bs[2].level)
      else None
  {
    assert bs[1..][1..][1..] == [];
  }

  /** The same for a two-tier family. */
  lemma Unfold2(bs: seq<BadgeSpec>, x: real)
    requires |bs| == 2
    ensures Coverage(bs, x) == Indicator(Covers(bs[0], x)) + Indicator(Covers(bs[1], x))
    ensures SeededLevel(bs, x) ==
      if Covers(bs[0], x) then Some(bs[0].level)
      else if Covers(bs[1], x) then Some(bs[1].level)
      else None
  {
    assert bs[1..][1..] == [];
  }

  /** Whole task counts from 50 up fall in exactly one participant tier; below 50, in none. */
  lemma TaskTiersPartition(n: int)
    ensures Coverage(ParticipantBadges, n as real) == if n >= 50 then 1 else 0
  {
    Unfold3(ParticipantBadges, n as real);
  }

  /** Whole day counts from 90 up fall in exactly one veteran tier; below 90, in none. */
  lemma DayTiersPartition(n: int)
    ensures Coverage(VeteranBadges, n as real) == if n >= 90 then 1 else 0
  {
    Unfold3(VeteranBadges, n as real);
  }

  /**
   * Computation time is fractional, so the integer bounds 199/200 and
   * 499/500 leave two open gaps that no loyalty tier covers.
   */
  lemma HourTiersLeaveGaps(x: real)
    ensures Coverage(LoyaltyBadges, x) == if x < 50.0 || 199.0 < x < 200.0 || 499.0 < x < 500.0 then 0 else 1
  {
    Unfold3(LoyaltyBadges, x);
  }

  /** The performance tiers leave the scores strictly between 94.9 and 95 uncovered. */
  lemma ScoreTiersLeaveGap(x: real)
    ensures Coverage(PerformanceBadges, x) == if x < 80.0 || 94.9 < x < 95.0 then 0 else 1
  {
    Unfold2(PerformanceBadges, x);
  }

  function LevelName(l: BadgeRoutes.Level): string {
    match l
    case Bronze => "bronze"
    case Silver => "silver"
    case Gold => "gold"
  }

  /**
   * The seeded participant tiers agree with the level the badge route gives
   * for the same task count only from 500 tasks on.
   */
  lemma ParticipantTiersDisagree(n: int)
    requires n > 0
    ensures SeededLevel(ParticipantBadges, n as real) == Some(LevelName(BadgeRoutes.TaskLevel(n))) <==> n >= 500
  {
    Unfold3(ParticipantBadges, n as real);
  }

  /** The seeded veteran tiers agree with the route's veteran level only from 730 days on. */
  lemma VeteranTiersDisagree(n: int)
    requires n >= 30
    ensures SeededLevel(VeteranBadges, n as real) == Some(LevelName(BadgeRoutes.SeniorityLevel(n))) <==> n >= 730
  {
    Unfold3(VeteranBadges, n as real);
  }

  /** The seeded loyalty tiers agree with the route's contributor level only from 500 hours on. */
  lemma LoyaltyTiersDisagree(x: real)
    requires x >= 10.0
    ensures SeededLevel(LoyaltyBadges, x) == Some(LevelName(BadgeRoutes.HoursLevel(x))) <==> x >= 500.0
  {
    Unfold3(LoyaltyBadges, x);
  }

  /** The seeded performance tiers agree with the route everywhere except the gap (94.9, 95). */
  lemma PerformanceTiersDisagree(x: real)
    requires x >= 80.0
    ensures SeededLevel(PerformanceBadges, x) == Some(LevelName(BadgeRoutes.ScoreLevel(x))) <==> !(94.9 < x < 95.0)
  {
    Unfold2(PerformanceBadges, x);
  }

  // ---------------------------------------------------------------- seeding

  /** The row `Badge(**badge_data)` becomes once added, with the id the store hands out. */
  function SpecToBadge(s: BadgeSpec, id: int, now: Instant): (b: Badge)
    ensures b.id == id && b.badgeId == s.badgeId && b.name == s.name
    ensures b.description == Some(s.description) && b.category == Some(s.category)
    ensures b.icon == s.icon && b.level == s.level && b.criteria == CriteriaJson(s.criteria)
    ensures b.active && b.createdAt == Some(now) && b.updatedAt == Some(now)
  {
    Badge(id, s.badgeId, s.name, Some(s.description), Some(s.category), s.icon, s.level,
      CriteriaJson(s.criteria), true, Some(now), Some(now))
  }

  /** The rows added for the entries of `specs` that construct, ids counting up from `firstId`. */
  ghost function Built(specs: seq<BadgeSpec>, constructs: BadgeSpec -> bool, firstId: int, now: Instant): seq<Badge>
  {
    if specs == [] then []
    else
      var front := Built(specs[..|specs| - 1], constructs, firstId, now);
      var s := specs[|specs| - 1];
      if constructs(s) then front + [SpecToBadge(s, firstId + |front|, now)] else front
  }

  /** One row per constructed entry, each carrying its entry's badge id. */
  lemma {:induction false} BuiltRows(specs: seq<BadgeSpec>, constructs: BadgeSpec -> bool, firstId: int, now: Instant)
    ensures |Built(specs, constructs, firstId, now)| == Count(specs, constructs)
    ensures forall b | b in Built(specs, constructs, firstId, now) ::
      exists s | s in specs :: constructs(s) && b == SpecToBadge(s, b.id, now)
  {
    if specs != [] {
      var front, s := specs[..|specs| - 1], specs[|specs| - 1];
      BuiltRows(front, constructs, firstId, now);
      assert specs == front + [s];
      CountAppend(front, [s], constructs);
    }
  }

  /** Distinct table ids give a catalogue with unique badge ids. */
  lemma {:induction false} BuiltUnique(specs: seq<BadgeSpec>, constructs: BadgeSpec -> bool, firstId: int, now: Instant)
    requires DistinctIds(specs)
    ensures UniqueBadgeIds(Built(specs, constructs, firstId, now))
  {
    if specs != [] {
      var front, s := specs[..|specs| - 1], specs[|specs| - 1];
      assert DistinctIds(front);
      BuiltUnique(front, constructs, firstId, now);
      LastIdIsNew(specs, constructs, firstId, now);
      var bs := Built(front, constructs, firstId, now);
      if constructs(s) {
        AppendKeepsUnique(bs, SpecToBadge(s, firstId + |bs|, now));
      }
    }
  }

  /** No row built from the entries before the last carries the last entry's id. */
  lemma LastIdIsNew(specs: seq<BadgeSpec>, constructs: BadgeSpec -> bool, firstId: int, now: Instant)
    requires DistinctIds(specs) && specs != []
    ensures forall b | b in Built(specs[..|specs| - 1], constructs, firstId, now) :: b.badgeId != specs[|specs| - 1].badgeId
  {
    var front, s := specs[..|specs| - 1], specs[|specs| - 1];
    BuiltRows(front, constructs, firstId, now);
    forall b | b in Built(front, constructs, firstId, now) ensures b.badgeId != s.badgeId {
      var t :| t in front && constructs(t) && b == SpecToBadge(t, b.id, now);
      var k :| 0 <= k < |front| && front[k] == t;
      assert specs[k] == t;
    }
  }

  /** A row with a fresh badge id keeps the ids unique. */
  lemma AppendKeepsUnique(bs: seq<Badge>, x: Badge)
    requires UniqueBadgeIds(bs)
    requires forall b | b in bs :: b.badgeId != x.badgeId
    ensures UniqueBadgeIds(bs + [x])
  {
    var cs := bs + [x];
    forall i, j | 0 <= i < j < |cs| ensures cs[i].badgeId != cs[j].badgeId {
      if j == |bs| {
        assert cs[i] in bs;
      } else {
        assert cs[i] == bs[i] && cs[j] == bs[j];
      }
    }
  }

  /** The id column of the catalogue, as NextId reads it. */
  function BadgeRowId(): Badge -> int {
    (b: Badge) => b.id
  }

  /**
   * The catalogue table the script works on. A row added receives
   * NextId of the table, so ids start again from 1 once it is emptied.
   */
  class BadgeStore {
    var badges: seq<Badge>

    constructor (badges: seq<Badge>)
      ensures this.badges == badges
    {
      this.badges := badges;
    }

    /**
     * `seed_badges`. With badges already present, the operator's `answer`
     * decides: anything but "y" (in any case) leaves the table alone.
     * Otherwise the table is emptied and committed, every default entry
     * that constructs (`constructs`) is added with ids counting from 1, and
     * the final commit either stores them all or, when it fails, rolls them
     * all back.
     */
    method Seed(answer: string, constructs: BadgeSpec -> bool, commitSucceeds: bool, now: Instant)
      returns (declined: bool, createdCount: nat)
      modifies this
      ensures declined <==> |old(badges)| > 0 && AsciiLower(answer) != "y"
      ensures declined ==> badges == old(badges)
      ensures !declined ==> createdCount == Count(DefaultBadges, constructs)
      ensures !declined && commitSucceeds ==> badges == Built(DefaultBadges, constructs, 1, now)
      ensures !declined && !commitSucceeds ==> badges == []
    {
      if |badges| > 0 && AsciiLower(answer) != "y" {
        return true, 0;
      }
      declined := false;
      badges := [];
      var pending;
      pending, createdCount := BuildRows(DefaultBadges, constructs, NextId(badges, BadgeRowId()), now);
      if commitSucceeds {
        badges := pending;
      }
    }
  }

  /** The loop of `seed_badges`: one row for every entry that constructs, counted. */
  method BuildRows(specs: seq<BadgeSpec>, constructs: BadgeSpec -> bool, firstId: int, now: Instant)
    returns (pending: seq<Badge>, createdCount: nat)
    ensures pending == Built(specs, constructs, firstId, now)
    ensures createdCount == Count(specs, constructs) == |pending|
  {
    pending := [];
    createdCount := 0;
    for i := 0 to |specs|
      invariant createdCount == Count(specs[..i], constructs) == |pending|
      invariant pending == Built(specs[..i], constructs, firstId, now)
    {
      BuiltStep(specs, i, constructs, firstId, now);
      var spec := specs[i];
      if constructs(spec) {
        pending := pending + [SpecToBadge(spec, firstId + createdCount, now)];
        createdCount := createdCount + 1;
      }
    }
    assert specs[..|specs|] == specs;
  }

  /** One more entry adds its row when it is constructed, and nothing otherwise. */
  lemma BuiltStep(specs: seq<BadgeSpec>, i: nat, constructs: BadgeSpec -> bool, firstId: int, now: Instant)
    requires i < |specs|
    ensures Count(specs[..i + 1], constructs) == Count(specs[..i], constructs) + if constructs(specs[i]) then 1 else 0
    ensures Built(specs[..i + 1], constructs, firstId, now) == Built(specs[..i], constructs, firstId, now)
      + if constructs(specs[i]) then [SpecToBadge(specs[i], firstId + |Built(specs[..i], constructs, firstId, now)|, now)] else []
  {
    assert specs[..i + 1][..i] == specs[..i];
    CountAppend(specs[..i], [specs[i]], constructs);
    assert specs[..i + 1] == specs[..i] + [specs[i]];
  }

  /** After a committed seeding the catalogue's badge ids are unique. */
  lemma SeededCatalogueUnique(constructs: BadgeSpec -> bool, firstId: int, now: Instant)
    ensures UniqueBadgeIds(Built(DefaultBadges, constructs, firstId, now))
  {
    DefaultBadgeIdsDistinct();
    BuiltUnique(DefaultBadges, constructs, firstId, now);
  }
}
