/**
 * The ranking side of the badge routes: the four hard-coded badges one
 * volunteer earns, the volunteers of the week, month and year, the
 * composite-score leaderboard and the per-category top performers. The
 * volunteers table is a sequence of rows and `now` is a parameter.
 */
module BadgeRoutes {
  import opened Common
  import opened Query
  import opened MetricsModel

  // ---------------------------------------------------------------- one volunteer's badges

  datatype Level = Bronze | Silver | Gold

  /** The four badges, in the order the route considers them. */
  datatype BadgeKind = ActiveParticipant | PerformanceExcellence | LoyalContributor | Veteran

  /** The measured value a badge or an award quotes in its description or reason. */
  datatype Detail =
    | TasksDone(tasks: int)
    | ScorePercent(score: real)
    | HoursContributed(hours: real)
    | DaysSeniority(days: int)
    | ComputeHours(computeHours: real)

  datatype EarnedBadge = EarnedBadge(kind: BadgeKind, level: Level, detail: Detail)

  function KindName(k: BadgeKind): string {
    match k
    case ActiveParticipant => "Participant Actif"
    case PerformanceExcellence => "Performance Excellence"
    case LoyalContributor => "Contributeur Fidèle"
    case Veteran => "Vétéran"
  }

  function KindIcon(k: BadgeKind): string {
    match k
    case ActiveParticipant => "🎯"
    case PerformanceExcellence => "⚡"
    case LoyalContributor => "⭐"
    case Veteran => "🏆"
  }

  /** Position of a kind in the route's order. */
  function KindIndex(k: BadgeKind): (n: nat)
    ensures n < 4
  {
    match k
    case ActiveParticipant => 0
    case PerformanceExcellence => 1
    case LoyalContributor => 2
    case Veteran => 3
  }

  /** Participant tier: bronze below 50 tasks, silver below 200, gold from 200. */
  function TaskLevel(tasks: int): Level {
    if tasks < 50 then Bronze else if tasks < 200 then Silver else Gold
  }

  /** Performance tier: gold from a score of 95, silver below. */
  function ScoreLevel(score: real): Level {
    if score >= 95.0 then Gold else Silver
  }

  /** Contributor tier: bronze below 50 hours, silver below 200, gold from 200. */
  function HoursLevel(hours: real): Level {
    if hours < 50.0 then Bronze else if hours < 200.0 then Silver else Gold
  }

  /** Veteran tier: bronze below 90 days, silver below 365, gold from 365. */
  function SeniorityLevel(days: int): Level {
    if days < 90 then Bronze else if days < 365 then Silver else Gold
  }

  /** Whole days since the volunteer joined; 0 when the join date is unset. */
  function DaysActive(v: Volunteer, now: Instant): int {
    if v.joinedDate.Some? then WholeDays(now, v.joinedDate.value) else 0
  }

  predicate HasKind(bs: seq<EarnedBadge>, k: BadgeKind) {
    exists b | b in bs :: b.kind == k
  }

  /** Each badge quotes the volunteer's own figure and carries the tier that figure reaches. */
  predicate Justified(v: Volunteer, now: Instant, b: EarnedBadge) {
    match b.kind
    case ActiveParticipant =>
      b.detail == TasksDone(v.tasksCompleted) && b.level == TaskLevel(v.tasksCompleted)
    case PerformanceExcellence =>
      b.detail == ScorePercent(v.performanceScore) && b.level == ScoreLevel(v.performanceScore)
    case LoyalContributor =>
      b.detail == HoursContributed(v.totalComputationTime) && b.level == HoursLevel(v.totalComputationTime)
    case Veteran =>
      b.detail == DaysSeniority(DaysActive(v, now)) && b.level == SeniorityLevel(DaysActive(v, now))
  }

  /** Every kind appears at most once, in the route's order. */
  predicate KindsIncreasing(bs: seq<EarnedBadge>) {
    forall i, j | 0 <= i < j < |bs| :: KindIndex(bs[i].kind) < KindIndex(bs[j].kind)
  }

  /** What the badge list of `v` at `now` must be. */
  predicate BadgeRules(v: Volunteer, now: Instant, bs: seq<EarnedBadge>) {
    && (HasKind(bs, ActiveParticipant) <==> v.tasksCompleted > 0)
    && (HasKind(bs, PerformanceExcellence) <==> v.performanceScore >= 80.0)
    && (HasKind(bs, LoyalContributor) <==> v.totalComputationTime >= 10.0)
    && (HasKind(bs, Veteran) <==> DaysActive(v, now) >= 30)
    && (forall b | b in bs :: Justified(v, now, b))
    && KindsIncreasing(bs)
  }

  /** The badge list `get_volunteer_badges` builds for one volunteer. */
  method AwardBadges(v: Volunteer, now: Instant) returns (badges: seq<EarnedBadge>)
    ensures HasKind(badges, ActiveParticipant) <==> v.tasksCompleted > 0
    ensures HasKind(badges, PerformanceExcellence) <==> v.performanceScore >= 80.0
    ensures HasKind(badges, LoyalContributor) <==> v.totalComputationTime >= 10.0
    ensures HasKind(badges, Veteran) <==> DaysActive(v, now) >= 30
    ensures forall b | b in badges :: Justified(v, now, b)
    ensures KindsIncreasing(badges)
    ensures |badges| <= 4
  {
    badges := [];
    var b := EarnedBadge(ActiveParticipant, TaskLevel(v.tasksCompleted), TasksDone(v.tasksCompleted));
    StepNext(v, now, badges, 0, b);
    if v.tasksCompleted > 0 {
      badges := badges + [b];
    }
    b := EarnedBadge(PerformanceExcellence, ScoreLevel(v.performanceScore), ScorePercent(v.performanceScore));
    StepNext(v, now, badges, 1, b);
    if v.performanceScore >= 80.0 {
      badges := badges + [b];
    }
    b := EarnedBadge(LoyalContributor, HoursLevel(v.totalComputationTime), HoursContributed(v.totalComputationTime));
    StepNext(v, now, badges, 2, b);
    if v.totalComputationTime >= 10.0 {
      badges := badges + [b];
    }
    var daysActive := DaysActive(v, now);
    b := EarnedBadge(Veteran, SeniorityLevel(daysActive), DaysSeniority(daysActive));
    StepNext(v, now, badges, 3, b);
    if daysActive >= 30 {
      badges := badges + [b];
    }
    StepDone(v, now, badges);
  }

  /** The route's rule for one kind: whether `v` earns it. */
  predicate Earns(v: Volunteer, now: Instant, k: BadgeKind) {
    match k
    case ActiveParticipant => v.tasksCompleted > 0
    case PerformanceExcellence => v.performanceScore >= 80.0
    case LoyalContributor => v.totalComputationTime >= 10.0
    case Veteran => DaysActive(v, now) >= 30
  }

  /** After the first `n` rules, the list holds exactly the badges those rules grant. */
  ghost predicate Step(v: Volunteer, now: Instant, bs: seq<EarnedBadge>, n: nat) {
    && |bs| <= n
    && KindsIncreasing(bs)
    && (forall b | b in bs :: KindIndex(b.kind) < n && Justified(v, now, b))
    && (forall k | KindIndex(k) < n :: HasKind(bs, k) <==> Earns(v, now, k))
  }

  /** Considering rule `n` keeps Step whether or not its badge is appended. */
  lemma StepNext(v: Volunteer, now: Instant, bs: seq<EarnedBadge>, n: nat, b: EarnedBadge)
    requires Step(v, now, bs, n) && KindIndex(b.kind) == n && Justified(v, now, b)
    ensures Earns(v, now, b.kind) ==> Step(v, now, bs + [b], n + 1)
    ensures !Earns(v, now, b.kind) ==> Step(v, now, bs, n + 1)
  {
    var cs := bs + [b];
    assert forall k | KindIndex(k) < n :: HasKind(cs, k) <==> HasKind(bs, k);
    assert HasKind(cs, b.kind);
  }

  lemma StepDone(v: Volunteer, now: Instant, bs: seq<EarnedBadge>)
    requires Step(v, now, bs, 4)
    ensures HasKind(bs, ActiveParticipant) <==> v.tasksCompleted > 0
    ensures HasKind(bs, PerformanceExcellence) <==> v.performanceScore >= 80.0
    ensures HasKind(bs, LoyalContributor) <==> v.totalComputationTime >= 10.0
    ensures HasKind(bs, Veteran) <==> DaysActive(v, now) >= 30
    ensures forall b | b in bs :: Justified(v, now, b)
    ensures KindsIncreasing(bs) && |bs| <= 4
  {
    assert Earns(v, now, ActiveParticipant) <==> v.tasksCompleted > 0;
    assert Earns(v, now, PerformanceExcellence) <==> v.performanceScore >= 80.0;
    assert Earns(v, now, LoyalContributor) <==> v.totalComputationTime >= 10.0;
    assert Earns(v, now, Veteran) <==> DaysActive(v, now) >= 30;
  }

  /** The rules leave exactly one admissible badge list. */
  lemma BadgeRulesDetermineList(v: Volunteer, now: Instant, a: seq<EarnedBadge>, b: seq<EarnedBadge>)
    requires BadgeRules(v, now, a) && BadgeRules(v, now, b)
    ensures a == b
  {
    forall x, y | x in a && y in b && x.kind == y.kind ensures x == y {
      JustifiedUnique(v, now, x, y);
    }
    IncreasingDetermined(a, b);
  }

  lemma JustifiedUnique(v: Volunteer, now: Instant, x: EarnedBadge, y: EarnedBadge)
    requires Justified(v, now, x) && Justified(v, now, y) && x.kind == y.kind
    ensures x == y
  {
  }

  /** Two badge lists hold the same kinds. */
  predicate SameKinds(a: seq<EarnedBadge>, b: seq<EarnedBadge>) {
    forall k :: HasKind(a, k) <==> HasKind(b, k)
  }

  /** Two badge lists agree on every kind they share. */
  predicate KindwiseEqual(a: seq<EarnedBadge>, b: seq<EarnedBadge>) {
    forall x, y | x in a && y in b && x.kind == y.kind :: x == y
  }

  /** Two kind-ordered lists with the same kinds, agreeing on each kind, are equal. */
  lemma {:induction false} IncreasingDetermined(a: seq<EarnedBadge>, b: seq<EarnedBadge>)
    requires KindsIncreasing(a) && KindsIncreasing(b)
    requires SameKinds(a, b) && KindwiseEqual(a, b)
    ensures a == b
    decreases |a|
  {
    EmptyTogether(a, b);
    if a != [] {
      HeadsAgree(a, b);
      TailsAgree(a, b);
      IncreasingDetermined(a[1..], b[1..]);
      assert a == [a[0]] + a[1..] && b == [b[0]] + b[1..];
    }
  }

  /** Lists with the same kinds are empty together. */
  lemma EmptyTogether(a: seq<EarnedBadge>, b: seq<EarnedBadge>)
    requires SameKinds(a, b)
    ensures a == [] <==> b == []
  {
    NoKindMeansEmpty(a);
    NoKindMeansEmpty(b);
  }

  /** Two non-empty kind-ordered lists with the same kinds start with the same badge. */
  lemma HeadsAgree(a: seq<EarnedBadge>, b: seq<EarnedBadge>)
    requires a != [] && b != []
    requires KindsIncreasing(a) && KindsIncreasing(b)
    requires SameKinds(a, b) && KindwiseEqual(a, b)
    ensures a[0] == b[0]
  {
    assert HasKind(a, a[0].kind) && HasKind(b, b[0].kind);
    HeadKindIsLeast(b, a[0].kind);
    HeadKindIsLeast(a, b[0].kind);
    assert a[0] in a && b[0] in b;
  }

  /** Their tails then meet the same conditions. */
  lemma TailsAgree(a: seq<EarnedBadge>, b: seq<EarnedBadge>)
    requires a != [] && b != [] && a[0] == b[0]
    requires KindsIncreasing(a) && KindsIncreasing(b)
    requires SameKinds(a, b) && KindwiseEqual(a, b)
    ensures KindsIncreasing(a[1..]) && KindsIncreasing(b[1..])
    ensures SameKinds(a[1..], b[1..]) && KindwiseEqual(a[1..], b[1..])
  {
    forall k ensures HasKind(a[1..], k) <==> HasKind(b[1..], k) {
      TailKinds(a, k);
      TailKinds(b, k);
    }
    TailIncreasing(a);
    TailIncreasing(b);
    assert KindwiseEqual(a[1..], b[1..]);
  }

  /** The tail of a kind-ordered list is kind-ordered, and drawn from the list. */
  lemma TailIncreasing(a: seq<EarnedBadge>)
    requires KindsIncreasing(a) && a != []
    ensures KindsIncreasing(a[1..])
    ensures forall x | x in a[1..] :: x in a
  {
    forall i, j | 0 <= i < j < |a[1..]| ensures KindIndex(a[1..][i].kind) < KindIndex(a[1..][j].kind) {
      assert a[1..][i] == a[i + 1] && a[1..][j] == a[j + 1];
    }
  }

  lemma NoKindMeansEmpty(a: seq<EarnedBadge>)
    ensures a == [] <==> forall k :: !HasKind(a, k)
  {
    if a != [] {
      assert HasKind(a, a[0].kind);
    }
  }

  /** The head of a kind-ordered list has the least kind in it. */
  lemma HeadKindIsLeast(a: seq<EarnedBadge>, k: BadgeKind)
    requires KindsIncreasing(a) && HasKind(a, k)
    ensures KindIndex(a[0].kind) <= KindIndex(k)
  {
    var i :| 0 <= i < |a| && a[i].kind == k;
    if i > 0 {
      assert KindIndex(a[0].kind) < KindIndex(a[i].kind);
    }
  }

  /** Dropping the head of a kind-ordered list drops exactly the head's kind. */
  lemma TailKinds(a: seq<EarnedBadge>, k: BadgeKind)
    requires KindsIncreasing(a) && a != []
    ensures HasKind(a[1..], k) <==> HasKind(a, k) && k != a[0].kind
  {
    if HasKind(a[1..], k) {
      var i :| 0 <= i < |a[1..]| && a[1..][i].kind == k;
      assert a[i + 1].kind == k;
      assert KindIndex(a[0].kind) < KindIndex(a[i + 1].kind);
    }
    if HasKind(a, k) && k != a[0].kind {
      var i :| 0 <= i < |a| && a[i].kind == k;
      assert a[1..][i - 1] == a[i];
    }
  }

  /** A volunteer inserted a moment ago has earned nothing yet. */
  lemma NewVolunteerHasNoBadges(id: int, volunteerId: string, name: string, now: Instant, bs: seq<EarnedBadge>)
    requires BadgeRules(NewVolunteer(id, volunteerId, name, now), now, bs)
    ensures bs == []
  {
    var v := NewVolunteer(id, volunteerId, name, now);
    assert DaysActive(v, now) == 0;
    NoKindMeansEmpty(bs);
  }

  datatype VolunteerBadges = VolunteerBadges(volunteer: Volunteer, badges: seq<EarnedBadge>, totalBadges: int)

  /**
   * `get_volunteer_badges`: the volunteer's row, its badges and their count,
   * or not found. Serialising a volunteer with a missing date raises, and
   * the route answers 500.
   */
  method GetVolunteerBadges(vs: seq<Volunteer>, volunteerId: string, now: Instant) returns (r: Response<VolunteerBadges>)
    ensures r.NotFound? <==> forall v | v in vs :: v.volunteerId != volunteerId
    ensures r.NotFound? ==> r.message == "Volontaire non trouvé"
    ensures r.ServerError? ==> exists v | v in vs :: v.volunteerId == volunteerId && !Serialisable(v)
    ensures (forall v | v in vs && v.volunteerId == volunteerId :: Serialisable(v)) ==> !r.ServerError?
    ensures r.Ok? ==> r.data.volunteer in vs && r.data.volunteer.volunteerId == volunteerId
    ensures r.Ok? ==> Serialisable(r.data.volunteer)
    ensures r.Ok? ==> BadgeRules(r.data.volunteer, now, r.data.badges)
    ensures r.Ok? ==> r.data.totalBadges == |r.data.badges| <= 4
  {
    var found := FindVolunteer(vs, volunteerId);
    if found.None? {
      return NotFound("Volontaire non trouvé");
    }
    var badges := AwardBadges(found.value, now);
    if !Serialisable(found.value) {
      return ServerError;
    }
    r := Ok(VolunteerBadges(found.value, badges, |badges|));
  }

  // ---------------------------------------------------------------- periods and winners

  /**
   * The recency filter of a period: week and month look at `last_seen`,
   * year at `joined_date`, anything else keeps every row. An unset date
   * never passes a comparison.
   */
  predicate InPeriod(v: Volunteer, period: string, now: Instant) {
    if period == "week" then v.lastSeen.Some? && v.lastSeen.value >= DaysBefore(now, 7)
    else if period == "month" then v.lastSeen.Some? && v.lastSeen.value >= DaysBefore(now, 30)
    else if period == "year" then v.joinedDate.Some? && v.joinedDate.value >= DaysBefore(now, 365)
    else true
  }

  function PeriodFilter(vs: seq<Volunteer>, period: string, now: Instant): (r: seq<Volunteer>)
    ensures forall v :: v in r <==> v in vs && InPeriod(v, period, now)
    ensures |r| <= |vs|
  {
    Filter(vs, v => InPeriod(v, period, now))
  }

  /** The weekly, monthly and yearly filters, each spelt out. */
  lemma WeekPeriod(now: Instant)
    ensures forall v :: InPeriod(v, "week", now) <==> v.lastSeen.Some? && v.lastSeen.value >= DaysBefore(now, 7)
  {
  }

  lemma MonthPeriod(now: Instant)
    ensures forall v :: InPeriod(v, "month", now) <==> v.lastSeen.Some? && v.lastSeen.value >= DaysBefore(now, 30)
  {
  }

  lemma YearPeriod(now: Instant)
    ensures forall v :: InPeriod(v, "year", now) <==> v.joinedDate.Some? && v.joinedDate.value >= DaysBefore(now, 365)
  {
  }

  /** A period other than week, month or year filters nothing out. */
  lemma OtherPeriodKeepsAll(vs: seq<Volunteer>, period: string, now: Instant)
    requires period != "week" && period != "month" && period != "year"
    ensures PeriodFilter(vs, period, now) == vs
  {
    FilterAll(vs, v => InPeriod(v, period, now));
  }

  lemma {:induction false} FilterAll<T(!new)>(s: seq<T>, p: T -> bool)
    requires forall x | x in s :: p(x)
    ensures Filter(s, p) == s
  {
    if s != [] {
      FilterAll(s[1..], p);
      assert s == [s[0]] + s[1..];
    }
  }

  function TasksKey(v: Volunteer): real { v.tasksCompleted as real }
  function ScoreKey(v: Volunteer): real { v.performanceScore }
  function ComputeKey(v: Volunteer): real { v.totalComputationTime }

  /** A volunteer-of-the-period award. */
  datatype Award = Award(badge: string, period: string, volunteer: Volunteer, reason: Detail, awardedDate: Instant)

  /** The row with the largest key among those that pass the period filter. */
  function Winner(vs: seq<Volunteer>, period: string, now: Instant, key: Volunteer -> real): (r: Option<Volunteer>)
    ensures r.None? <==> forall v | v in vs :: !InPeriod(v, period, now)
    ensures r.Some? ==> r.value in vs && InPeriod(r.value, period, now)
    ensures r.Some? ==> forall v | v in vs && InPeriod(v, period, now) :: key(v) <= key(r.value)
  {
    var top := First(PeriodFilter(vs, period, now), key);
    if top == [] then None else Some(top[0])
  }

  /** `get_volunteer_of_week`: most tasks among those seen in the last 7 days. */
  function VolunteerOfWeek(vs: seq<Volunteer>, now: Instant): (r: Response<Award>)
    ensures r.NotFound? <==> forall v | v in vs :: v.lastSeen.None? || v.lastSeen.value < DaysBefore(now, 7)
    ensures r.ServerError? ==> exists v | v in vs && v.lastSeen.Some? && v.lastSeen.value >= DaysBefore(now, 7) :: !Serialisable(v)
    ensures (forall v | v in vs && v.lastSeen.Some? && v.lastSeen.value >= DaysBefore(now, 7) :: Serialisable(v)) ==> !r.ServerError?
    ensures r.Ok? ==> Serialisable(r.data.volunteer)
    ensures r.Ok? ==> (r.data.volunteer in vs && r.data.volunteer.lastSeen.Some?
      && r.data.volunteer.lastSeen.value >= DaysBefore(now, 7))
    ensures r.Ok? ==> forall v | v in vs && v.lastSeen.Some? && v.lastSeen.value >= DaysBefore(now, 7) ::
      v.tasksCompleted <= r.data.volunteer.tasksCompleted
    ensures r.Ok? ==> r.data == Award("Volontaire de la Semaine", "weekly", r.data.volunteer,
      TasksDone(r.data.volunteer.tasksCompleted), now)
  {
    WeekPeriod(now);
    match Winner(vs, "week", now, TasksKey)
    case None => NotFound("Aucun volontaire actif cette semaine")
    case Some(w) =>
      if !Serialisable(w) then ServerError
      else Ok(Award("Volontaire de la Semaine", "weekly", w, TasksDone(w.tasksCompleted), now))
  }

  /** `get_volunteer_of_month`: best performance score among those seen in the last 30 days. */
  function VolunteerOfMonth(vs: seq<Volunteer>, now: Instant): (r: Response<Award>)
    ensures r.NotFound? <==> forall v | v in vs :: v.lastSeen.None? || v.lastSeen.value < DaysBefore(now, 30)
    ensures r.ServerError? ==> exists v | v in vs && v.lastSeen.Some? && v.lastSeen.value >= DaysBefore(now, 30) :: !Serialisable(v)
    ensures (forall v | v in vs && v.lastSeen.Some? && v.lastSeen.value >= DaysBefore(now, 30) :: Serialisable(v)) ==> !r.ServerError?
    ensures r.Ok? ==> Serialisable(r.data.volunteer)
    ensures r.Ok? ==> (r.data.volunteer in vs && r.data.volunteer.lastSeen.Some?
      && r.data.volunteer.lastSeen.value >= DaysBefore(now, 30))
    ensures r.Ok? ==> forall v | v in vs && v.lastSeen.Some? && v.lastSeen.value >= DaysBefore(now, 30) ::
      v.performanceScore <= r.data.volunteer.performanceScore
    ensures r.Ok? ==> r.data == Award("Volontaire du Mois", "monthly", r.data.volunteer,
      ScorePercent(r.data.volunteer.performanceScore), now)
  {
    MonthPeriod(now);
    match Winner(vs, "month", now, ScoreKey)
    case None => NotFound("Aucun volontaire actif ce mois")
    case Some(w) =>
      if !Serialisable(w) then ServerError
      else Ok(Award("Volontaire du Mois", "monthly", w, ScorePercent(w.performanceScore), now))
  }

  /** `get_volunteer_of_year`: most computation time among those who joined in the last 365 days. */
  function VolunteerOfYear(vs: seq<Volunteer>, now: Instant): (r: Response<Award>)
    ensures r.NotFound? <==> forall v | v in vs :: v.joinedDate.None? || v.joinedDate.value < DaysBefore(now, 365)
    ensures r.ServerError? ==> exists v | v in vs && v.joinedDate.Some? && v.joinedDate.value >= DaysBefore(now, 365) :: !Serialisable(v)
    ensures (forall v | v in vs && v.joinedDate.Some? && v.joinedDate.value >= DaysBefore(now, 365) :: Serialisable(v)) ==> !r.ServerError?
    ensures r.Ok? ==> Serialisable(r.data.volunteer)
    ensures r.Ok? ==> (r.data.volunteer in vs && r.data.volunteer.joinedDate.Some?
      && r.data.volunteer.joinedDate.value >= DaysBefore(now, 365))
    ensures r.Ok? ==> forall v | v in vs && v.joinedDate.Some? && v.joinedDate.value >= DaysBefore(now, 365) ::
      v.totalComputationTime <= r.data.volunteer.totalComputationTime
    ensures r.Ok? ==> r.data == Award("Volontaire de l'Année", "yearly", r.data.volunteer,
      ComputeHours(r.data.volunteer.totalComputationTime), now)
  {
    YearPeriod(now);
    match Winner(vs, "year", now, ComputeKey)
    case None => NotFound("Aucun volontaire actif cette année")
    case Some(w) =>
      if !Serialisable(w) then ServerError
      else Ok(Award("Volontaire de l'Année", "yearly", w, ComputeHours(w.totalComputationTime), now))
  }

  // ---------------------------------------------------------------- leaderboard

  /** The weighted score the leaderboard ranks by, before rounding. */
  function CompositeScore(v: Volunteer): real {
    v.tasksCompleted as real * 0.4 + v.performanceScore * 0.3 + v.totalComputationTime * 0.3
  }

  /** A leaderboard row; `rank` is set once the row is placed. */
  datatype LeaderEntry = LeaderEntry(volunteer: Volunteer, compositeScore: real, rank: Option<int>)

  function EntryScore(e: LeaderEntry): real { e.compositeScore }

  /** The row the scoring loop appends for `v`, before ranking. */
  function Scored(v: Volunteer): (e: LeaderEntry)
    ensures e.volunteer == v && e.rank.None?
    ensures v.tasksCompleted as real * 0.4 + v.performanceScore * 0.3 + v.totalComputationTime * 0.3 - 0.005
      < e.compositeScore <= v.tasksCompleted as real * 0.4 + v.performanceScore * 0.3 + v.totalComputationTime * 0.3 + 0.005
  {
    LeaderEntry(v, Round2(CompositeScore(v)), None)
  }

  /** The unranked rows of a sequence of volunteers, one per volunteer, in order. */
  ghost function ScoreAll(vs: seq<Volunteer>): (r: seq<LeaderEntry>)
    ensures |r| == |vs|
    ensures forall k | 0 <= k < |vs| :: r[k] == Scored(vs[k])
  {
    if vs == [] then [] else [Scored(vs[0])] + ScoreAll(vs[1..])
  }

  /** The rows with their ranks cleared. */
  ghost function Unrank(es: seq<LeaderEntry>): (r: seq<LeaderEntry>)
    ensures |r| == |es|
    ensures forall k | 0 <= k < |es| :: r[k] == es[k].(rank := None)
  {
    if es == [] then [] else [es[0].(rank := None)] + Unrank(es[1..])
  }

  datatype Leaderboard = Leaderboard(period: string, entries: seq<LeaderEntry>, totalVolunteers: int, generatedAt: Instant)

  const LeaderboardSize: nat := 50

  /**
   * `entries` is a leaderboard of `pool`: as many rows as the pool has, up to
   * 50; numbered 1, 2, ... without gaps; each row is a pool volunteer with
   * its rounded composite score; scores never increase down the board; no
   * volunteer appears more often than in the pool; and a volunteer left off
   * scores no higher than anyone on the board.
   */
  ghost predicate RanksPool(entries: seq<LeaderEntry>, pool: seq<Volunteer>) {
    && |entries| == (if |pool| < LeaderboardSize then |pool| else LeaderboardSize)
    && (forall k | 0 <= k < |entries| :: entries[k].rank == Some(k + 1))
    && (forall k | 0 <= k < |entries| ::
         entries[k].volunteer in pool && entries[k].compositeScore == Round2(CompositeScore(entries[k].volunteer)))
    && (forall i, j | 0 <= i < j < |entries| :: entries[j].compositeScore <= entries[i].compositeScore)
    && multiset(Unrank(entries)) <= multiset(ScoreAll(pool))
    && (forall v, k | v in pool && 0 <= k < |entries| && (forall m | 0 <= m < |entries| :: entries[m].volunteer != v) ::
         Round2(CompositeScore(v)) <= entries[k].compositeScore)
  }

  /**
   * `get_leaderboard`: score every volunteer of the period, sort by score,
   * keep 50, number them. The scoring loop serialises every volunteer of
   * the period, so one with a missing date makes the whole route answer 500.
   */
  method GetLeaderboard(vs: seq<Volunteer>, period: string, now: Instant) returns (r: Response<Leaderboard>)
    ensures !r.NotFound?
    ensures r.ServerError? <==> !AllSerialisable(PeriodFilter(vs, period, now))
    ensures r.Ok? ==> r.data.period == period && r.data.generatedAt == now
    ensures r.Ok? ==> r.data.totalVolunteers == |PeriodFilter(vs, period, now)|
    ensures r.Ok? ==> RanksPool(r.data.entries, PeriodFilter(vs, period, now))
  {
    var volunteers := PeriodFilter(vs, period, now);
    var scored := ScoreVolunteers(volunteers);
    if scored.None? {
      return ServerError;
    }
    var board := scored.value;
    var top := TopBy(board, EntryScore, LeaderboardSize);
    var ranked := AssignRanks(top);
    LeaderboardFacts(vs, period, now, board, top, ranked);
    r := Ok(Leaderboard(period, ranked, |volunteers|, now));
  }

  /**
   * The scoring loop: one unranked row per volunteer, in the order given.
   * It stops with nothing at the first volunteer that cannot be serialised.
   */
  method ScoreVolunteers(volunteers: seq<Volunteer>) returns (board: Option<seq<LeaderEntry>>)
    ensures board.None? <==> !AllSerialisable(volunteers)
    ensures board.Some? ==> board.value == ScoreAll(volunteers)
  {
    var rows := [];
    for i := 0 to |volunteers|
      invariant |rows| == i
      invariant forall k | 0 <= k < i :: rows[k] == Scored(volunteers[k]) && Serialisable(volunteers[k])
    {
      if !Serialisable(volunteers[i]) {
        return None;
      }
      rows := rows + [LeaderEntry(volunteers[i], Round2(CompositeScore(volunteers[i])), None)];
    }
    forall v | v in volunteers ensures Serialisable(v) {
      var k :| 0 <= k < |volunteers| && volunteers[k] == v;
    }
    board := Some(rows);
  }

  /** The numbering loop: the row at position k gets rank k + 1. */
  method AssignRanks(rows: seq<LeaderEntry>) returns (ranked: seq<LeaderEntry>)
    ensures |ranked| == |rows|
    ensures forall k | 0 <= k < |rows| :: ranked[k] == rows[k].(rank := Some(k + 1))
  {
    ranked := [];
    for i := 0 to |rows|
      invariant |ranked| == i
      invariant forall k | 0 <= k < i :: ranked[k] == rows[k].(rank := Some(k + 1))
    {
      ranked := ranked + [rows[i].(rank := Some(i + 1))];
    }
  }

  /** The leaderboard's postcondition, from the scored rows, their sorted cut and its numbering. */
  lemma LeaderboardFacts(vs: seq<Volunteer>, period: string, now: Instant,
                         board: seq<LeaderEntry>, top: seq<LeaderEntry>, ranked: seq<LeaderEntry>)
    requires board == ScoreAll(PeriodFilter(vs, period, now))
    requires |top| == if LeaderboardSize <= |board| then LeaderboardSize else |board|
    requires SortedDesc(top, EntryScore)
    requires multiset(top) <= multiset(board)
    requires forall y, i | y in multiset(board) - multiset(top) && 0 <= i < |top| :: EntryScore(y) <= EntryScore(top[i])
    requires |ranked| == |top|
    requires forall k | 0 <= k < |top| :: ranked[k] == top[k].(rank := Some(k + 1))
    ensures RanksPool(ranked, PeriodFilter(vs, period, now))
  {
    var volunteers := PeriodFilter(vs, period, now);
    assert |board| == |volunteers|;
    RankedFromBoard(volunteers, board, top, ranked);
    RankedOrder(top, ranked);
    RankedLeftOut(volunteers, board, top, ranked);
  }

  /** The ranked rows are scored pool volunteers, and clearing their ranks gives back the cut. */
  lemma RankedFromBoard(volunteers: seq<Volunteer>, board: seq<LeaderEntry>, top: seq<LeaderEntry>, ranked: seq<LeaderEntry>)
    requires board == ScoreAll(volunteers)
    requires multiset(top) <= multiset(board)
    requires |ranked| == |top|
    requires forall k | 0 <= k < |top| :: ranked[k] == top[k].(rank := Some(k + 1))
    ensures forall k | 0 <= k < |ranked| ::
      ranked[k].volunteer in volunteers && ranked[k].compositeScore == Round2(CompositeScore(ranked[k].volunteer))
    ensures Unrank(ranked) == top
  {
    forall k | 0 <= k < |ranked| ensures ranked[k].volunteer in volunteers && top[k].rank.None?
      && ranked[k].compositeScore == Round2(CompositeScore(ranked[k].volunteer))
    {
      assert top[k] in multiset(board);
      var j :| 0 <= j < |board| && board[j] == top[k];
    }
    assert Unrank(ranked) == top;
  }

  /** The ranked rows keep the cut's descending order of scores. */
  lemma RankedOrder(top: seq<LeaderEntry>, ranked: seq<LeaderEntry>)
    requires SortedDesc(top, EntryScore)
    requires |ranked| == |top|
    requires forall k | 0 <= k < |top| :: ranked[k] == top[k].(rank := Some(k + 1))
    ensures forall i, j | 0 <= i < j < |ranked| :: ranked[j].compositeScore <= ranked[i].compositeScore
    ensures forall k | 0 <= k < |ranked| :: ranked[k].rank == Some(k + 1)
  {
    forall i, j | 0 <= i < j < |ranked| ensures ranked[j].compositeScore <= ranked[i].compositeScore {
      assert EntryScore(top[j]) <= EntryScore(top[i]);
    }
  }

  /** A pool volunteer left off the board scores no higher than anyone on it. */
  lemma RankedLeftOut(volunteers: seq<Volunteer>, board: seq<LeaderEntry>, top: seq<LeaderEntry>, ranked: seq<LeaderEntry>)
    requires board == ScoreAll(volunteers)
    requires forall y, i | y in multiset(board) - multiset(top) && 0 <= i < |top| :: EntryScore(y) <= EntryScore(top[i])
    requires |ranked| == |top|
    requires forall k | 0 <= k < |top| :: ranked[k] == top[k].(rank := Some(k + 1))
    ensures forall v, k | v in volunteers && 0 <= k < |ranked| && (forall m | 0 <= m < |ranked| :: ranked[m].volunteer != v) ::
      Round2(CompositeScore(v)) <= ranked[k].compositeScore
  {
    forall v, k | v in volunteers && 0 <= k < |ranked| && (forall m | 0 <= m < |ranked| :: ranked[m].volunteer != v)
      ensures Round2(CompositeScore(v)) <= ranked[k].compositeScore
    {
      var j :| 0 <= j < |volunteers| && volunteers[j] == v;
      var e := board[j];
      forall m | 0 <= m < |top| ensures top[m] != e {
        assert ranked[m].volunteer == top[m].volunteer;
      }
      assert e !in multiset(top);
      assert e in multiset(board) - multiset(top);
      assert EntryScore(e) <= EntryScore(top[k]);
    }
  }

  // ---------------------------------------------------------------- top performers

  datatype Section = Section(title: string, description: string, volunteers: seq<Volunteer>)

  /** Status 'active' or 'busy'. */
  predicate Online(v: Volunteer) {
    v.status == "active" || v.status == "busy"
  }

  /**
   * `rows` is an `ORDER BY key DESC LIMIT limit` of `pool`; a negative
   * limit keeps the whole pool.
   */
  predicate IsTop(rows: seq<Volunteer>, pool: seq<Volunteer>, key: Volunteer -> real, limit: int) {
    && |rows| == (if 0 <= limit <= |pool| then limit else |pool|)
    && SortedDesc(rows, key)
    && multiset(rows) <= multiset(pool)
    && forall y, i | y in multiset(pool) - multiset(rows) && 0 <= i < |rows| :: key(y) <= key(rows[i])
  }

  /** The rows of a top list all come from its pool, and a non-negative limit bounds their number. */
  lemma TopRowsFromPool(rows: seq<Volunteer>, pool: seq<Volunteer>, key: Volunteer -> real, limit: int)
    requires IsTop(rows, pool, key, limit)
    ensures 0 <= limit ==> |rows| <= limit
    ensures forall v | v in rows :: v in pool
  {
    forall v | v in rows ensures v in pool {
      assert v in multiset(rows);
    }
  }

  /** Most computation time among online volunteers. */
  function MostConnected(vs: seq<Volunteer>, limit: int): (s: Section)
    ensures IsTop(s.volunteers, Filter(vs, Online), ComputeKey, limit)
    ensures 0 <= limit ==> |s.volunteers| <= limit
    ensures forall v | v in s.volunteers :: v in vs && Online(v)
  {
    var pool := Filter(vs, Online);
    var rows := TopBy(pool, ComputeKey, SqlLimit(limit, |pool|));
    TopRowsFromPool(rows, pool, ComputeKey, limit);
    Section("Plus Connecté", "Temps de calcul total", rows)
  }

  /** Best performance score among online volunteers. */
  function Fastest(vs: seq<Volunteer>, limit: int): (s: Section)
    ensures IsTop(s.volunteers, Filter(vs, Online), ScoreKey, limit)
    ensures 0 <= limit ==> |s.volunteers| <= limit
    ensures forall v | v in s.volunteers :: v in vs && Online(v)
  {
    var pool := Filter(vs, Online);
    var rows := TopBy(pool, ScoreKey, SqlLimit(limit, |pool|));
    TopRowsFromPool(rows, pool, ScoreKey, limit);
    Section("Plus Rapide", "Score de performance", rows)
  }

  /** Most completed tasks among all volunteers, whatever their status. */
  function MostTasks(vs: seq<Volunteer>, limit: int): (s: Section)
    ensures IsTop(s.volunteers, vs, TasksKey, limit)
    ensures 0 <= limit ==> |s.volunteers| <= limit
    ensures forall v | v in s.volunteers :: v in vs
  {
    var rows := TopBy(vs, TasksKey, SqlLimit(limit, |vs|));
    TopRowsFromPool(rows, vs, TasksKey, limit);
    Section("Plus de Tâches", "Nombre de tâches complétées", rows)
  }

  /**
   * The sections `get_top_performers` builds: 'all' asks for the three,
   * 'connected', 'fast' and 'tasks' for one each; any other category gets
   * none.
   */
  function TopSections(vs: seq<Volunteer>, category: string, limit: int): (r: map<string, Section>)
    ensures "most_connected" in r <==> category == "all" || category == "connected"
    ensures "fastest" in r <==> category == "all" || category == "fast"
    ensures "most_tasks" in r <==> category == "all" || category == "tasks"
    ensures r.Keys <= {"most_connected", "fastest", "most_tasks"}
    ensures "most_connected" in r ==> r["most_connected"] == MostConnected(vs, limit)
    ensures "fastest" in r ==> r["fastest"] == Fastest(vs, limit)
    ensures "most_tasks" in r ==> r["most_tasks"] == MostTasks(vs, limit)
  {
    var connected: map<string, Section> :=
      if category == "all" || category == "connected" then map["most_connected" := MostConnected(vs, limit)] else map[];
    var fast: map<string, Section> :=
      if category == "all" || category == "fast" then connected["fastest" := Fastest(vs, limit)] else connected;
    if category == "all" || category == "tasks" then fast["most_tasks" := MostTasks(vs, limit)] else fast
  }

  /** Every volunteer listed in some section can be serialised. */
  predicate SectionsSerialisable(sections: map<string, Section>) {
    forall k | k in sections :: AllSerialisable(sections[k].volunteers)
  }

  /**
   * `get_top_performers`: the sections, or the 500 answer when a listed
   * volunteer cannot be serialised.
   */
  function TopPerformers(vs: seq<Volunteer>, category: string, limit: int): (r: Response<map<string, Section>>)
    ensures !r.NotFound?
    ensures r.ServerError? <==> !SectionsSerialisable(TopSections(vs, category, limit))
    ensures r.ServerError? ==> exists v | v in vs :: !Serialisable(v)
    ensures r.Ok? ==> r.data == TopSections(vs, category, limit)
  {
    var sections := TopSections(vs, category, limit);
    if SectionsSerialisable(sections) then Ok(sections)
    else
      assert exists k | k in sections :: !AllSerialisable(sections[k].volunteers);
      var k :| k in sections && !AllSerialisable(sections[k].volunteers);
      assert k == "most_connected" || k == "fastest" || k == "most_tasks";
      ServerError
  }
}
