/**
 * The attribution side of the badge routes: the filtered, paginated listing
 * of awarded badges, one volunteer's awarded badges with their statistics,
 * the details of one attribution and the recently awarded badges. The
 * `volunteer_badges` table is a sequence of rows and `now` is a parameter.
 */
module AttributionRoutes {
  import opened Common
  import opened Query
  import opened Tally
  import opened MetricsModel
  import opened BadgeModel

  /** Sort key of `ORDER BY earned_date DESC`. */
  function EarnedKey(a: VolunteerBadge): real { a.earnedDate as real }

  /** `s` holds the rows of `pool`, each as often, newest first. */
  predicate NewestFirstArrangement(s: seq<VolunteerBadge>, pool: seq<VolunteerBadge>) {
    SortedDesc(s, EarnedKey) && multiset(s) == multiset(pool)
  }

  // ---------------------------------------------------------------- listing

  /**
   * The filters of the listing. An argument takes part only when it is
   * given and not empty; `badgeId` is the integer the `badge_id` argument
   * parses to when it is given.
   */
  predicate Listed(a: VolunteerBadge, period: Option<string>, volunteerId: Option<string>, badgeId: Option<int>) {
    && !a.revoked
    && (Truthy(period) ==> a.period == period)
    && (Truthy(volunteerId) ==> a.volunteerId == volunteerId.value)
    && (badgeId.Some? ==> a.badgeId == badgeId.value)
  }

  function ListedBy(period: Option<string>, volunteerId: Option<string>, badgeId: Option<int>): VolunteerBadge -> bool {
    a => Listed(a, period, volunteerId, badgeId)
  }

  datatype AttributedPage = AttributedPage(badges: seq<VolunteerBadge>, total: int, limit: nat, offset: nat, hasMore: bool)

  /**
   * `get_all_attributed_badges`: the non-revoked rows that pass the
   * filters, newest first, `limit` of them from position `offset`, with
   * the number of matching rows and whether more follow the page.
   */
  function ListAttributed(rows: seq<VolunteerBadge>, period: Option<string>, volunteerId: Option<string>,
                          badgeId: Option<int>, limit: nat, offset: nat): (r: AttributedPage)
    ensures r.total == |Filter(rows, ListedBy(period, volunteerId, badgeId))|
    ensures r.limit == limit && r.offset == offset
    ensures r.hasMore <==> offset + limit < r.total
    ensures |r.badges| == if offset >= r.total then 0 else if offset + limit <= r.total then limit else r.total - offset
    ensures forall a | a in r.badges :: a in rows && Listed(a, period, volunteerId, badgeId)
    ensures exists s | NewestFirstArrangement(s, Filter(rows, ListedBy(period, volunteerId, badgeId))) ::
      (offset <= |s| ==> r.badges == s[offset..][..|r.badges|])
  {
    var matching := Filter(rows, ListedBy(period, volunteerId, badgeId));
    var sorted := SortDesc(matching, EarnedKey);
    var page := Page(sorted, limit, offset);
    PageRowsFromPool(sorted, matching, limit, offset);
    assert NewestFirstArrangement(sorted, matching);
    AttributedPage(page, |matching|, limit, offset, offset + limit < |matching|)
  }

  lemma PageRowsFromPool(sorted: seq<VolunteerBadge>, pool: seq<VolunteerBadge>, limit: nat, offset: nat)
    requires multiset(sorted) == multiset(pool)
    ensures forall a | a in Page(sorted, limit, offset) :: a in pool
  {
    forall a | a in Page(sorted, limit, offset) ensures a in pool {
      assert a in sorted[offset..];
      assert a in multiset(sorted);
    }
  }

  /** Pages of `limit` rows at offsets 0, limit, 2·limit, ... report more rows exactly until one reaches the end. */
  lemma HasMoreIffRowsBeyond(rows: seq<VolunteerBadge>, period: Option<string>, volunteerId: Option<string>,
                             badgeId: Option<int>, limit: nat, offset: nat)
    requires limit > 0
    ensures var r := ListAttributed(rows, period, volunteerId, badgeId, limit, offset);
      r.hasMore <==> |ListAttributed(rows, period, volunteerId, badgeId, limit, offset + limit).badges| > 0
  {
  }

  // ---------------------------------------------------------------- one volunteer's attributions

  /** `period or 'all-time'`. */
  function PeriodKey(a: VolunteerBadge): (k: string)
    ensures Truthy(a.period) ==> k == a.period.value
    ensures !Truthy(a.period) ==> k == "all-time"
  {
    if a.period.Some? && a.period.value != "" then a.period.value else "all-time"
  }

  /** `badge.category or 'other'`; only rows with a badge are counted under it. */
  function CategoryKey(a: VolunteerBadge): (k: string)
    ensures a.badge.Some? && Truthy(a.badge.value.category) ==> k == a.badge.value.category.value
    ensures a.badge.Some? && !Truthy(a.badge.value.category) ==> k == "other"
  {
    if a.badge.Some? && a.badge.value.category.Some? && a.badge.value.category.value != "" then
      a.badge.value.category.value
    else "other"
  }

  predicate Active(a: VolunteerBadge) { !a.revoked }
  predicate Revoked(a: VolunteerBadge) { a.revoked }
  predicate ActiveWithBadge(a: VolunteerBadge) { !a.revoked && a.badge.Some? }

  datatype Statistics = Statistics(
    totalBadges: int,
    activeBadges: int,
    revokedBadges: int,
    byPeriod: map<string, int>,
    byCategory: map<string, int>)

  datatype VolunteerAttributions = VolunteerAttributions(volunteer: Volunteer, badges: seq<VolunteerBadge>, statistics: Statistics)

  /** `s` spells "true" in any mix of capital and small letters. */
  predicate SpellsTrue(s: string) {
    && |s| == 4
    && (s[0] == 't' || s[0] == 'T') && (s[1] == 'r' || s[1] == 'R')
    && (s[2] == 'u' || s[2] == 'U') && (s[3] == 'e' || s[3] == 'E')
  }

  /**
   * `include_revoked` is on exactly when the argument, lower-cased, reads
   * "true"; it defaults to "false".
   */
  function IncludeRevoked(arg: Option<string>): (b: bool)
    ensures b <==> arg.Some? && SpellsTrue(arg.value)
  {
    var s := arg.GetOr("false");
    LowerReadsTrue(s);
    AsciiLower(s) == "true"
  }

  /** A string lower-cases to "true" exactly when it spells "true" in some case. */
  lemma LowerReadsTrue(s: string)
    ensures AsciiLower(s) == "true" <==> SpellsTrue(s)
  {
    if |s| == 4 {
      var r := AsciiLower(s);
      assert r == "true" <==> r[0] == 't' && r[1] == 'r' && r[2] == 'u' && r[3] == 'e';
      LowerChar(s[0], 't', 'T');
      LowerChar(s[1], 'r', 'R');
      LowerChar(s[2], 'u', 'U');
      LowerChar(s[3], 'e', 'E');
    }
  }

  /** A character lower-cases to the small letter l exactly when it is l or its capital u. */
  lemma LowerChar(c: char, l: char, u: char)
    requires 'a' <= l <= 'z' && u as int + 32 == l as int
    ensures (if 'A' <= c <= 'Z' then (c as int + 32) as char else c) == l <==> c == l || c == u
  {
  }

  /** The rows the per-volunteer query keeps. */
  predicate Selected(a: VolunteerBadge, volunteerId: string, includeRevoked: bool) {
    a.volunteerId == volunteerId && (includeRevoked || !a.revoked)
  }

  function SelectedBy(volunteerId: string, includeRevoked: bool): VolunteerBadge -> bool {
    a => Selected(a, volunteerId, includeRevoked)
  }

  /**
   * `get_volunteer_attributed_badges`: the volunteer's rows, newest first
   * and without the revoked ones unless asked for, with their statistics;
   * the 500 answer when the volunteer cannot be serialised.
   */
  method GetVolunteerAttributedBadges(vs: seq<Volunteer>, rows: seq<VolunteerBadge>, volunteerId: string,
                                      includeRevokedArg: Option<string>)
    returns (r: Response<VolunteerAttributions>)
    ensures r.NotFound? <==> forall v | v in vs :: v.volunteerId != volunteerId
    ensures r.NotFound? ==> r.message == "Volontaire non trouvé"
    ensures r.ServerError? ==> exists v | v in vs :: v.volunteerId == volunteerId && !Serialisable(v)
    ensures (forall v | v in vs && v.volunteerId == volunteerId :: Serialisable(v)) ==> !r.ServerError?
    ensures r.Ok? ==> r.data.volunteer in vs && r.data.volunteer.volunteerId == volunteerId
    ensures r.Ok? ==> Serialisable(r.data.volunteer)
    ensures r.Ok? ==> NewestFirstArrangement(r.data.badges,
      Filter(rows, SelectedBy(volunteerId, IncludeRevoked(includeRevokedArg))))
    ensures r.Ok? ==> r.data.statistics.totalBadges == |r.data.badges|
    ensures r.Ok? ==> r.data.statistics.activeBadges == Count(r.data.badges, Active)
    ensures r.Ok? ==> r.data.statistics.revokedBadges == Count(r.data.badges, Revoked)
    ensures r.Ok? ==> r.data.statistics.byPeriod == TallyOf(r.data.badges, Active, PeriodKey)
    ensures r.Ok? ==> r.data.statistics.byCategory == TallyOf(r.data.badges, ActiveWithBadge, CategoryKey)
  {
    var found := FindVolunteer(vs, volunteerId);
    if found.None? {
      return NotFound("Volontaire non trouvé");
    }
    var includeRevoked := IncludeRevoked(includeRevokedArg);
    var attributed := SortDesc(Filter(rows, SelectedBy(volunteerId, includeRevoked)), EarnedKey);
    var byPeriod: map<string, int> := map[];
    var byCategory: map<string, int> := map[];
    for i := 0 to |attributed|
      invariant byPeriod == TallyOf(attributed[..i], Active, PeriodKey)
      invariant byCategory == TallyOf(attributed[..i], ActiveWithBadge, CategoryKey)
    {
      TallyStep(attributed, i, Active, PeriodKey);
      TallyStep(attributed, i, ActiveWithBadge, CategoryKey);
      var a := attributed[i];
      if !a.revoked {
        byPeriod := Bump(byPeriod, PeriodKey(a));
        if a.badge.Some? {
          byCategory := Bump(byCategory, CategoryKey(a));
        }
      }
    }
    assert attributed[..|attributed|] == attributed;
    var stats := Statistics(|attributed|, Count(attributed, Active), Count(attributed, Revoked), byPeriod, byCategory);
    if !Serialisable(found.value) {
      return ServerError;
    }
    r := Ok(VolunteerAttributions(found.value, attributed, stats));
  }

  /** Every row is active or revoked, and the per-period counts add up to the active ones. */
  lemma StatisticsAddUp(badges: seq<VolunteerBadge>)
    ensures Count(badges, Active) + Count(badges, Revoked) == |badges|
    ensures SumValues(TallyOf(badges, Active, PeriodKey)) == Count(badges, Active)
    ensures SumValues(TallyOf(badges, ActiveWithBadge, CategoryKey)) == Count(badges, ActiveWithBadge)
  {
    CountSplit(badges, Active, Revoked);
    TallySum(badges, Active, PeriodKey);
    TallySum(badges, ActiveWithBadge, CategoryKey);
  }

  /** A period key is counted exactly as often as active rows carry it; a row without a period counts as all-time. */
  lemma ByPeriodCounts(badges: seq<VolunteerBadge>, k: string)
    ensures k in TallyOf(badges, Active, PeriodKey) <==> Count(badges, CountedAs(Active, PeriodKey, k)) > 0
    ensures k in TallyOf(badges, Active, PeriodKey) ==>
      TallyOf(badges, Active, PeriodKey)[k] == Count(badges, CountedAs(Active, PeriodKey, k))
  {
    TallyCounts(badges, Active, PeriodKey, k);
  }

  /** Without include_revoked, no revoked row is listed. */
  lemma RevokedOnlyWhenIncluded(rows: seq<VolunteerBadge>, volunteerId: string, arg: Option<string>, badges: seq<VolunteerBadge>)
    requires !IncludeRevoked(arg)
    requires NewestFirstArrangement(badges, Filter(rows, SelectedBy(volunteerId, IncludeRevoked(arg))))
    ensures Count(badges, Revoked) == 0
  {
    forall a | a in badges ensures !a.revoked {
      assert a in multiset(badges);
    }
    NoneCounted(badges, Revoked);
  }

  lemma {:induction false} NoneCounted<T(!new)>(s: seq<T>, p: T -> bool)
    requires forall x | x in s :: !p(x)
    ensures Count(s, p) == 0
  {
    if s != [] {
      assert s[0] in s;
      NoneCounted(s[1..], p);
    }
  }

  // ---------------------------------------------------------------- one attribution

  /** `VolunteerBadge.query.get(id)`: the row with that primary key. */
  function FindAttribution(rows: seq<VolunteerBadge>, id: int): (r: Option<VolunteerBadge>)
    ensures r.None? <==> forall a | a in rows :: a.id != id
    ensures r.Some? ==> r.value in rows && r.value.id == id
  {
    if rows == [] then None
    else if rows[0].id == id then Some(rows[0])
    else FindAttribution(rows[1..], id)
  }

  /**
   * `get_attributed_badge_details`: the attribution's dict with its badge,
   * plus the volunteer's dict when a volunteer carries that id. Every
   * failure of this route answers 404, including a volunteer whose dates
   * cannot be serialised.
   */
  function AttributionDetails(rows: seq<VolunteerBadge>, vs: seq<Volunteer>, id: int): (r: Response<map<string, Json>>)
    ensures r.NotFound? <==> (FindAttribution(rows, id).None?
      || (FindVolunteer(vs, FindAttribution(rows, id).value.volunteerId).Some?
          && !Serialisable(FindVolunteer(vs, FindAttribution(rows, id).value.volunteerId).value)))
    ensures r.Ok? ==> VolunteerBadgeOfDict(r.data) == FindAttribution(rows, id)
    ensures r.Ok? ==> ("volunteer" in r.data <==> FindVolunteer(vs, FindAttribution(rows, id).value.volunteerId).Some?)
    ensures r.Ok? && "volunteer" in r.data ==>
      r.data["volunteer"] == JObj(VolunteerToDict(FindVolunteer(vs, FindAttribution(rows, id).value.volunteerId).value))
  {
    match FindAttribution(rows, id)
    case None => NotFound("attribution not found")
    case Some(a) =>
      var result := VolunteerBadgeToDict(a, true);
      VolunteerBadgeRoundTrip(a, true);
      VolunteerIsNotAKey();
      match FindVolunteer(vs, a.volunteerId)
      case None => Ok(result)
      case Some(v) =>
        if !Serialisable(v) then NotFound("volunteer dates missing")
        else
          VolunteerIsNotAColumn(result, JObj(VolunteerToDict(v)));
          Ok(result["volunteer" := JObj(VolunteerToDict(v))])
  }

  lemma VolunteerIsNotAKey()
    ensures "volunteer" !in VolunteerBadgeKeys + {"badge"}
  {
  }

  /** Adding the volunteer's dict does not change how the attribution reads back. */
  lemma VolunteerIsNotAColumn(d: map<string, Json>, j: Json)
    requires "volunteer" !in d
    ensures VolunteerBadgeOfDict(d["volunteer" := j]) == VolunteerBadgeOfDict(d)
  {
    var e := d["volunteer" := j];
    assert "volunteer" !in VolunteerBadgeKeys;
    assert forall k | k in VolunteerBadgeKeys :: (k in e <==> k in d) && (k in d ==> e[k] == d[k]);
    assert ("badge" in e <==> "badge" in d) && ("badge" in d ==> e["badge"] == d["badge"]);
  }

  // ---------------------------------------------------------------- recent attributions

  /** Earned within the last `hours` hours and not revoked. */
  predicate Recent(a: VolunteerBadge, now: Instant, hours: int) {
    a.earnedDate >= HoursBefore(now, hours) && !a.revoked
  }

  function RecentBy(now: Instant, hours: int): VolunteerBadge -> bool {
    a => Recent(a, now, hours)
  }

  datatype RecentAttributions = RecentAttributions(badges: seq<VolunteerBadge>, hours: int, count: int)

  /**
   * `get_recent_attributed_badges`: the newest `limit` non-revoked rows
   * earned in the last `hours` hours; `period` reads `last_<hours>_hours`.
   */
  function RecentAttributed(rows: seq<VolunteerBadge>, now: Instant, hours: int, limit: nat): (r: RecentAttributions)
    ensures r.hours == hours && r.count == |r.badges|
    ensures |r.badges| == if limit <= |Filter(rows, RecentBy(now, hours))| then limit
      else |Filter(rows, RecentBy(now, hours))|
    ensures forall a | a in r.badges :: a in rows && Recent(a, now, hours)
    ensures multiset(r.badges) <= multiset(rows)
    ensures SortedDesc(r.badges, EarnedKey)
    ensures forall a, i | a in rows && Recent(a, now, hours) && a !in r.badges && 0 <= i < |r.badges| ::
      a.earnedDate <= r.badges[i].earnedDate
  {
    var pool := Filter(rows, RecentBy(now, hours));
    var top := TopBy(pool, EarnedKey, limit);
    RecentTop(rows, now, hours, pool, top);
    RecentAttributions(top, hours, |top|)
  }

  lemma RecentTop(rows: seq<VolunteerBadge>, now: Instant, hours: int, pool: seq<VolunteerBadge>, top: seq<VolunteerBadge>)
    requires pool == Filter(rows, RecentBy(now, hours))
    requires multiset(top) <= multiset(pool)
    requires forall y, i | y in multiset(pool) - multiset(top) && 0 <= i < |top| :: EarnedKey(y) <= EarnedKey(top[i])
    ensures forall a | a in top :: a in rows && Recent(a, now, hours)
    ensures forall a, i | a in rows && Recent(a, now, hours) && a !in top && 0 <= i < |top| ::
      a.earnedDate <= top[i].earnedDate
  {
    RecentPool(rows, now, hours, pool);
    DrawnFrom(top, pool);
    LeftOutNotNewer(pool, top);
  }

  lemma RecentPool(rows: seq<VolunteerBadge>, now: Instant, hours: int, pool: seq<VolunteerBadge>)
    requires pool == Filter(rows, RecentBy(now, hours))
    ensures forall a :: a in pool <==> a in rows && Recent(a, now, hours)
  {
    forall a ensures a in pool <==> a in rows && Recent(a, now, hours) {
      assert RecentBy(now, hours)(a) == Recent(a, now, hours);
    }
  }

  lemma LeftOutNotNewer(pool: seq<VolunteerBadge>, top: seq<VolunteerBadge>)
    requires forall y, i | y in multiset(pool) - multiset(top) && 0 <= i < |top| :: EarnedKey(y) <= EarnedKey(top[i])
    ensures forall a, i | a in pool && a !in top && 0 <= i < |top| :: a.earnedDate <= top[i].earnedDate
  {
    LeftOutRanksLower(top, pool, EarnedKey);
  }
}
