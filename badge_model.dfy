/**
 * The badge catalogue (`badges`) and the attribution table
 * (`volunteer_badges`) as record values, their column defaults, and their
 * `to_dict` serialisers. An attribution carries the badge it refers to when
 * the joined relationship found one.
 */
module BadgeModel {
  import opened Common

  datatype Badge = Badge(
    id: int,
    badgeId: string,
    name: string,
    description: Option<string>,
    category: Option<string>,
    icon: string,
    level: string,
    criteria: Json,
    active: bool,
    createdAt: Option<Instant>,
    updatedAt: Option<Instant>)

  /** A badge inserted with only its identity given. */
  function NewBadge(id: int, badgeId: string, name: string, now: Instant): (b: Badge)
    ensures b.id == id && b.badgeId == badgeId && b.name == name
    ensures b.description.None? && b.category.None? && b.criteria == JNull
    ensures b.icon == "🏆" && b.level == "bronze" && b.active
    ensures b.createdAt == Some(now) && b.updatedAt == Some(now)
  {
    Badge(id, badgeId, name, None, None, "🏆", "bronze", JNull, true, Some(now), Some(now))
  }

  /** The catalogue keeps badge_id unique. */
  predicate UniqueBadgeIds(bs: seq<Badge>) {
    forall i, j | 0 <= i < j < |bs| :: bs[i].badgeId != bs[j].badgeId
  }

  const BadgeKeys: set<string> := {"id", "badge_id", "name", "description", "category", "icon",
    "level", "criteria", "active", "created_at", "updated_at"}

  /** `Badge.to_dict`: unset description, category and dates become None. */
  function BadgeToDict(b: Badge): map<string, Json> {
    map[
      "id" := JInt(b.id),
      "badge_id" := JStr(b.badgeId),
      "name" := JStr(b.name),
      "description" := OptStr(b.description),
      "category" := OptStr(b.category),
      "icon" := JStr(b.icon),
      "level" := JStr(b.level),
      "criteria" := b.criteria,
      "active" := JBool(b.active),
      "created_at" := OptTime(b.createdAt),
      "updated_at" := OptTime(b.updatedAt)]
  }

  /** Reads a badge dict back; the partner of BadgeToDict. */
  function BadgeOfDict(d: map<string, Json>): Option<Badge> {
    if BadgeKeys <= d.Keys
       && d["id"].JInt? && d["badge_id"].JStr? && d["name"].JStr?
       && StrOf(d["description"]).Some? && StrOf(d["category"]).Some?
       && d["icon"].JStr? && d["level"].JStr? && d["active"].JBool?
       && TimeOf(d["created_at"]).Some? && TimeOf(d["updated_at"]).Some?
    then Some(Badge(d["id"].i, d["badge_id"].s, d["name"].s,
      StrOf(d["description"]).value, StrOf(d["category"]).value,
      d["icon"].s, d["level"].s, d["criteria"], d["active"].b,
      TimeOf(d["created_at"]).value, TimeOf(d["updated_at"]).value))
    else None
  }

  lemma BadgeDictKeys(b: Badge)
    ensures BadgeToDict(b).Keys == BadgeKeys
  {
  }

  lemma BadgeNameLookups(b: Badge)
    ensures BadgeToDict(b)["id"] == JInt(b.id)
    ensures BadgeToDict(b)["badge_id"] == JStr(b.badgeId)
    ensures BadgeToDict(b)["name"] == JStr(b.name)
    ensures BadgeToDict(b)["description"] == OptStr(b.description)
  {
  }

  lemma BadgeLookLookups(b: Badge)
    ensures BadgeToDict(b)["category"] == OptStr(b.category)
    ensures BadgeToDict(b)["icon"] == JStr(b.icon)
    ensures BadgeToDict(b)["level"] == JStr(b.level)
  {
  }

  lemma BadgeStateLookups(b: Badge)
    ensures BadgeToDict(b)["criteria"] == b.criteria
    ensures BadgeToDict(b)["active"] == JBool(b.active)
    ensures BadgeToDict(b)["created_at"] == OptTime(b.createdAt)
    ensures BadgeToDict(b)["updated_at"] == OptTime(b.updatedAt)
  {
  }

  /** Unset description, category and dates, and only those, become None. */
  lemma BadgeDictNulls(b: Badge)
    ensures BadgeToDict(b)["description"] == JNull <==> b.description.None?
    ensures BadgeToDict(b)["category"] == JNull <==> b.category.None?
    ensures BadgeToDict(b)["created_at"] == JNull <==> b.createdAt.None?
    ensures BadgeToDict(b)["updated_at"] == JNull <==> b.updatedAt.None?
  {
    BadgeNameLookups(b);
    BadgeLookLookups(b);
    BadgeStateLookups(b);
  }

  /** Reading the dict back gives the badge. */
  lemma BadgeRoundTrip(b: Badge)
    ensures BadgeOfDict(BadgeToDict(b)) == Some(b)
  {
    BadgeDictKeys(b);
    BadgeNameLookups(b);
    BadgeLookLookups(b);
    BadgeStateLookups(b);
  }

  datatype VolunteerBadge = VolunteerBadge(
    id: int,
    volunteerId: string,
    badgeId: int,
    earnedDate: Instant,
    period: Option<string>,
    periodStart: Option<Instant>,
    periodEnd: Option<Instant>,
    reason: Option<string>,
    metricValue: Option<real>,
    rank: Option<int>,
    notified: bool,
    notificationDate: Option<Instant>,
    revoked: bool,
    revokedDate: Option<Instant>,
    createdAt: Option<Instant>,
    badge: Option<Badge>)

  /**
   * An attribution inserted at `now` with only its volunteer and badge, and
   * perhaps an earned date, given: the earned date defaults to `now`, the
   * creation stamp is `now` whatever earned date was given, not notified,
   * not revoked.
   */
  function NewVolunteerBadge(id: int, volunteerId: string, badge: Badge, earnedDate: Option<Instant>, now: Instant): (a: VolunteerBadge)
    ensures a.id == id && a.volunteerId == volunteerId
    ensures a.badgeId == badge.id && a.badge == Some(badge)
    ensures earnedDate.Some? ==> a.earnedDate == earnedDate.value
    ensures earnedDate.None? ==> a.earnedDate == now
    ensures a.createdAt == Some(now)
    ensures a.period.None? && a.periodStart.None? && a.periodEnd.None?
    ensures a.reason.None? && a.metricValue.None? && a.rank.None?
    ensures !a.notified && a.notificationDate.None? && !a.revoked && a.revokedDate.None?
  {
    var earned := if earnedDate.Some? then earnedDate.value else now;
    VolunteerBadge(id, volunteerId, badge.id, earned, None, None, None, None, None, None,
      false, None, false, None, Some(now), Some(badge))
  }

  /** The fifteen columns of an attribution. */
  const VolunteerBadgeKeys: set<string> := {"id", "volunteer_id", "badge_id", "earned_date",
    "period", "period_start", "period_end", "reason", "metric_value", "rank", "notified",
    "notification_date", "revoked", "revoked_date", "created_at"}

  /** The fifteen columns of `VolunteerBadge.to_dict`, without the nested badge. */
  function VolunteerBadgeColumns(a: VolunteerBadge): (d: map<string, Json>)
  {
    map[
      "id" := JInt(a.id),
      "volunteer_id" := JStr(a.volunteerId),
      "badge_id" := JInt(a.badgeId),
      "earned_date" := JTime(a.earnedDate),
      "period" := OptStr(a.period),
      "period_start" := OptTime(a.periodStart),
      "period_end" := OptTime(a.periodEnd),
      "reason" := OptStr(a.reason),
      "metric_value" := OptReal(a.metricValue),
      "rank" := OptInt(a.rank),
      "notified" := JBool(a.notified),
      "notification_date" := OptTime(a.notificationDate),
      "revoked" := JBool(a.revoked),
      "revoked_date" := OptTime(a.revokedDate),
      "created_at" := OptTime(a.createdAt)]
  }

  lemma ColumnKeys(a: VolunteerBadge)
    ensures VolunteerBadgeColumns(a).Keys == VolunteerBadgeKeys
  {
  }

  /** The columns read back as the attribution they were written from, without its badge. */
  lemma ColumnsRoundTrip(a: VolunteerBadge)
    ensures ColumnsOfDict(VolunteerBadgeColumns(a)) == Some(a.(badge := None))
  {
    IdLookups(a);
    AwardLookups(a);
    PeriodLookups(a);
    RankLookups(a);
    StateLookups(a);
    ColumnKeys(a);
    LookupsRoundTrip(a, VolunteerBadgeColumns(a));
  }

  lemma IdLookups(a: VolunteerBadge)
    ensures VolunteerBadgeColumns(a)["id"] == JInt(a.id)
    ensures VolunteerBadgeColumns(a)["volunteer_id"] == JStr(a.volunteerId)
  {
  }

  lemma AwardLookups(a: VolunteerBadge)
    ensures VolunteerBadgeColumns(a)["badge_id"] == JInt(a.badgeId)
    ensures VolunteerBadgeColumns(a)["earned_date"] == JTime(a.earnedDate)
    ensures VolunteerBadgeColumns(a)["period"] == OptStr(a.period)
  {
  }

  lemma PeriodLookups(a: VolunteerBadge)
    ensures VolunteerBadgeColumns(a)["period_start"] == OptTime(a.periodStart)
    ensures VolunteerBadgeColumns(a)["period_end"] == OptTime(a.periodEnd)
    ensures VolunteerBadgeColumns(a)["reason"] == OptStr(a.reason)
  {
  }

  lemma RankLookups(a: VolunteerBadge)
    ensures VolunteerBadgeColumns(a)["metric_value"] == OptReal(a.metricValue)
    ensures VolunteerBadgeColumns(a)["rank"] == OptInt(a.rank)
    ensures VolunteerBadgeColumns(a)["notified"] == JBool(a.notified)
  {
  }

  lemma StateLookups(a: VolunteerBadge)
    ensures VolunteerBadgeColumns(a)["notification_date"] == OptTime(a.notificationDate)
    ensures VolunteerBadgeColumns(a)["revoked"] == JBool(a.revoked)
    ensures VolunteerBadgeColumns(a)["revoked_date"] == OptTime(a.revokedDate)
    ensures VolunteerBadgeColumns(a)["created_at"] == OptTime(a.createdAt)
  {
  }

  lemma LookupsRoundTrip(a: VolunteerBadge, d: map<string, Json>)
    requires VolunteerBadgeKeys <= d.Keys
    requires d["id"] == JInt(a.id) && d["volunteer_id"] == JStr(a.volunteerId)
    requires d["badge_id"] == JInt(a.badgeId) && d["earned_date"] == JTime(a.earnedDate)
    requires d["period"] == OptStr(a.period) && d["period_start"] == OptTime(a.periodStart)
    requires d["period_end"] == OptTime(a.periodEnd) && d["reason"] == OptStr(a.reason)
    requires d["metric_value"] == OptReal(a.metricValue) && d["rank"] == OptInt(a.rank)
    requires d["notified"] == JBool(a.notified) && d["notification_date"] == OptTime(a.notificationDate)
    requires d["revoked"] == JBool(a.revoked) && d["revoked_date"] == OptTime(a.revokedDate)
    requires d["created_at"] == OptTime(a.createdAt)
    ensures ColumnsOfDict(d) == Some(a.(badge := None))
  {
  }

  /** Reads the fifteen columns back, leaving the badge unset. */
  function ColumnsOfDict(d: map<string, Json>): (r: Option<VolunteerBadge>)
    ensures r.Some? ==> r.value.badge.None?
  {
    if VolunteerBadgeKeys <= d.Keys
       && d["id"].JInt? && d["volunteer_id"].JStr? && d["badge_id"].JInt? && d["earned_date"].JTime?
       && StrOf(d["period"]).Some? && TimeOf(d["period_start"]).Some? && TimeOf(d["period_end"]).Some?
       && StrOf(d["reason"]).Some? && RealOf(d["metric_value"]).Some? && IntOf(d["rank"]).Some?
       && d["notified"].JBool? && TimeOf(d["notification_date"]).Some?
       && d["revoked"].JBool? && TimeOf(d["revoked_date"]).Some? && TimeOf(d["created_at"]).Some?
    then
      Some(VolunteerBadge(d["id"].i, d["volunteer_id"].s, d["badge_id"].i, d["earned_date"].t,
        StrOf(d["period"]).value, TimeOf(d["period_start"]).value, TimeOf(d["period_end"]).value,
        StrOf(d["reason"]).value, RealOf(d["metric_value"]).value, IntOf(d["rank"]).value,
        d["notified"].b, TimeOf(d["notification_date"]).value,
        d["revoked"].b, TimeOf(d["revoked_date"]).value, TimeOf(d["created_at"]).value, None))
    else None
  }

  /** Adding a key that is not a column does not change what the columns read back as. */
  lemma ColumnsIgnoreBadgeKey(d: map<string, Json>, j: Json)
    ensures ColumnsOfDict(d["badge" := j]) == ColumnsOfDict(d)
  {
    var e := d["badge" := j];
    assert forall k | k in VolunteerBadgeKeys :: (k in e <==> k in d) && (k in d ==> e[k] == d[k]);
  }

  lemma BadgeIsNotAColumn()
    ensures "badge" !in VolunteerBadgeKeys
  {
  }

  /**
   * `VolunteerBadge.to_dict(include_badge)`: the fifteen columns, plus the
   * nested badge dict exactly when it is asked for and the badge is there.
   */
  function VolunteerBadgeToDict(a: VolunteerBadge, includeBadge: bool): (d: map<string, Json>)
    ensures "badge" in d <==> includeBadge && a.badge.Some?
    ensures "badge" in d ==> d["badge"] == JObj(BadgeToDict(a.badge.value))
  {
    var result := VolunteerBadgeColumns(a);
    ColumnKeys(a);
    BadgeIsNotAColumn();
    if includeBadge && a.badge.Some? then result["badge" := JObj(BadgeToDict(a.badge.value))]
    else result
  }

  /** The fifteen columns, and the badge key exactly when the badge is nested. */
  lemma VolunteerBadgeDictKeys(a: VolunteerBadge, includeBadge: bool)
    ensures VolunteerBadgeToDict(a, includeBadge).Keys
      == VolunteerBadgeKeys + (if includeBadge && a.badge.Some? then {"badge"} else {})
  {
    ColumnKeys(a);
  }

  /** An attribution dict reads back as the attribution, with its badge when it was included. */
  lemma VolunteerBadgeRoundTrip(a: VolunteerBadge, includeBadge: bool)
    ensures VolunteerBadgeOfDict(VolunteerBadgeToDict(a, includeBadge)) == Some(if includeBadge then a else a.(badge := None))
  {
    var result := VolunteerBadgeColumns(a);
    var d := VolunteerBadgeToDict(a, includeBadge);
    ColumnsRoundTrip(a);
    ColumnKeys(a);
    BadgeIsNotAColumn();
    if includeBadge && a.badge.Some? {
      ColumnsIgnoreBadgeKey(result, JObj(BadgeToDict(a.badge.value)));
      BadgeRoundTrip(a.badge.value);
    }
  }

  /** Reads an attribution dict back, with its badge when one is nested; the partner of VolunteerBadgeToDict. */
  function VolunteerBadgeOfDict(d: map<string, Json>): Option<VolunteerBadge> {
    match ColumnsOfDict(d)
    case None => None
    case Some(a) =>
      var badge := if "badge" in d && d["badge"].JObj? then BadgeOfDict(d["badge"].fields) else None;
      Some(a.(badge := badge))
  }
}
