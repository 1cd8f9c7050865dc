/**
 * Shared vocabulary of the dashboard model: optional values, the
 * success/failure response envelope, instants, Python's round(x, 2) and the
 * JSON values that the record serialisers produce.
 */
module Common {

  /** A nullable column or an absent request argument. */
  datatype Option<+T> = None | Some(value: T) {
    function GetOr(default: T): T {
      match this
      case Some(v) => v
      case None => default
    }
  }

  /**
   * The response envelope of a route: `success: true` with its data,
   * `success: false` with the message that the route answers with 404, or
   * the catch-all 500 answer, whose text (the exception's) is not kept.
   */
  datatype Response<+T> = Ok(data: T) | NotFound(message: string) | ServerError

  /** An instant, in whole seconds since the epoch (UTC). */
  type Instant = int

  const SecondsPerHour: int := 3600
  const SecondsPerDay: int := 86400

  /** `now - timedelta(days=d)`. */
  function DaysBefore(now: Instant, d: int): Instant {
    now - d * SecondsPerDay
  }

  /** `now - timedelta(hours=h)`. */
  function HoursBefore(now: Instant, h: int): Instant {
    now - h * SecondsPerHour
  }

  /**
   * `(now - t).days`: Python's timedelta keeps whole days rounded toward
   * minus infinity, which is what Dafny's division does for a positive divisor.
   */
  function WholeDays(now: Instant, t: Instant): (d: int)
    ensures d * SecondsPerDay <= now - t < (d + 1) * SecondsPerDay
  {
    (now - t) / SecondsPerDay
  }

  /** Python truthiness of an optional string argument: present and not empty. */
  predicate Truthy(s: Option<string>) {
    s.Some? && s.value != ""
  }

  /** `s.lower()` on ASCII letters; other characters are kept. */
  function AsciiLower(s: string): (r: string)
    ensures |r| == |s|
    ensures forall i | 0 <= i < |s| :: r[i] == (if 'A' <= s[i] <= 'Z' then (s[i] as int + 32) as char else s[i])
  {
    if s == [] then []
    else [if 'A' <= s[0] <= 'Z' then (s[0] as int + 32) as char else s[0]] + AsciiLower(s[1..])
  }

  /**
   * `round(x, 2)`, taken as rounding half up to two decimals in exact
   * arithmetic.
   */
  function Round2(x: real): (r: real)
    ensures x - 1.0 / 200.0 < r <= x + 1.0 / 200.0
  {
    ((x * 100.0 + 0.5).Floor as real) / 100.0
  }

  lemma Round2Monotone(x: real, y: real)
    requires x <= y
    ensures Round2(x) <= Round2(y)
  {
    assert (x * 100.0 + 0.5).Floor <= (y * 100.0 + 0.5).Floor;
  }

  lemma Round2OfCents(n: int)
    ensures Round2(n as real) == n as real
  {
    assert (n as real * 100.0 + 0.5).Floor == n * 100;
  }

  /**
   * A JSON value as the serialisers build it. `JTime(t)` stands for the
   * ISO-8601 string that `isoformat()` prints for the instant `t`.
   */
  datatype Json =
    | JNull
    | JBool(b: bool)
    | JInt(i: int)
    | JReal(r: real)
    | JStr(s: string)
    | JTime(t: Instant)
    | JObj(fields: map<string, Json>)

  /** `x.isoformat() if x else None`. */
  function OptTime(t: Option<Instant>): (j: Json)
    ensures j == JNull <==> t.None?
    ensures t.Some? ==> j == JTime(t.value)
    ensures TimeOf(j) == Some(t)
  {
    match t
    case None => JNull
    case Some(x) => JTime(x)
  }

  /** Reads back what OptTime wrote. */
  function TimeOf(j: Json): Option<Option<Instant>> {
    match j
    case JNull => Some(None)
    case JTime(t) => Some(Some(t))
    case _ => None
  }

  /** A nullable text column as JSON. */
  function OptStr(s: Option<string>): (j: Json)
    ensures j == JNull <==> s.None?
    ensures StrOf(j) == Some(s)
  {
    match s
    case None => JNull
    case Some(x) => JStr(x)
  }

  function StrOf(j: Json): Option<Option<string>> {
    match j
    case JNull => Some(None)
    case JStr(s) => Some(Some(s))
    case _ => None
  }

  /** A nullable integer column as JSON. */
  function OptInt(n: Option<int>): (j: Json)
    ensures j == JNull <==> n.None?
    ensures IntOf(j) == Some(n)
  {
    match n
    case None => JNull
    case Some(x) => JInt(x)
  }

  function IntOf(j: Json): Option<Option<int>> {
    match j
    case JNull => Some(None)
    case JInt(i) => Some(Some(i))
    case _ => None
  }

  /** A nullable float column as JSON. */
  function OptReal(x: Option<real>): (j: Json)
    ensures j == JNull <==> x.None?
    ensures RealOf(j) == Some(x)
  {
    match x
    case None => JNull
    case Some(v) => JReal(v)
  }

  function RealOf(j: Json): Option<Option<real>> {
    match j
    case JNull => Some(None)
    case JReal(r) => Some(Some(r))
    case _ => None
  }
}
