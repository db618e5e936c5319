/**
 * get_service_limits: search the service list for the requested id and
 * read that record's quantity bounds, with the defaults the handler uses.
 * The list is an input (what get_services returned).
 */
module Catalogue {
  import opened Wrappers
  import opened JsonValue
  import Text
  import Gateway

  const DefaultMin: int := 1
  const DefaultMax: int := 1000000

  /** The search's answer: bounds, "(None, None)", or an exception that escapes the handler. */
  datatype Limits = Found(min: int, max: int) | NotFound | Crash

  /** What examining one element of the list decides. */
  datatype Probe = Skip | Hit(min: int, max: int) | Fault

  /** `s.get("service") or s.get("id")`. */
  function RecordId(fields: map<string, Json>): Json {
    if Truthy(Get(fields, "service")) then Get(fields, "service") else Get(fields, "id")
  }

  /**
   * One iteration of the loop: a non-object has no .get and raises; an
   * object whose id differs is passed over; a matching one yields
   * int(min, default 1) and int(max, default 1000000), either of which may raise.
   */
  function Examine(record: Json, sid: string): Probe {
    match record
    case JObject(fields) =>
      if !StrEquals(RecordId(fields), sid) then
        Skip
      else
        var mn := ToInt(GetOr(fields, "min", JInt(DefaultMin)));
        var mx := ToInt(GetOr(fields, "max", JInt(DefaultMax)));
        if mn.Some? && mx.Some? then Hit(mn.value, mx.value) else Fault
    case _ => Fault
  }

  /** The first element that is not passed over decides; none at all means no limits. */
  function FirstHit(records: seq<Json>, sid: string): Limits {
    if records == [] then
      NotFound
    else
      match Examine(records[0], sid)
      case Skip => FirstHit(records[1..], sid)
      case Hit(mn, mx) => Found(mn, mx)
      case Fault => Crash
  }

  /**
   * `for s in catalogue`: a list is searched; a dict iterates its keys and a
   * string its characters, which have no .get, so either fails on its first
   * element; null, numbers and booleans are not iterable.
   */
  function Lookup(catalogue: Json, sid: string): Limits {
    match catalogue
    case JArray(items) => FirstHit(items, sid)
    case JObject(fields) => if fields == map[] then NotFound else Crash
    case JStr(s) => if s == "" then NotFound else Crash
    case _ => Crash
  }

  predicate AllSkip(records: seq<Json>, sid: string) {
    forall j :: 0 <= j < |records| ==> Examine(records[j], sid) == Skip
  }

  /** get_service_limits as the loop with an early return that the handler runs. */
  method GetServiceLimits(catalogue: Json, sid: string) returns (r: Limits)
    ensures r == Lookup(catalogue, sid)
    ensures catalogue.JArray? && r.Found? ==>
              exists k :: 0 <= k < |catalogue.items| && Examine(catalogue.items[k], sid) == Hit(r.min, r.max)
                          && AllSkip(catalogue.items[..k], sid)
    ensures catalogue.JArray? ==> (r.NotFound? <==> AllSkip(catalogue.items, sid))
  {
    match catalogue {
      case JArray(items) =>
        var i := 0;
        while i < |items|
          invariant 0 <= i <= |items|
          invariant AllSkip(items[..i], sid)
          invariant FirstHit(items, sid) == FirstHit(items[i..], sid)
        {
          var probe := Examine(items[i], sid);
          if probe.Hit? {
            r := Found(probe.min, probe.max);
            FirstHitIsFirstMatch(items, sid, r.min, r.max);
            return;
          }
          if probe.Fault? {
            r := Crash;
            return;
          }
          assert items[i..][1..] == items[i + 1..];
          assert items[..i + 1] == items[..i] + [items[i]];
          i := i + 1;
        }
        r := NotFound;
        assert items[..i] == items;
        FirstHitNone(items, sid);
      case JObject(fields) =>
        r := if fields == map[] then NotFound else Crash;
      case JStr(s) =>
        r := if s == "" then NotFound else Crash;
      case _ =>
        r := Crash;
    }
  }

  /** The bounds found are those of the first record that matches, every record before it being passed over. */
  lemma FirstHitIsFirstMatch(records: seq<Json>, sid: string, mn: int, mx: int)
    ensures FirstHit(records, sid) == Found(mn, mx) <==>
            exists k :: 0 <= k < |records| && Examine(records[k], sid) == Hit(mn, mx) && AllSkip(records[..k], sid)
  {
    if FirstHit(records, sid) == Found(mn, mx) {
      var k := FirstHitPosition(records, sid);
    }
    if exists k :: 0 <= k < |records| && Examine(records[k], sid) == Hit(mn, mx) && AllSkip(records[..k], sid) {
      var k :| 0 <= k < |records| && Examine(records[k], sid) == Hit(mn, mx) && AllSkip(records[..k], sid);
      FirstMatchFound(records, sid, k);
    }
  }

  /** Where the search stopped: the record whose bounds it returned. */
  lemma {:induction false} FirstHitPosition(records: seq<Json>, sid: string) returns (k: nat)
    requires FirstHit(records, sid).Found?
    ensures k < |records| && AllSkip(records[..k], sid)
    ensures Examine(records[k], sid) == Hit(FirstHit(records, sid).min, FirstHit(records, sid).max)
  {
    if Examine(records[0], sid) == Skip {
      var j := FirstHitPosition(records[1..], sid);
      k := j + 1;
      assert records[..k] == [records[0]] + records[1..][..j];
      assert records[k] == records[1..][j];
    } else {
      k := 0;
    }
  }

  /** A matching record with only passed-over records before it is the one the search returns. */
  lemma {:induction false} FirstMatchFound(records: seq<Json>, sid: string, k: nat)
    requires k < |records| && Examine(records[k], sid).Hit? && AllSkip(records[..k], sid)
    ensures FirstHit(records, sid) == Found(Examine(records[k], sid).min, Examine(records[k], sid).max)
  {
    if k > 0 {
      assert records[..k][0] == records[0];
      assert records[1..][..k - 1] == records[..k][1..];
      assert records[1..][k - 1] == records[k];
      FirstMatchFound(records[1..], sid, k - 1);
    }
  }

  /** No limits are found exactly when every record is passed over. */
  lemma {:induction false} FirstHitNone(records: seq<Json>, sid: string)
    ensures FirstHit(records, sid) == NotFound <==> AllSkip(records, sid)
  {
    if records != [] {
      FirstHitNone(records[1..], sid);
      if AllSkip(records, sid) {
        assert Examine(records[0], sid) == Skip;
        forall j | 0 <= j < |records| - 1 ensures Examine(records[1..][j], sid) == Skip {
          assert records[1..][j] == records[j + 1];
        }
      }
      if FirstHit(records, sid) == NotFound {
        forall j | 0 <= j < |records| ensures Examine(records[j], sid) == Skip {
          if j > 0 { assert records[1..][j - 1] == records[j]; }
        }
      }
    }
  }

  /** A matching record without min or max gets the bounds 1 and 1000000. */
  lemma MissingBoundsDefault(fields: map<string, Json>, sid: string)
    requires StrEquals(RecordId(fields), sid)
    ensures "min" !in fields && "max" !in fields ==> Examine(JObject(fields), sid) == Hit(DefaultMin, DefaultMax)
    ensures "min" !in fields && "max" in fields && fields["max"].JInt? ==>
              Examine(JObject(fields), sid) == Hit(DefaultMin, fields["max"].i)
    ensures "min" in fields && fields["min"].JInt? && "max" !in fields ==>
              Examine(JObject(fields), sid) == Hit(fields["min"].i, DefaultMax)
  {
  }

  /** A matching record whose `min` is a digit string longer than int() accepts makes the search raise. */
  lemma OverlongBoundCrashes(fields: map<string, Json>, sid: string, digits: string)
    requires StrEquals(RecordId(fields), sid)
    requires "min" in fields && fields["min"] == JStr(digits)
    requires Text.IsDigits(digits) && |digits| > Text.MaxStrDigits
    ensures Examine(JObject(fields), sid) == Fault
  {
    Text.TooManyDigitsRejected(digits);
  }

  /**
   * A matching record whose `min` is a string holding U+001C to U+001F
   * makes the search raise: int() does not skip those characters, although
   * str.isspace() counts them as whitespace.
   */
  lemma SeparatorBoundCrashes(fields: map<string, Json>, sid: string, s: string, k: int)
    requires StrEquals(RecordId(fields), sid)
    requires "min" in fields && fields["min"] == JStr(s)
    requires 0 <= k < |s| && Text.IsSeparator(s[k])
    ensures Examine(JObject(fields), sid) == Fault
  {
    assert Text.HasSeparator(s);
  }

  /** The "id" field is compared exactly when "service" is missing or falsy. */
  lemma IdFallback(fields: map<string, Json>)
    ensures !Truthy(Get(fields, "service")) ==> RecordId(fields) == Get(fields, "id")
    ensures Truthy(Get(fields, "service")) ==> RecordId(fields) == fields["service"]
  {
  }

  /** A record carrying neither "service" nor "id" never matches a numeric id: its id prints as "None". */
  lemma NoIdNeverMatches(fields: map<string, Json>, sid: string)
    requires Text.IsDigits(sid)
    requires "service" !in fields && "id" !in fields
    ensures Examine(JObject(fields), sid) == Skip
  {
    assert Text.IsDigit(sid[0]);
  }

  /** An integer service id matches a numeric request id exactly when the request spells it canonically. */
  lemma IntegerIdMatch(fields: map<string, Json>, sid: string, n: int)
    requires Text.IsDigits(sid)
    requires RecordId(fields) == JInt(n)
    ensures Examine(JObject(fields), sid) != Skip <==>
            n >= 0 && Text.IsCanonicalDecimal(sid) && Text.DigitsValue(sid) == n
  {
    StrEqualsInt(n, sid);
  }

  /** A failed fetch, or an empty list, yields no limits, so the range check is skipped. */
  lemma FailedFetchNoLimits(apiKey: string, reply: Gateway.Transport, sid: string)
    requires apiKey == "" || reply.NoResponse?
    ensures Lookup(Gateway.GetServices(apiKey, reply), sid) == NotFound
  {
  }
}
