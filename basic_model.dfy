/**
 * The data model of src/models/basic.model.ts: the uptime split and the
 * snapshot record. The clock and the OS start time are replaced by their
 * readings (whole elapsed seconds and the formatted date and time strings),
 * taking the OS start time to be a date that moment accepts;
 * `utils.pad` is a parameter, since its definition is not part of this model,
 * and a utils provider is taken to have been passed to the constructor.
 * The source computes with floating point; here the same expressions are
 * evaluated on exact reals, which is the arithmetic the code intends.
 */
module BasicModel {
  import opened Wrappers
  import opened Json
  import opened Arith

  /** The three integers `getUptime` computes before padding. */
  datatype Parts = Parts(days: int, hours: int, minutes: int)

  /**
   * `getUptime`'s arithmetic on the elapsed seconds, as written: minutes and
   * hours as exact quotients, then the floors. Nothing is clamped, so a
   * negative elapsed time (clock skew) gives negative days.
   */
  function SplitUptime(diffSeconds: int): (p: Parts)
    ensures p.days * 1440 + p.hours * 60 + p.minutes == diffSeconds / 60
    ensures p.days == diffSeconds / 86400
    ensures p.hours == diffSeconds / 3600 % 24 && 0 <= p.hours < 24
    ensures p.minutes == diffSeconds / 60 % 60 && 0 <= p.minutes < 60
  {
    var calcMinutes := diffSeconds as real / 60.0;
    var calcHours := calcMinutes / 60.0;
    var days := (calcHours / 24.0).Floor;
    var hours := (calcHours - (days * 24) as real).Floor;
    var minutes := (calcMinutes - (days * 60 * 24) as real - (hours * 60) as real).Floor;
    SplitUptimeFacts(diffSeconds, days, hours, minutes);
    Parts(days, hours, minutes)
  }

  /** The integer values of the three floors in `SplitUptime`. */
  lemma SplitUptimeFacts(s: int, days: int, hours: int, minutes: int)
    requires days == (s as real / 60.0 / 60.0 / 24.0).Floor
    requires hours == (s as real / 60.0 / 60.0 - (days * 24) as real).Floor
    requires minutes == (s as real / 60.0 - (days * 60 * 24) as real - (hours * 60) as real).Floor
    ensures days == s / 86400
    ensures hours == s / 3600 - days * 24 == s / 3600 % 24
    ensures minutes == s / 60 - days * 1440 - hours * 60 == s / 60 % 60
  {
    assert s as real / 60.0 / 60.0 / 24.0 == s as real / 86400 as real;
    FloorOfQuotient(s, 86400);
    assert s as real / 60.0 / 60.0 == s as real / 3600 as real;
    FloorOfQuotient(s, 3600);
    FloorShift(s as real / 3600 as real, days * 24);
    FloorOfQuotient(s, 60);
    FloorShift(s as real / 60 as real, days * 60 * 24 + hours * 60);
    assert s as real / 60.0 - (days * 60 * 24) as real - (hours * 60) as real
        == s as real / 60 as real - (days * 60 * 24 + hours * 60) as real;
    DivDiv(s, 3600, 24);
    DivUnique(s / 3600, 24, days, hours);
    DivDiv(s, 60, 60);
    DivUnique(s / 60, 60, s / 3600, minutes + 0) by {
      assert minutes == s / 60 - 60 * (days * 24 + hours);
      assert days * 24 + hours == s / 3600;
      assert 0 <= minutes < 60 by {
        assert s / 60 - 60 * (s / 60 / 60) == s / 60 % 60;
      }
    }
  }

  /** `getUptime`'s result: the three parts, each passed through `pad`. */
  datatype Uptime = Uptime(days: string, hours: string, minutes: string)

  /** `getTime`'s result: two-digit hour and minute and the am/pm marker. */
  datatype TimeOfDay = TimeOfDay(hh: string, mm: string, p: string)

  /** What the clock reads at the moment of a call. */
  datatype ClockReading = ClockReading(
    diffSeconds: int,      // whole seconds between now and the OS start time
    currentDate: string,   // now, as "MMMM DD, YYYY"
    activeDate: string,    // the OS start time, as "MMMM DD, YYYY"
    time: TimeOfDay)       // now, as 12-hour clock fields

  /** The record `gatherData` returns; `location: None` is an undefined property. */
  datatype Snapshot = Snapshot(
    uptime: Uptime,
    currentDate: string,
    activeDate: string,
    time: TimeOfDay,
    location: Option<Value>)

  /** `getUptime`: the padded days, hours and minutes of the elapsed time. */
  function GetUptime(diffSeconds: int, pad: int -> string): (u: Uptime)
    ensures u.days == pad(diffSeconds / 86400)
    ensures u.hours == pad(diffSeconds / 3600 % 24)
    ensures u.minutes == pad(diffSeconds / 60 % 60)
  {
    var p := SplitUptime(diffSeconds);
    Uptime(pad(p.days), pad(p.hours), pad(p.minutes))
  }

  /** The record `gatherData` builds around a given `location`. */
  function Record(clock: ClockReading, pad: int -> string, location: Option<Value>): Snapshot
  {
    Snapshot(GetUptime(clock.diffSeconds, pad), clock.currentDate, clock.activeDate, clock.time, location)
  }

  /**
   * `gatherData(data)` with `data` optional, as its documentation says: the
   * five fields, with `data.location` passed through, and no location when
   * the argument is omitted (`None`). Reading `location` of `null` throws a
   * TypeError, which is `None` here.
   */
  function GatherData(clock: ClockReading, pad: int -> string, data: Option<Value>): (r: Option<Snapshot>)
    ensures r.None? <==> data == Some(Null)
    ensures r.Some? ==> r.value.uptime == GetUptime(clock.diffSeconds, pad)
    ensures r.Some? ==> r.value.currentDate == clock.currentDate && r.value.activeDate == clock.activeDate
    ensures r.Some? ==> r.value.time == clock.time
    ensures r.Some? ==> (r.value.location.Some? <==> data.Some? && Member(data.value, "location").Found?)
    ensures r.Some? && r.value.location.Some? ==> Member(data.value, "location") == Found(r.value.location.value)
  {
    match data
    case None => Some(Record(clock, pad, None))
    case Some(v) =>
      match Member(v, "location")
      case Thrown => None
      case Undefined => Some(Record(clock, pad, None))
      case Found(l) => Some(Record(clock, pad, Some(l)))
  }

  /**
   * `gatherData(data)` as the code is written: `data.location` is read even
   * when the argument is omitted, and reading a property of `undefined`
   * throws. With an argument it is `GatherData`.
   */
  function GatherDataAsWritten(clock: ClockReading, pad: int -> string, data: Option<Value>): (r: Option<Snapshot>)
    ensures r.None? <==> data.None? || data == Some(Null)
    ensures data.Some? ==> r == GatherData(clock, pad, data)
  {
    match data
    case None => None
    case Some(v) =>
      match Member(v, "location")
      case Thrown => None
      case Undefined => Some(Record(clock, pad, None))
      case Found(l) => Some(Record(clock, pad, Some(l)))
  }

  /** The optional argument left out: the code as written throws, the documented behaviour serves the record without a location. */
  lemma OmittedDataThrows(clock: ClockReading, pad: int -> string)
    ensures GatherDataAsWritten(clock, pad, None) == None
    ensures GatherData(clock, pad, None) == Some(Record(clock, pad, None))
  {
  }

  /** The JSON object a snapshot is served as; an undefined location is omitted, as `JSON.stringify` does. */
  function ToJson(s: Snapshot): (v: Value)
    ensures v.Obj?
    ensures Member(v, "uptime") == Found(Obj([("days", Leaf(s.uptime.days)), ("hours", Leaf(s.uptime.hours)),
                                               ("minutes", Leaf(s.uptime.minutes))]))
    ensures Member(v, "location").Found? <==> s.location.Some?
  {
    var uptime := Obj([("days", Leaf(s.uptime.days)), ("hours", Leaf(s.uptime.hours)), ("minutes", Leaf(s.uptime.minutes))]);
    var time := Obj([("hh", Leaf(s.time.hh)), ("mm", Leaf(s.time.mm)), ("p", Leaf(s.time.p))]);
    var fields := [("uptime", uptime), ("currentDate", Leaf(s.currentDate)), ("activeDate", Leaf(s.activeDate)), ("time", time)];
    LookupUnique(fields, 0, "uptime");
    match s.location
    case None =>
      LookupLastWins(fields, "location");
      Obj(fields)
    case Some(l) =>
      var all := fields + [("location", l)];
      LookupUnique(all, 0, "uptime");
      LookupUnique(all, 4, "location");
      Obj(all)
  }

  /** The top-level keys of a JSON object, in order. */
  function Keys(fields: seq<(string, Value)>): (ks: seq<string>)
    ensures |ks| == |fields| && forall i :: 0 <= i < |fields| ==> ks[i] == fields[i].0
  {
    if fields == [] then [] else [fields[0].0] + Keys(fields[1..])
  }

  /** `gatherData` yields exactly the five fields, `location` last (and only when defined). */
  lemma GatheredKeys(clock: ClockReading, pad: int -> string, data: Option<Value>)
    requires data.None? || data.value.Obj?
    ensures GatherData(clock, pad, data).Some?
    ensures var keys := Keys(ToJson(GatherData(clock, pad, data).value).fields);
      keys == ["uptime", "currentDate", "activeDate", "time"]
              + (if data.Some? && Member(data.value, "location").Found? then ["location"] else [])
  {
  }
}
