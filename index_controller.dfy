/**
 * The controller of the index route (app/controllers/index.js): on the index
 * layout it asks the API helper for route "basic" with auto-refresh and for
 * route "advanced" once; the first callback writes the page title from the
 * uptime fields, the second registers the copy action. The layout test is an
 * input; the callbacks' effects are returned as values.
 */
module IndexController {
  import opened Wrappers
  import opened Json
  import opened BasicModel
  import opened Api

  /** The names under which the two callbacks are passed to `get`. */
  const TitleCallback := "title"
  const CopyCallback := "copy"

  const BasicOptions := Options(Some("basic"), true, Some(TitleCallback))
  const AdvancedOptions := Options(Some("advanced"), false, Some(CopyCallback))

  /**
   * The title the basic callback writes, or `None` when reading
   * `data.uptime.days` throws (no `uptime` object in the response).
   */
  function Title(data: Value): (r: Option<string>)
    ensures r.None? <==> data.Null? || Member(data, "uptime").Undefined? || Member(data, "uptime") == Found(Null)
  {
    var uptime := Member(data, "uptime");
    var d := MemberOf(uptime, "days");
    var h := MemberOf(uptime, "hours");
    var m := MemberOf(uptime, "minutes");
    if d.Thrown? then None
    else
      var days := Render(d) + " days";
      var hours := Render(h) + " hours";
      var minutes := Render(m) + " minutes";
      Some("uptimey - " + days + " " + hours + " " + minutes)
  }

  /**
   * Whatever object `data.uptime` is, the title shows what each of its three
   * fields renders as: its text, "undefined" when missing, "null", or
   * "[object Object]".
   */
  lemma TitleOfUptime(data: Value, fields: seq<(string, Value)>)
    requires Member(data, "uptime") == Found(Obj(fields))
    ensures Title(data) == Some("uptimey - " + Render(Member(Obj(fields), "days")) + " days "
                                + Render(Member(Obj(fields), "hours")) + " hours "
                                + Render(Member(Obj(fields), "minutes")) + " minutes")
  {
    var d, h, m := Render(Member(Obj(fields), "days")), Render(Member(Obj(fields), "hours")),
                   Render(Member(Obj(fields), "minutes"));
    assert "uptimey - " + (d + " days") + " " + (h + " hours") + " " + (m + " minutes")
        == "uptimey - " + d + " days " + h + " hours " + m + " minutes";
  }

  /** With the three uptime fields present as text, the title reads "uptimey - D days H hours M minutes". */
  lemma TitleOfFields(data: Value, d: string, h: string, m: string)
    requires Member(data, "uptime") == Found(Obj([("days", Leaf(d)), ("hours", Leaf(h)), ("minutes", Leaf(m))]))
    ensures Title(data) == Some("uptimey - " + d + " days " + h + " hours " + m + " minutes")
  {
    var fields := [("days", Leaf(d)), ("hours", Leaf(h)), ("minutes", Leaf(m))];
    LookupUnique(fields, 0, "days");
    LookupUnique(fields, 1, "hours");
    LookupUnique(fields, 2, "minutes");
    TitleOfUptime(data, fields);
  }

  /** What a callback does with the response it is given. */
  datatype Reaction = SetTitle(title: string) | Register(ev: string, selector: string) | Threw | NoReaction

  function React(callback: string, data: Value): (r: Reaction)
    ensures r.Register? <==> callback == CopyCallback
    ensures r.Register? ==> r == Register("copy", ".list-value")
  {
    if callback == TitleCallback then
      match Title(data)
      case Some(t) => SetTitle(t)
      case None => Threw
    else if callback == CopyCallback then Register("copy", ".list-value")
    else NoReaction
  }

  /** The copy action comes from the advanced request's callback only, whatever the data. */
  lemma CopyOnlyFromAdvanced(data: Value)
    ensures React(AdvancedOptions.callback.value, data) == Register("copy", ".list-value")
    ensures !React(BasicOptions.callback.value, data).Register?
  {
  }

  /**
   * End to end: when the basic route serves `gatherData`'s record, the title
   * shows the padded days, hours and minutes of the elapsed time.
   */
  lemma TitleOfSnapshot(clock: ClockReading, pad: int -> string, data: Option<Value>)
    requires GatherData(clock, pad, data).Some?
    ensures Title(ToJson(GatherData(clock, pad, data).value))
         == Some("uptimey - " + pad(clock.diffSeconds / 86400) + " days "
                 + pad(clock.diffSeconds / 3600 % 24) + " hours "
                 + pad(clock.diffSeconds / 60 % 60) + " minutes")
  {
    var s := GatherData(clock, pad, data).value;
    TitleOfFields(ToJson(s), s.uptime.days, s.uptime.hours, s.uptime.minutes);
  }

  /** `init()`: both requests are made on the index layout only. */
  method Init(api: ApiProvider, isIndex: bool)
    modifies api`requests, api`pending, api`intervals
    ensures !isIndex ==> api.requests == old(api.requests) && api.pending == old(api.pending)
                         && api.intervals == old(api.intervals)
    ensures isIndex ==> api.intervals == old(api.intervals) + [BasicOptions]
    ensures isIndex ==> api.requests == old(api.requests) + ["/api/advanced"]
    ensures isIndex ==> api.pending == old(api.pending) + [AdvancedOptions]
  {
    if isIndex {
      api.Get(BasicOptions);
      api.Get(AdvancedOptions);
      assert BuildUrl(AdvancedOptions.route) == "/api/advanced";
    }
  }
}
