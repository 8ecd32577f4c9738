/**
 * The API helper of src/providers/api.ts as a state machine over an abstract
 * page. The network, timers and jQuery are replaced by explicit events: a
 * request is recorded when it is issued and stays pending until the
 * environment answers it with `Success` or `Failure`; each `setInterval`
 * becomes a registration that fires when the environment calls
 * `FireInterval` or `FireCounter`.
 */
module Api {
  import opened Wrappers
  import opened Json
  import opened Binder
  import opened Countdown
  import opened Arith

  /** The options `get` accepts; a callback is identified by the caller's name for it. */
  datatype Options = Options(route: Option<string>, updates: bool, callback: Option<string>)

  /** What the helper does besides writing data into elements, in order. */
  datatype Effect =
    | DataBound(updates: bool)              // bindData ran
    | NotesCleared                          // notes.clearAll()
    | Toast(kind: string, message: string)  // toasts.init(kind, message)
    | LoadingRemoved                        // the list loses its `loading` class
    | CallbackRun(name: string, data: Value)
    | TimerStarted                          // requestTimer() started a counter
    | NotesPass                             // bindDataNotes() ran

  /** `buildUrl`: "/api", followed by "/" and the route when the route is a non-empty string. */
  function BuildUrl(route: Option<string>): (url: string)
    ensures |url| >= 4 && url[..4] == "/api"
    ensures url == "/api" <==> route.None? || route.value == ""
    ensures route.Some? && route.value != "" ==> |url| == 5 + |route.value| && url[4] == '/' && url[5..] == route.value
  {
    "/api" + (if route.Some? && route.value != "" then "/" + route.value else "")
  }

  /** The route a URL of the API names; the inverse of `BuildUrl`. */
  function RouteOf(url: string): Option<string>
  {
    if |url| > 5 && url[..5] == "/api/" then Some(url[5..]) else None
  }

  /** The route is recovered from its URL, no escaping or normalisation taking place; an empty route is the bare API. */
  lemma UrlRoundTrip(route: Option<string>)
    ensures RouteOf(BuildUrl(route)) == if route.None? || route.value == "" then None else route
  {
    if route.Some? && route.value != "" {
      assert BuildUrl(route)[..5] == "/api/";
    }
  }

  /** Distinct non-empty routes are requested at distinct URLs. */
  lemma UrlInjective(a: string, b: string)
    requires a != "" && b != ""
    requires BuildUrl(Some(a)) == BuildUrl(Some(b))
    ensures a == b
  {
    UrlRoundTrip(Some(a));
    UrlRoundTrip(Some(b));
  }

  /**
   * How many requests `get(options)` has issued `t` milliseconds after the
   * call: one at once without `updates`; with `updates`, none at first and
   * one at every whole multiple of `updateTimeout`.
   */
  function RequestsBy(options: Options, t: nat): nat
  {
    if options.updates then t / UpdateTimeout else 1
  }

  lemma {:induction false} Schedule(options: Options, t: nat)
    ensures RequestsBy(options, 0) == if options.updates then 0 else 1
    ensures !options.updates ==> RequestsBy(options, t) == 1
    ensures options.updates ==> RequestsBy(options, t + UpdateTimeout) == RequestsBy(options, t) + 1
    ensures options.updates && t % UpdateTimeout != 0 ==> RequestsBy(options, t) == RequestsBy(options, t - 1)
    ensures options.updates && t > 0 && t % UpdateTimeout == 0 ==> RequestsBy(options, t) == RequestsBy(options, t - 1) + 1
  {
    var q, r := t / UpdateTimeout, t % UpdateTimeout;
    DivUnique(t + UpdateTimeout, UpdateTimeout, q + 1, r);
    if t > 0 {
      if r != 0 {
        DivUnique(t - 1, UpdateTimeout, q, r - 1);
      } else {
        DivUnique(t - 1, UpdateTimeout, q - 1, UpdateTimeout - 1);
      }
    }
  }

  /** The effects of the success handler, in the order the handler runs them. */
  function SuccessEffects(options: Options, data: Value): (es: seq<Effect>)
    ensures |es| >= 2 && es[0] == DataBound(options.updates)
    ensures NotesCleared in es <==> options.updates
    ensures Toast("success", "Data has been updated!") in es <==> options.updates
    ensures LoadingRemoved in es
    ensures options.updates ==> es[1] == NotesCleared && es[2] == Toast("success", "Data has been updated!") && es[3] == LoadingRemoved
    ensures !options.updates ==> es[1] == LoadingRemoved
    ensures options.callback.None? ==> forall i :: 0 <= i < |es| ==> !es[i].CallbackRun?
    ensures options.callback.Some? ==> es[|es| - 1] == CallbackRun(options.callback.value, data)
    ensures forall i :: 0 <= i < |es| - 1 ==> !es[i].CallbackRun?
  {
    [DataBound(options.updates)]
    + (if options.updates then [NotesCleared, Toast("success", "Data has been updated!")] else [])
    + [LoadingRemoved]
    + (if options.callback.Some? then [CallbackRun(options.callback.value, data)] else [])
  }

  /** The effects of the error handler: countdown, notes pass, error toast; never the callback. */
  const ErrorEffects: seq<Effect> := [TimerStarted, NotesPass, Toast("error", "Server is not responding!")]

  lemma ErrorNeverCallsBack()
    ensures forall i :: 0 <= i < |ErrorEffects| ==> !ErrorEffects[i].CallbackRun?
    ensures NotesCleared !in ErrorEffects && LoadingRemoved !in ErrorEffects
  {
  }

  function Remove<T>(s: seq<T>, k: nat): (r: seq<T>)
    requires k < |s|
    ensures |r| == |s| - 1
  {
    s[..k] + s[k + 1..]
  }

  class ApiProvider {
    /** `updateTimeout`: the refresh period in milliseconds. */
    const updateTimeout: int
    /** The elements of the page and `utils.normalizeString`. */
    const page: Page

    var text: map<string, string>
    var spanText: map<string, string>
    var marked: set<string>
    var loading: bool
    /** Every URL requested, in order. */
    var requests: seq<string>
    /** The options of each request not yet answered. */
    var pending: seq<Options>
    /** The options of each live refresh interval. */
    var intervals: seq<Options>
    var effects: seq<Effect>
    /** Every countdown started; none is ever cancelled. */
    var counters: seq<Counter>
    var timerHidden: bool
    var timerText: string

    function DomState(): Dom
      reads this
    {
      Dom(text, spanText, marked)
    }

    constructor (page: Page, initial: Dom)
      ensures updateTimeout == UpdateTimeout && this.page == page
      ensures DomState() == initial && loading
      ensures requests == [] && pending == [] && intervals == [] && effects == [] && counters == []
      ensures timerHidden
    {
      updateTimeout := 1000 * 60;
      this.page := page;
      text, spanText, marked := initial.text, initial.spanText, initial.marked;
      loading := true;
      requests, pending, intervals, effects, counters := [], [], [], [], [];
      timerHidden, timerText := true, "";
    }

    /**
     * `get(options)`: with `updates` nothing is requested now, an interval is
     * registered instead; otherwise one request is issued at once.
     */
    method Get(options: Options)
      modifies this`requests, this`pending, this`intervals
      ensures options.updates ==> requests == old(requests) && pending == old(pending)
                                  && intervals == old(intervals) + [options]
      ensures !options.updates ==> requests == old(requests) + [BuildUrl(options.route)]
                                   && pending == old(pending) + [options] && intervals == old(intervals)
    {
      if options.updates {
        intervals := intervals + [options];
      } else {
        Ajax(options);
      }
    }

    /** `_ajax(options)`: one request to the route's URL. */
    method Ajax(options: Options)
      modifies this`requests, this`pending
      ensures requests == old(requests) + [BuildUrl(options.route)]
      ensures pending == old(pending) + [options]
    {
      requests := requests + [BuildUrl(options.route)];
      pending := pending + [options];
    }

    /** Interval `i` fires after another `updateTimeout` milliseconds: one more request. */
    method FireInterval(i: nat)
      requires i < |intervals|
      modifies this`requests, this`pending
      ensures requests == old(requests) + [BuildUrl(intervals[i].route)]
      ensures pending == old(pending) + [intervals[i]]
    {
      Ajax(intervals[i]);
    }

    /**
     * The success handler for pending request `k`: bind; when refreshing,
     * clear the notes and toast; drop the loading state; run the callback
     * with the raw data. jQuery hands the handler the parsed response, so
     * `data` holds each key once per object.
     */
    method Success(k: nat, data: Value)
      requires k < |pending| && Parsed(data)
      modifies this`text, this`spanText, this`marked, this`loading, this`effects, this`pending
      ensures DomState() == Bound(page, old(DomState()), data, old(pending[k]).updates)
      ensures old(marked) <= marked
      ensures !old(pending[k]).updates ==> marked == old(marked)
      ensures !loading
      ensures effects == old(effects) + SuccessEffects(old(pending[k]), data)
      ensures pending == Remove(old(pending), k)
    {
      var options := pending[k];
      pending := Remove(pending, k);
      BindData(data, options.updates);
      var log := [DataBound(options.updates)];
      if options.updates {
        log := log + [NotesCleared, Toast("success", "Data has been updated!")];
      }
      loading := false;
      log := log + [LoadingRemoved];
      if options.callback.Some? {
        log := log + [CallbackRun(options.callback.value, data)];
      }
      effects := effects + log;
    }

    /** The error handler for pending request `k`: countdown, notes pass, error toast. */
    method Failure(k: nat)
      requires k < |pending|
      modifies this`counters, this`effects, this`pending
      ensures counters == old(counters) + [Counter(updateTimeout * 1000, true)]
      ensures effects == old(effects) + ErrorEffects
      ensures pending == Remove(old(pending), k)
    {
      pending := Remove(pending, k);
      RequestTimer();
      effects := effects + [NotesPass, Toast("error", "Server is not responding!")];
    }

    /** `requestTimer()`: a fresh counter, earlier ones left running. */
    method RequestTimer()
      modifies this`counters, this`effects
      ensures counters == old(counters) + [Counter(updateTimeout * 1000, true)]
      ensures effects == old(effects) + [TimerStarted]
    {
      counters := counters + [Counter(updateTimeout * 1000, true)];
      effects := effects + [TimerStarted];
    }

    /** Counter `i`'s interval fires: tick, show the wrapper and the digits, stop and hide on "00". */
    method FireCounter(i: nat)
      requires i < |counters| && counters[i].running
      modifies this`counters, this`timerHidden, this`timerText
      ensures counters == old(counters)[i := Tick(old(counters[i])).0]
      ensures timerText == Tick(old(counters[i])).1
      ensures timerHidden <==> timerText == "00"
      ensures !counters[i].running <==> timerHidden
    {
      var remaining := counters[i].remaining - TickInterval;
      var output := SecondsField(remaining);
      timerHidden := false;
      timerText := output;
      counters := counters[i := Counter(remaining, true)];
      if output == "00" {
        counters := counters[i := Counter(remaining, false)];
        timerHidden := true;
      }
    }

    /** `bindData(data, updates)`: walk the parsed response object, each key once. */
    method BindData(data: Value, updates: bool)
      requires Parsed(data)
      modifies this`text, this`spanText, this`marked
      ensures DomState() == Bound(page, old(DomState()), data, updates)
      ensures marked == old(marked) + (if updates then Targets(page, Leaves(data)) else {})
    {
      if data.Obj? {
        ForEach(data, updates);
      }
      BoundIsWriteAll(page, old(DomState()), data, updates);
      WriteAllMarks(page, old(DomState()), Leaves(data), updates);
    }

    /** `_.forEach(obj, updateValues)` over the object's own keys; lodash's array-like walk of an object with a numeric `length` is not modelled. */
    method ForEach(obj: Value, updates: bool)
      requires obj.Obj? && Parsed(obj)
      modifies this`text, this`spanText, this`marked
      ensures DomState() == BoundEntries(page, old(DomState()), obj, |obj.fields|, updates)
      decreases obj, 0
    {
      var i := 0;
      while i < |obj.fields|
        invariant 0 <= i <= |obj.fields|
        invariant DomState() == BoundEntries(page, old(DomState()), obj, i, updates)
      {
        var (key, value) := obj.fields[i];
        UpdateValues(value, key, updates);
        i := i + 1;
      }
    }

    /** `updateValues(value, key)`: write a leaf into its element, walk an object. */
    method UpdateValues(value: Value, key: string, updates: bool)
      requires Parsed(value)
      modifies this`text, this`spanText, this`marked
      ensures DomState() == BoundValue(page, old(DomState()), key, value, updates)
      decreases value, 1
    {
      match value {
        case Leaf(t) =>
          var id := page.normalize(key);
          if id in page.spans {
            if page.spans[id] == 1 {
              spanText := spanText[id := t];
            } else {
              text := text[id := t];
            }
            if updates {
              marked := marked + {id};
            }
          }
        case Null =>
        case Obj(_) =>
          ForEach(value, updates);
      }
    }
  }
}
