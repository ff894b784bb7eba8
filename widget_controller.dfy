/**
  * The controller of the embedded SoundCloud widget: three listener sets, a
  * widget built at most once until it is destroyed, a track load that
  * settles on whichever of its callback, a widget error or a 15 s timeout
  * comes first, and the volume scaled to the widget's 0..100.
  */
module WidgetController {
  import opened Types
  import opened Listeners

  /** How long `loadTrack` waits for the widget before giving up, in ms. */
  const LoadTimeoutMs: nat := 15000

  /** What the controller asks of the widget. */
  datatype Command = Load(url: string) | PlayTrack | PauseTrack | SetLevel(level: JsNumber)

  /** What a listener is called for: the track finished, the widget is ready, or an error. */
  datatype Note = Finish | Ready | Fail(message: string)

  /** One call of a listener. */
  datatype Notice = Notice(listener: ListenerId, note: Note)

  /** How a promise of the controller ends; `Pending` when nothing has settled it yet. */
  datatype Settled = Resolved | Rejected(reason: string) | Pending

  /** What can happen while a track loads: the load callback, the widget's ERROR event, or the timeout. */
  datatype LoadEvent = LoadCallback | WidgetError | Timeout

  /** The calls of a `for (const listener of set)` loop over `listeners`. */
  function Each(listeners: seq<ListenerId>, note: Note): (r: seq<Notice>)
    ensures |r| == |listeners|
    ensures forall i :: 0 <= i < |r| ==> r[i] == Notice(listeners[i], note)
  {
    seq(|listeners|, i requires 0 <= i < |listeners| => Notice(listeners[i], note))
  }

  lemma EachSnoc(listeners: seq<ListenerId>, l: ListenerId, note: Note)
    ensures Each(listeners + [l], note) == Each(listeners, note) + [Notice(l, note)]
  {
  }

  // ---------------------------------------------------------------------
  // Volume
  // ---------------------------------------------------------------------

  /** This file's `clamp01`, `Math.max(0, Math.min(1, value))`, which lets NaN through. */
  function WidgetClamp01(v: JsNumber): (r: JsNumber)
    ensures r.NaN? <==> v.NaN?
    ensures !v.NaN? ==> r.Finite? && 0.0 <= r.r <= 1.0
    ensures v.Finite? && 0.0 <= v.r <= 1.0 ==> r == v
  {
    match v
    case NaN => NaN
    case NegInf => Finite(0.0)
    case PosInf => Finite(1.0)
    case Finite(x) => Finite(if x < 0.0 then 0.0 else if x > 1.0 then 1.0 else x)
  }

  /** `Math.round(x)`: the nearest integer, halves rounded up. */
  function Round(x: real): (n: int)
    ensures (n as real) - 0.5 <= x < (n as real) + 0.5
  {
    (x + 0.5).Floor
  }

  /** The level `setVolume` sends: `Math.round(clamp01(value) * 100)`. */
  function VolumeLevel(v: JsNumber): (r: JsNumber)
    ensures r.NaN? <==> v.NaN?
    ensures !v.NaN? ==> r.Finite? && 0.0 <= r.r <= 100.0 && r.r == (r.r.Floor as real)
    ensures !v.NaN? ==> -0.5 < r.r - WidgetClamp01(v).r * 100.0 <= 0.5
  {
    match WidgetClamp01(v)
    case Finite(x) => Finite(Round(x * 100.0) as real)
    case _ => NaN
  }

  /** For a volume in [0,1] the level is the nearest whole percent. */
  lemma VolumeLevelNearest(v: real)
    requires 0.0 <= v <= 1.0
    ensures VolumeLevel(Finite(v)).Finite?
    ensures -0.5 < VolumeLevel(Finite(v)).r - v * 100.0 <= 0.5
  {
  }

  /** A larger volume never sends a smaller level. */
  lemma VolumeLevelMonotone(a: real, b: real)
    requires a <= b
    ensures VolumeLevel(Finite(a)).r <= VolumeLevel(Finite(b)).r
  {
    var x := WidgetClamp01(Finite(a)).r;
    var y := WidgetClamp01(Finite(b)).r;
    assert x <= y;
    assert (x * 100.0 + 0.5).Floor <= (y * 100.0 + 0.5).Floor;
  }

  // ---------------------------------------------------------------------
  // loadTrack's race
  // ---------------------------------------------------------------------

  /** How `loadTrack`'s promise ends: decided by the first event alone. */
  function FirstSettle(events: seq<LoadEvent>): (r: Settled)
    ensures r == Pending <==> events == []
    ensures r == Resolved <==> events != [] && events[0] == LoadCallback
    ensures r.Rejected? ==> r.reason == SourceUnavailable
  {
    if events == [] then Pending
    else if events[0] == LoadCallback then Resolved
    else Rejected(SourceUnavailable)
  }

  /** Once settled, later events change nothing. */
  lemma FirstSettleIgnoresLater(events: seq<LoadEvent>, later: seq<LoadEvent>)
    requires events != []
    ensures FirstSettle(events + later) == FirstSettle(events)
  {
    assert (events + later)[0] == events[0];
  }

  /** The error calls to the `users` listeners, one round per widget error among `events`. */
  function ErrorRounds(users: seq<ListenerId>, events: seq<LoadEvent>): (r: seq<Notice>)
    ensures events == [] ==> r == []
    decreases |events|
  {
    if events == [] then []
    else
      var n := |events| - 1;
      ErrorRounds(users, events[..n]) + (if events[n] == WidgetError then Each(users, Fail(SourceUnavailable)) else [])
  }

  /** A widget error that is the first event also calls `loadTrack`'s own error listener, which comes last in the set. */
  function LoadNotices(users: seq<ListenerId>, own: ListenerId, events: seq<LoadEvent>): (r: seq<Notice>)
    ensures events == [] ==> r == []
  {
    if events == [] then []
    else
      (if events[0] == WidgetError then Each(users + [own], Fail(SourceUnavailable)) else [])
      + ErrorRounds(users, events[1..])
  }

  /** The error calls one more event adds: none unless it is a widget error, and the own listener only on the first event. */
  function LoadDelta(users: seq<ListenerId>, own: ListenerId, first: bool, e: LoadEvent): (r: seq<Notice>)
    ensures e != WidgetError ==> r == []
    ensures e == WidgetError ==> |r| == |users| + (if first then 1 else 0)
  {
    if e != WidgetError then []
    else if first then Each(users + [own], Fail(SourceUnavailable))
    else Each(users, Fail(SourceUnavailable))
  }

  /** `LoadNotices` grows one event at a time. */
  lemma LoadNoticesSnoc(users: seq<ListenerId>, own: ListenerId, events: seq<LoadEvent>, e: LoadEvent)
    ensures LoadNotices(users, own, events + [e]) == LoadNotices(users, own, events) + LoadDelta(users, own, events == [], e)
  {
    if events != [] {
      assert (events + [e])[0] == events[0];
      assert (events + [e])[1..] == events[1..] + [e];
      assert (events[1..] + [e])[..|events| - 1] == events[1..];
    } else {
      assert events + [e] == [e];
    }
  }

  /** One step of the load loop: the notices of the first `i` events and one more event's are those of the first `i + 1`. */
  lemma AwaitStep(users: seq<ListenerId>, own: ListenerId, base: seq<Notice>, events: seq<LoadEvent>, i: nat, after: seq<Notice>)
    requires i < |events|
    requires after == base + LoadNotices(users, own, events[..i]) + LoadDelta(users, own, i == 0, events[i])
    ensures after == base + LoadNotices(users, own, events[..i + 1])
    ensures events[..i + 1] == events[..i] + [events[i]]
  {
    assert events[..i + 1] == events[..i] + [events[i]];
    LoadNoticesSnoc(users, own, events[..i], events[i]);
  }

  // ---------------------------------------------------------------------
  // The controller
  // ---------------------------------------------------------------------

  /** The three listener sets and the load timers still scheduled, named by the load's own error listener. */
  datatype Registry = Registry(finish: seq<ListenerId>, ready: seq<ListenerId>, error: seq<ListenerId>, timers: set<ListenerId>)

  /** The widget, whether it is built, whether the iframe is in the page, and how many widgets were built. */
  datatype Mount = Mount(widget: Option<nat>, initialized: bool, iframe: bool, created: nat)

  /** `ensureReady` once the script is there: build the widget (and iframe) unless already built. */
  function ReadyMount(m: Mount): (r: Mount)
    ensures r.initialized
    ensures m.initialized ==> r == m
    ensures !m.initialized ==> r.created == m.created + 1 && r.widget == Some(r.created) && r.iframe
  {
    if m.initialized then m else Mount(Some(m.created + 1), true, true, m.created + 1)
  }

  /** `destroy`'s effect on the widget: gone, not initialized, iframe removed. */
  function DestroyedMount(m: Mount): (r: Mount)
    ensures !r.initialized && r.widget.None? && !r.iframe && r.created == m.created
  {
    Mount(None, false, false, m.created)
  }

  /** `ensureReady` builds at most one widget: a second call builds nothing. */
  lemma ReadyMountOnce(m: Mount)
    ensures ReadyMount(ReadyMount(m)) == ReadyMount(m)
    ensures ReadyMount(m).created <= m.created + 1
  {
  }

  /** After `destroy`, `ensureReady` builds a new widget. */
  lemma ReadyAfterDestroy(m: Mount)
    ensures ReadyMount(DestroyedMount(m)).created == m.created + 1
    ensures ReadyMount(DestroyedMount(m)).widget == Some(m.created + 1)
  {
  }

  class SoundCloudWidgetController {
    var widget: Option<nat>
    var initialized: bool
    var iframe: bool
    var created: nat
    var finishListeners: seq<ListenerId>
    var readyListeners: seq<ListenerId>
    var errorListeners: seq<ListenerId>
    var timers: set<ListenerId>
    /** Every call made to the widget, in order. */
    var commands: seq<Command>
    /** Every call made to a listener, in order. */
    var notices: seq<Notice>

    function Registered(): Registry
      reads this
    {
      Registry(finishListeners, readyListeners, errorListeners, timers)
    }

    function Mounted(): Mount
      reads this
    {
      Mount(widget, initialized, iframe, created)
    }

    /** The sets hold each listener once; a widget exists exactly when initialized, and it is the last one built. */
    ghost predicate Valid()
      reads this
    {
      && Distinct(finishListeners) && Distinct(readyListeners) && Distinct(errorListeners)
      && (initialized <==> widget.Some?)
      && (widget.Some? ==> widget.value == created)
    }

    constructor()
      ensures Valid()
      ensures Registered() == Registry([], [], [], {})
      ensures Mounted() == Mount(None, false, false, 0)
      ensures commands == [] && notices == []
    {
      widget := None;
      initialized := false;
      iframe := false;
      created := 0;
      finishListeners := [];
      readyListeners := [];
      errorListeners := [];
      timers := {};
      commands := [];
      notices := [];
    }

    /** `onFinish(listener)`. */
    method OnFinish(l: ListenerId)
      requires Valid()
      modifies this
      ensures Valid()
      ensures Registered() == old(Registered()).(finish := Added(old(finishListeners), l))
      ensures Mounted() == old(Mounted()) && commands == old(commands) && notices == old(notices)
    {
      finishListeners := Added(finishListeners, l);
    }

    /** The handle `onFinish` returns: remove that listener only; harmless when repeated. */
    method OffFinish(l: ListenerId)
      requires Valid()
      modifies this
      ensures Valid()
      ensures Registered() == old(Registered()).(finish := Unlisted(old(finishListeners), l))
      ensures l !in finishListeners
      ensures Mounted() == old(Mounted()) && commands == old(commands) && notices == old(notices)
    {
      UnlistedDistinct(finishListeners, l);
      finishListeners := Unlisted(finishListeners, l);
    }

    /** `onReady(listener)`. */
    method OnReady(l: ListenerId)
      requires Valid()
      modifies this
      ensures Valid()
      ensures Registered() == old(Registered()).(ready := Added(old(readyListeners), l))
      ensures Mounted() == old(Mounted()) && commands == old(commands) && notices == old(notices)
    {
      readyListeners := Added(readyListeners, l);
    }

    /** The handle `onReady` returns. */
    method OffReady(l: ListenerId)
      requires Valid()
      modifies this
      ensures Valid()
      ensures Registered() == old(Registered()).(ready := Unlisted(old(readyListeners), l))
      ensures l !in readyListeners
      ensures Mounted() == old(Mounted()) && commands == old(commands) && notices == old(notices)
    {
      UnlistedDistinct(readyListeners, l);
      readyListeners := Unlisted(readyListeners, l);
    }

    /** `onError(listener)`. */
    method OnError(l: ListenerId)
      requires Valid()
      modifies this
      ensures Valid()
      ensures Registered() == old(Registered()).(error := Added(old(errorListeners), l))
      ensures Mounted() == old(Mounted()) && commands == old(commands) && notices == old(notices)
    {
      errorListeners := Added(errorListeners, l);
    }

    /** The handle `onError` returns. */
    method OffError(l: ListenerId)
      requires Valid()
      modifies this
      ensures Valid()
      ensures Registered() == old(Registered()).(error := Unlisted(old(errorListeners), l))
      ensures l !in errorListeners
      ensures Mounted() == old(Mounted()) && commands == old(commands) && notices == old(notices)
    {
      UnlistedDistinct(errorListeners, l);
      errorListeners := Unlisted(errorListeners, l);
    }

    /** Call each listener of `listeners` in order with `note`. */
    method Dispatch(listeners: seq<ListenerId>, note: Note)
      modifies this
      ensures notices == old(notices) + Each(listeners, note)
      ensures Registered() == old(Registered()) && Mounted() == old(Mounted()) && commands == old(commands)
    {
      var i := 0;
      while i < |listeners|
        invariant 0 <= i <= |listeners|
        invariant notices == old(notices) + Each(listeners[..i], note)
        invariant Registered() == old(Registered()) && Mounted() == old(Mounted()) && commands == old(commands)
      {
        EachSnoc(listeners[..i], listeners[i], note);
        assert listeners[..i + 1] == listeners[..i] + [listeners[i]];
        notices := notices + [Notice(listeners[i], note)];
        i := i + 1;
      }
      assert listeners[..i] == listeners;
    }

    /** The widget's READY event: every ready listener is called. */
    method EmitReady()
      modifies this
      ensures notices == old(notices) + Each(readyListeners, Ready)
      ensures Registered() == old(Registered()) && Mounted() == old(Mounted()) && commands == old(commands)
    {
      Dispatch(readyListeners, Ready);
    }

    /** The widget's FINISH event: every finish listener is called. */
    method EmitFinish()
      modifies this
      ensures notices == old(notices) + Each(finishListeners, Finish)
      ensures Registered() == old(Registered()) && Mounted() == old(Mounted()) && commands == old(commands)
    {
      Dispatch(finishListeners, Finish);
    }

    /** The widget's ERROR event (`emitError`): every error listener is called with "Source unavailable". */
    method EmitError()
      modifies this
      ensures notices == old(notices) + Each(errorListeners, Fail(SourceUnavailable))
      ensures Registered() == old(Registered()) && Mounted() == old(Mounted()) && commands == old(commands)
    {
      Dispatch(errorListeners, Fail(SourceUnavailable));
    }

    /**
      * `ensureReady()`: fails when the widget script cannot be loaded;
      * otherwise builds the widget, unless already built.
      */
    method EnsureReady(scriptOk: bool) returns (r: Settled)
      requires Valid()
      modifies this
      ensures Valid()
      ensures !scriptOk ==> r == Rejected(SourceUnavailable) && Mounted() == old(Mounted())
      ensures scriptOk ==> r == Resolved && Mounted() == ReadyMount(old(Mounted()))
      ensures Registered() == old(Registered()) && commands == old(commands) && notices == old(notices)
    {
      if !scriptOk {
        return Rejected(SourceUnavailable);
      }
      if !initialized {
        CreateWidget();
        initialized := true;
      }
      r := Resolved;
    }

    /** `createWidget()`: the iframe if missing, then a new widget on it. */
    method CreateWidget()
      modifies this
      ensures iframe && created == old(created) + 1 && widget == Some(created)
      ensures initialized == old(initialized)
      ensures Registered() == old(Registered()) && commands == old(commands) && notices == old(notices)
    {
      if !iframe {
        iframe := true;
      }
      created := created + 1;
      widget := Some(created);
    }

    /** `requireWidget()`: the widget, or "Source unavailable" without one. */
    function RequireWidget(): (r: Result<nat, string>)
      reads this
      ensures r.Err? <==> widget.None?
      ensures r.Err? ==> r.error == SourceUnavailable
      ensures r.Ok? ==> widget == Some(r.value)
    {
      if widget.None? then Err(SourceUnavailable) else Ok(widget.value)
    }

    /**
      * `loadTrack(url)`: after `ensureReady`, arm the timeout, add an own
      * error listener `own` and ask the widget to load. The first of the
      * events decides the outcome; whichever it is, and when `load` throws,
      * the timer is cleared and the own listener removed.
      */
    method LoadTrack(url: string, scriptOk: bool, own: ListenerId, loadThrows: bool, events: seq<LoadEvent>) returns (r: Settled)
      requires Valid()
      requires own !in errorListeners && own !in timers
      modifies this
      ensures Valid()
      ensures !scriptOk ==>
                r == Rejected(SourceUnavailable) && Mounted() == old(Mounted())
                && Registered() == old(Registered()) && commands == old(commands) && notices == old(notices)
      ensures scriptOk ==> Mounted() == ReadyMount(old(Mounted())) && commands == old(commands) + [Load(url)]
      ensures scriptOk && loadThrows ==>
                r == Rejected(SourceUnavailable) && Registered() == old(Registered()) && notices == old(notices)
      ensures scriptOk && !loadThrows ==>
                r == FirstSettle(events) && notices == old(notices) + LoadNotices(old(errorListeners), own, events)
      ensures scriptOk && !loadThrows && r != Pending ==> Registered() == old(Registered())
      ensures scriptOk && !loadThrows && r == Pending ==>
        Registered() == old(Registered()).(error := old(errorListeners) + [own], timers := old(timers) + {own})
    {
      r := EnsureReady(scriptOk);
      if r.Rejected? {
        return;
      }
      assert RequireWidget().Ok?;
      timers := timers + {own};
      errorListeners := Added(errorListeners, own);
      commands := commands + [Load(url)];
      if loadThrows {
        SettleLoad(old(errorListeners), old(timers), own);
        return Rejected(SourceUnavailable);
      }
      r := AwaitLoad(old(errorListeners), old(timers), own, events);
    }

    /** The own listener is the last error listener and its timer is armed, or, once settled, both are gone. */
    ghost predicate LoadState(users: seq<ListenerId>, armed: set<ListenerId>, own: ListenerId, settled: bool)
      reads this
    {
      && (!settled ==> errorListeners == users + [own] && timers == armed + {own})
      && (settled ==> errorListeners == users && timers == armed)
    }

    /** `clearTimeout(timeout)` and `offError()`. */
    method SettleLoad(ghost users: seq<ListenerId>, ghost armed: set<ListenerId>, own: ListenerId)
      requires Valid() && LoadState(users, armed, own, false) && own !in users && own !in armed
      modifies this
      ensures Valid() && LoadState(users, armed, own, true)
      ensures finishListeners == old(finishListeners) && readyListeners == old(readyListeners)
      ensures Mounted() == old(Mounted()) && commands == old(commands) && notices == old(notices)
    {
      UnlistedAdded(users, own);
      assert Added(users, own) == errorListeners;
      assert Distinct(users) by {
        assert forall i :: 0 <= i < |users| ==> users[i] == errorListeners[i];
      }
      timers := timers - {own};
      errorListeners := Unlisted(errorListeners, own);
      assert errorListeners == users;
      assert timers == armed;
    }

    /**
      * One event after `widget.load`: a load callback settles an unsettled
      * load as resolved, the timer (armed only while unsettled) and the own
      * error listener as rejected; a widget error also calls every error
      * listener still registered. After any event the load is settled.
      */
    method OnLoadEvent(ghost users: seq<ListenerId>, ghost armed: set<ListenerId>, own: ListenerId, settled: bool, e: LoadEvent)
      returns (outcome: Settled)
      requires Valid() && LoadState(users, armed, own, settled) && own !in users && own !in armed
      modifies this
      ensures Valid() && LoadState(users, armed, own, true)
      ensures !settled ==> outcome == FirstSettle([e])
      ensures notices == old(notices) + LoadDelta(users, own, !settled, e)
      ensures finishListeners == old(finishListeners) && readyListeners == old(readyListeners)
      ensures Mounted() == old(Mounted()) && commands == old(commands)
    {
      outcome := Pending;
      match e {
        case LoadCallback =>
          if !settled {
            SettleLoad(users, armed, own);
            outcome := Resolved;
          }
        case Timeout =>
          if own in timers {
            SettleLoad(users, armed, own);
            outcome := Rejected(SourceUnavailable);
          }
        case WidgetError =>
          var ownCalled := own in errorListeners;
          EmitError();
          if ownCalled && !settled {
            SettleLoad(users, armed, own);
            outcome := Rejected(SourceUnavailable);
          }
      }
    }

    /**
      * The events that follow `widget.load`, in order: the first one settles
      * the load (and clears the timer and the own listener); a widget error
      * also calls every error listener, the own one only while unsettled.
      */
    method AwaitLoad(ghost users: seq<ListenerId>, ghost armed: set<ListenerId>, own: ListenerId, events: seq<LoadEvent>) returns (r: Settled)
      requires Valid() && LoadState(users, armed, own, false) && own !in users && own !in armed
      modifies this
      ensures Valid()
      ensures r == FirstSettle(events)
      ensures LoadState(users, armed, own, r != Pending)
      ensures notices == old(notices) + LoadNotices(users, own, events)
      ensures finishListeners == old(finishListeners) && readyListeners == old(readyListeners)
      ensures Mounted() == old(Mounted()) && commands == old(commands)
    {
      var settled := false;
      r := Pending;
      var i := 0;
      while i < |events|
        invariant 0 <= i <= |events|
        invariant Valid()
        invariant r == FirstSettle(events[..i])
        invariant settled <==> i > 0
        invariant LoadState(users, armed, own, settled)
        invariant finishListeners == old(finishListeners) && readyListeners == old(readyListeners)
        invariant notices == old(notices) + LoadNotices(users, own, events[..i])
        invariant Mounted() == old(Mounted()) && commands == old(commands)
      {
        var outcome := OnLoadEvent(users, armed, own, settled, events[i]);
        AwaitStep(users, own, old(notices), events, i, notices);
        if !settled {
          assert [events[i]] == events[..i + 1];
          r := outcome;
        } else {
          FirstSettleIgnoresLater(events[..i], [events[i]]);
        }
        settled := true;
        i := i + 1;
      }
      assert events[..i] == events;
    }

    /** `play()`: after `ensureReady`, tell the widget to play. */
    method Play(scriptOk: bool) returns (r: Settled)
      requires Valid()
      modifies this
      ensures Valid()
      ensures !scriptOk ==> r == Rejected(SourceUnavailable) && Mounted() == old(Mounted()) && commands == old(commands)
      ensures scriptOk ==> r == Resolved && Mounted() == ReadyMount(old(Mounted())) && commands == old(commands) + [PlayTrack]
      ensures Registered() == old(Registered()) && notices == old(notices)
    {
      r := EnsureReady(scriptOk);
      if r.Rejected? {
        return;
      }
      assert RequireWidget().Ok?;
      commands := commands + [PlayTrack];
    }

    /** `pause()`: nothing without a widget. */
    method Pause()
      requires Valid()
      modifies this
      ensures Valid()
      ensures commands == old(commands) + (if widget.Some? then [PauseTrack] else [])
      ensures Registered() == old(Registered()) && Mounted() == old(Mounted()) && notices == old(notices)
    {
      if widget.None? {
        return;
      }
      commands := commands + [PauseTrack];
    }

    /** `setVolume(value01)`: nothing without a widget, else the level in whole percent. */
    method SetVolume(value: JsNumber)
      requires Valid()
      modifies this
      ensures Valid()
      ensures commands == old(commands) + (if widget.Some? then [SetLevel(VolumeLevel(value))] else [])
      ensures Registered() == old(Registered()) && Mounted() == old(Mounted()) && notices == old(notices)
    {
      if widget.None? {
        return;
      }
      commands := commands + [SetLevel(VolumeLevel(value))];
    }

    /** `destroy()`: empty the three sets, drop the widget, clear `initialized`, remove the iframe. */
    method Destroy()
      requires Valid()
      modifies this
      ensures Valid()
      ensures Registered() == Registry([], [], [], old(timers))
      ensures Mounted() == DestroyedMount(old(Mounted()))
      ensures commands == old(commands) && notices == old(notices)
    {
      finishListeners := [];
      readyListeners := [];
      errorListeners := [];
      widget := None;
      initialized := false;
      if iframe {
        iframe := false;
      }
    }
  }
}
