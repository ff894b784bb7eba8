/**
  * The playback engine: one state record that changes only by shallow merges,
  * each pushed to every subscriber, over an audio element whose volume is
  * faded in and out. Every operation runs to completion before the next one
  * starts; what the audio backend answers (whether `play()` resolves, whether
  * a local file becomes playable) is a parameter of the operation.
  */
module AudioEngine {
  import opened Types
  import opened Validation
  import opened Listeners

  datatype Status = Idle | Loading | Playing | Paused | Error

  /** `AudioEngineState`; `currentTrackIndex` and `queueLength` are declared but never set. */
  datatype EngineState = EngineState(
    status: Status,
    currentMoodId: Option<string>,
    currentSource: Option<AudioSource>,
    availableSources: seq<AudioSource>,
    currentTrackIndex: Option<int>,
    queueLength: Option<int>,
    volume: real,
    error: Option<string>)

  /**
    * `Partial<AudioEngineState>` as the engine passes it to `setState`: each
    * key absent (`None`) or present; an optional key may be present as `undefined`.
    */
  datatype StatePatch = StatePatch(
    status: Option<Status>,
    currentMoodId: Option<Option<string>>,
    currentSource: Option<Option<AudioSource>>,
    availableSources: Option<seq<AudioSource>>,
    volume: Option<real>,
    error: Option<Option<string>>)

  const NoKeys: StatePatch := StatePatch(None, None, None, None, None, None)

  /** `{ status: "error", error: "Source unavailable" }`. */
  const Failed: StatePatch := NoKeys.(status := Some(Error), error := Some(Some(SourceUnavailable)))

  /** What a failed `setMood` merges: no sources, no current source, the error. */
  const Unbound: StatePatch := Failed.(availableSources := Some([]), currentSource := Some(None))

  /** `{ status: "loading", error: undefined }`. */
  const StartLoading: StatePatch := NoKeys.(status := Some(Loading), error := Some(None))

  /** `{ status: "playing", error: undefined }`. */
  const Started: StatePatch := NoKeys.(status := Some(Playing), error := Some(None))

  /** `{ status: "loading", currentMoodId: moodId, error: undefined }`. */
  function MoodLoading(moodId: string): StatePatch {
    NoKeys.(status := Some(Loading), currentMoodId := Some(Some(moodId)), error := Some(None))
  }

  /** `{ currentSource: source, error: undefined, status: "paused" }`. */
  function SourcePicked(source: AudioSource): StatePatch {
    NoKeys.(currentSource := Some(Some(source)), error := Some(None), status := Some(Paused))
  }

  /** The initial record: idle, no sources, volume 0.6. */
  const InitialState: EngineState := EngineState(Idle, None, None, [], None, None, 0.6, None)

  /** `setState`'s `{ ...this.state, ...next }`: the keys of the patch replace, the rest stay. */
  function Merge(s: EngineState, p: StatePatch): (r: EngineState)
    ensures p == NoKeys ==> r == s
    ensures r.currentTrackIndex == s.currentTrackIndex && r.queueLength == s.queueLength
    ensures p.status.None? ==> r.status == s.status
    ensures p.currentMoodId.None? ==> r.currentMoodId == s.currentMoodId
    ensures p.currentSource.None? ==> r.currentSource == s.currentSource
    ensures p.availableSources.None? ==> r.availableSources == s.availableSources
    ensures p.volume.None? ==> r.volume == s.volume
    ensures p.error.None? ==> r.error == s.error
  {
    EngineState(
      Over(s.status, p.status),
      Over(s.currentMoodId, p.currentMoodId),
      Over(s.currentSource, p.currentSource),
      Over(s.availableSources, p.availableSources),
      s.currentTrackIndex,
      s.queueLength,
      Over(s.volume, p.volume),
      Over(s.error, p.error))
  }

  /** Merging the same patch again changes nothing. */
  lemma MergeIdempotent(s: EngineState, p: StatePatch)
    ensures Merge(Merge(s, p), p) == Merge(s, p)
  {
  }

  /** The fields of the audio element the engine reads and writes. */
  datatype AudioElement = AudioElement(src: string, currentTime: real, volume: real, paused: bool)

  /** Everything an operation changes besides the listeners: the record, the element, the target volume, the fade token. */
  datatype Snapshot = Snapshot(state: EngineState, audio: AudioElement, targetVolume: real, fadeToken: nat)

  /** Volumes lie in [0,1] and the queue fields stay unset. */
  predicate Bounded(e: Snapshot) {
    && 0.0 <= e.targetVolume <= 1.0
    && 0.0 <= e.audio.volume <= 1.0
    && 0.0 <= e.state.volume <= 1.0
    && e.state.currentTrackIndex.None? && e.state.queueLength.None?
  }

  // ---------------------------------------------------------------------
  // fadeTo
  // ---------------------------------------------------------------------

  /** `Math.min(1, elapsed / duration)`; a zero duration is complete at the first frame. */
  function Progress(elapsed: real, duration: real): (p: real)
    requires elapsed > 0.0 && duration >= 0.0
    ensures 0.0 < p <= 1.0
    ensures p == 1.0 <==> elapsed >= duration
  {
    if elapsed >= duration then 1.0 else elapsed / duration
  }

  /** `a * p`, kept as a function so that the solver treats the product as one term. */
  function Scale(a: real, p: real): real {
    a * p
  }

  /** `start + (end - start) * progress`. */
  function Lerp(start: real, end: real, progress: real): real {
    start + Scale(end - start, progress)
  }

  /** The volume a tick writes: `clamp01(start + (end - start) * progress)`. */
  function FadeValue(start: real, end: real, progress: real): (v: real)
    ensures 0.0 <= v <= 1.0
  {
    Clamp01(Finite(Lerp(start, end, progress)))
  }

  /** Every volume a fade writes lies between its start and its end; progress 0 writes the start and 1 the end. */
  lemma FadeValueBetween(start: real, end: real, progress: real)
    requires 0.0 <= start <= 1.0 && 0.0 <= end <= 1.0 && 0.0 <= progress <= 1.0
    ensures start <= end ==> start <= FadeValue(start, end, progress) <= end
    ensures end <= start ==> end <= FadeValue(start, end, progress) <= start
    ensures progress == 1.0 ==> FadeValue(start, end, progress) == end
    ensures progress == 0.0 ==> FadeValue(start, end, progress) == start
  {
    if start <= end {
      ScaledWithin(end - start, progress);
    } else {
      ScaledWithin(start - end, progress);
      ScaleNegate(start - end, progress);
      assert end - start == -(start - end);
    }
  }

  /** A fraction of a non-negative amount lies between zero and the amount. */
  lemma ScaledWithin(a: real, p: real)
    requires a >= 0.0 && 0.0 <= p <= 1.0
    ensures 0.0 <= Scale(a, p) <= a
  {
    NonNegativeProduct(a, p);
    NonNegativeProduct(a, 1.0 - p);
    assert a * (1.0 - p) == a - a * p;
  }

  lemma ScaleNegate(a: real, p: real)
    ensures Scale(-a, p) == -Scale(a, p)
  {
  }

  lemma NonNegativeProduct(a: real, b: real)
    requires a >= 0.0 && b >= 0.0
    ensures a * b >= 0.0
  {
  }

  /** The number of frames, one every `frameMs` ms, after which a fade of `duration` ms is complete. */
  function FramesToFinish(duration: real, frameMs: real): (n: nat)
    requires duration >= 0.0 && frameMs > 0.0
    ensures n >= 1 && (n as real) * frameMs >= duration
  {
    var x := duration / frameMs;
    assert x * frameMs == duration;
    assert x >= 0.0;
    var n := x.Floor + 1;
    assert (n as real) > x;
    assert (n as real) * frameMs - x * frameMs == ((n as real) - x) * frameMs > 0.0;
    n
  }

  /** A frame before the fade is complete comes before the last frame. */
  lemma FrameBeforeFinish(k: nat, n: nat, frameMs: real, duration: real)
    requires frameMs > 0.0
    requires (k as real) * frameMs < duration <= (n as real) * frameMs
    ensures k < n
  {
    if k >= n {
      NonNegativeProduct((k - n) as real, frameMs);
    }
  }

  /** `fadeTo(target)` once every frame has run: a new token, and the element at the clamped target. */
  function Fade(e: Snapshot, target: real): (r: Snapshot)
    ensures r.fadeToken > e.fadeToken
    ensures r.state == e.state && r.targetVolume == e.targetVolume
    ensures Bounded(e) ==> Bounded(r)
  {
    e.(fadeToken := e.fadeToken + 1, audio := e.audio.(volume := Clamp01(Finite(target))))
  }

  function Abs(x: real): real {
    if x < 0.0 then -x else x
  }

  // ---------------------------------------------------------------------
  // The operations, as functions of the snapshot before them
  // ---------------------------------------------------------------------

  /** `play()`: an error without a source; else loading, muted, then playing after the fade in, or an error when `audio.play()` rejects. */
  function PlayResult(e: Snapshot, playOk: bool): (r: Snapshot)
    ensures Bounded(e) ==> Bounded(r)
    ensures r.targetVolume == e.targetVolume
  {
    if e.state.currentSource.None? then e.(state := Merge(e.state, Failed))
    else
      var loading := Merge(e.state, StartLoading);
      var muted := e.audio.(volume := 0.0);
      if !playOk then e.(state := Merge(loading, Failed), audio := muted)
      else
        var faded := Fade(e.(audio := muted.(paused := false)), e.targetVolume);
        faded.(state := Merge(loading, Started))
  }

  /** `pause()`: nothing unless playing; else fade out, pause, restore the element's volume, paused. */
  function PauseResult(e: Snapshot): (r: Snapshot)
    ensures Bounded(e) ==> Bounded(r)
    ensures r.targetVolume == e.targetVolume
  {
    if e.state.status != Playing then e
    else
      var f := Fade(e, 0.0);
      f.(audio := f.audio.(paused := true, volume := e.targetVolume),
         state := Merge(e.state, NoKeys.(status := Some(Paused))))
  }

  /** `stop()`: invalidate any fade, pause, rewind, restore the volume, idle. */
  function StopResult(e: Snapshot): (r: Snapshot)
    ensures Bounded(e) ==> Bounded(r)
    ensures r.targetVolume == e.targetVolume
  {
    e.(fadeToken := e.fadeToken + 1,
       audio := e.audio.(paused := true, currentTime := 0.0, volume := e.targetVolume),
       state := Merge(e.state, NoKeys.(status := Some(Idle), error := Some(None))))
  }

  /** `setVolume(value)`. */
  function SetVolumeResult(e: Snapshot, value: JsNumber): (r: Snapshot)
    ensures Bounded(e) ==> Bounded(r)
  {
    var t := Clamp01(value);
    e.(targetVolume := t,
       audio := if e.state.status == Playing then e.audio.(volume := t) else e.audio,
       state := Merge(e.state, NoKeys.(volume := Some(t))))
  }

  /** What `setMood` and `setSource` do first: when playing, fade out and pause. */
  function FadeOut(e: Snapshot): (r: Snapshot)
    ensures Bounded(e) ==> Bounded(r)
    ensures r.state == e.state && r.targetVolume == e.targetVolume
  {
    if e.state.status == Playing then
      var f := Fade(e, 0.0);
      f.(audio := f.audio.(paused := true))
    else e
  }

  /** `bindSource`'s writes: the element's `src` is the source's uri and it is rewound. */
  function Bound(e: Snapshot, source: AudioSource): (r: Snapshot)
    ensures r.audio.src == source.uri && r.audio.currentTime == 0.0
    ensures r.state == e.state && r.audio.volume == e.audio.volume
  {
    e.(audio := e.audio.(src := source.uri, currentTime := 0.0))
  }

  /** `bindSource` completes: only a local source waits, and it can fail to become playable. */
  predicate Ready(source: AudioSource, readyOk: bool) {
    source.kind != Local || readyOk
  }

  /** Streams and embeds are ready at once; only a local file depends on the element becoming playable. */
  lemma ReadyUnlessLocal(source: AudioSource, readyOk: bool)
    ensures source.kind != Local ==> Ready(source, readyOk)
    ensures source.kind == Local ==> (Ready(source, readyOk) <==> readyOk)
  {
  }

  /** `sources.find((s) => s.id === id)`, as the index of the first source with that id. */
  function FindSource(sources: seq<AudioSource>, id: string): (r: Option<nat>)
    ensures r.None? <==> forall k :: 0 <= k < |sources| ==> sources[k].id != id
    ensures r.Some? ==> r.value < |sources| && sources[r.value].id == id
    ensures r.Some? ==> forall j :: 0 <= j < r.value ==> sources[j].id != id
    decreases |sources|
  {
    if sources == [] then None
    else if sources[0].id == id then Some(0)
    else
      var rest := FindSource(sources[1..], id);
      if rest.None? then None else Some(rest.value + 1)
  }

  /** The source `setMood` binds: the one with the current source's id if listed, else the first. */
  function Chosen(current: Option<AudioSource>, sources: seq<AudioSource>): (r: AudioSource)
    requires sources != []
    ensures r in sources
    ensures current.Some? && FindSource(sources, current.value.id).Some? ==> r.id == current.value.id
    ensures current.None? || FindSource(sources, current.value.id).None? ==> r == sources[0]
  {
    if current.Some? && FindSource(sources, current.value.id).Some? then
      sources[FindSource(sources, current.value.id).value]
    else sources[0]
  }

  /** What a successful `setMood` merges. */
  function Adopt(sources: seq<AudioSource>, source: AudioSource): StatePatch {
    NoKeys.(availableSources := Some(sources), currentSource := Some(Some(source)), status := Some(Paused), error := Some(None))
  }

  /** The provider's answer leads to a bound source: a non-empty list whose chosen source becomes ready. */
  predicate Lists(current: Option<AudioSource>, listed: Option<seq<AudioSource>>, readyOk: bool) {
    listed.Some? && listed.value != [] && Ready(Chosen(current, listed.value), readyOk)
  }

  /**
    * `setMood(moodId)` when the provider answers `listed` (`None` when its
    * promise rejects): fade out if playing, loading with the new mood id,
    * then the chosen source bound and paused (and played again if it was
    * playing), or the error with no sources.
    */
  function SetMoodResult(e: Snapshot, moodId: string, listed: Option<seq<AudioSource>>, readyOk: bool, playOk: bool): (r: Snapshot)
    ensures Bounded(e) ==> Bounded(r)
    ensures r.targetVolume == e.targetVolume
  {
    var e1 := FadeOut(e);
    SettleMood(e1.(state := Merge(e1.state, MoodLoading(moodId))), listed, e.state.status == Playing, readyOk, playOk)
  }

  /**
    * What `setMood` does once loading is published: the error with no sources,
    * or the adopted listing bound (and played again when it was playing).
    */
  function SettleMood(e: Snapshot, listed: Option<seq<AudioSource>>, wasPlaying: bool, readyOk: bool, playOk: bool): (r: Snapshot)
    ensures Bounded(e) ==> Bounded(r)
    ensures r.targetVolume == e.targetVolume
  {
    if listed.None? || listed.value == [] then e.(state := Merge(e.state, Unbound))
    else
      var source := Chosen(e.state.currentSource, listed.value);
      var e3 := Bound(e, source);
      if !Ready(source, readyOk) then e3.(state := Merge(Merge(e3.state, Failed), Unbound))
      else
        var e4 := e3.(state := Merge(e3.state, Adopt(listed.value, source)));
        if wasPlaying then PlayResult(e4, playOk) else e4
  }

  /** `setSource(source)`: fade out if playing, bind, then paused on it (and played again if it was playing), or the error. */
  function SetSourceResult(e: Snapshot, source: AudioSource, readyOk: bool, playOk: bool): (r: Snapshot)
    ensures Bounded(e) ==> Bounded(r)
    ensures r.targetVolume == e.targetVolume
  {
    PickResult(FadeOut(e), source, e.state.status == Playing, readyOk, playOk)
  }

  /**
    * The rest of `setSource` once the element has faded out: bind; a failed
    * bind records the error twice (the element's error listener, then the
    * `catch`); otherwise the source is current and paused, and replayed when
    * it was playing.
    */
  function PickResult(e: Snapshot, source: AudioSource, wasPlaying: bool, readyOk: bool, playOk: bool): (r: Snapshot)
    ensures Bounded(e) ==> Bounded(r)
    ensures r.targetVolume == e.targetVolume
  {
    var e1 := Bound(e, source);
    if !Ready(source, readyOk) then e1.(state := Merge(Merge(e1.state, Failed), Failed))
    else
      var e2 := e1.(state := Merge(e1.state, SourcePicked(source)));
      if wasPlaying then PlayResult(e2, playOk) else e2
  }

  /** A string is truthy when it is present and not empty. */
  predicate Truthy(s: Option<string>) {
    s.Some? && s.value != ""
  }

  /** `retry()`: the error with nothing to retry; else `setSource` on the current source, or `setMood` on the current mood, then `play`. */
  function RetryResult(e: Snapshot, listed: Option<seq<AudioSource>>, readyOk: bool, playOk: bool): (r: Snapshot)
    ensures Bounded(e) ==> Bounded(r)
  {
    if e.state.currentSource.None? && !Truthy(e.state.currentMoodId) then e.(state := Merge(e.state, Failed))
    else if e.state.currentSource.Some? then
      PlayResult(SetSourceResult(e, e.state.currentSource.value, readyOk, playOk), playOk)
    else
      PlayResult(SetMoodResult(e, e.state.currentMoodId.value, listed, readyOk, playOk), playOk)
  }

  // ---------------------------------------------------------------------
  // The records the operations push, in order
  // ---------------------------------------------------------------------

  /** `play()` pushes the error alone without a source; else loading, then playing or the error. */
  function PlayPushes(s: EngineState, playOk: bool): (r: seq<EngineState>)
    ensures r != []
  {
    if s.currentSource.None? then [Merge(s, Failed)]
    else
      var loading := Merge(s, StartLoading);
      [loading, Merge(loading, if playOk then Started else Failed)]
  }

  /**
    * `setMood(moodId)` pushes loading with the new mood id, then the adopted
    * listing (followed by what `play()` pushes when it was playing), or the
    * error with no sources.
    */
  function SetMoodPushes(e: Snapshot, moodId: string, listed: Option<seq<AudioSource>>, readyOk: bool, playOk: bool): (r: seq<EngineState>)
    ensures |r| >= 2
  {
    var loading := Merge(e.state, MoodLoading(moodId));
    [loading] + SettleMoodPushes(loading, listed, e.state.status == Playing, readyOk, playOk)
  }

  /** What `setMood` pushes once loading is published: the error, or the adopted listing (and what `play()` pushes). */
  function SettleMoodPushes(s: EngineState, listed: Option<seq<AudioSource>>, wasPlaying: bool, readyOk: bool, playOk: bool): (r: seq<EngineState>)
    ensures r != []
  {
    if listed.None? || listed.value == [] then [Merge(s, Unbound)]
    else
      var source := Chosen(s.currentSource, listed.value);
      if !Ready(source, readyOk) then [Merge(s, Failed), Merge(Merge(s, Failed), Unbound)]
      else
        var adopted := Merge(s, Adopt(listed.value, source));
        [adopted] + (if wasPlaying then PlayPushes(adopted, playOk) else [])
  }

  /** `setSource(source)` pushes the error, or the picked source (followed by what `play()` pushes when it was playing). */
  function SetSourcePushes(s: EngineState, source: AudioSource, readyOk: bool, playOk: bool): (r: seq<EngineState>)
    ensures r != []
  {
    PickPushes(s, source, s.status == Playing, readyOk, playOk)
  }

  /** The records `PickResult`'s steps push. */
  function PickPushes(s: EngineState, source: AudioSource, wasPlaying: bool, readyOk: bool, playOk: bool): (r: seq<EngineState>)
    ensures r != []
  {
    if !Ready(source, readyOk) then [Merge(s, Failed), Merge(Merge(s, Failed), Failed)]
    else
      var picked := Merge(s, SourcePicked(source));
      [picked] + (if wasPlaying then PlayPushes(picked, playOk) else [])
  }

  /** `retry()` pushes the error alone with nothing to retry; else what `setSource` or `setMood` pushes, then what `play()` pushes. */
  function RetryPushes(e: Snapshot, listed: Option<seq<AudioSource>>, readyOk: bool, playOk: bool): (r: seq<EngineState>)
    ensures r != []
  {
    if e.state.currentSource.None? && !Truthy(e.state.currentMoodId) then [Merge(e.state, Failed)]
    else if e.state.currentSource.Some? then
      var source := e.state.currentSource.value;
      SetSourcePushes(e.state, source, readyOk, playOk)
        + PlayPushes(SetSourceResult(e, source, readyOk, playOk).state, playOk)
    else
      var moodId := e.state.currentMoodId.value;
      SetMoodPushes(e, moodId, listed, readyOk, playOk)
        + PlayPushes(SetMoodResult(e, moodId, listed, readyOk, playOk).state, playOk)
  }

  /** `play` with a source first pushes loading without an error, and its last push is playing exactly when `audio.play()` resolves. */
  lemma PlayPushesLoadingFirst(s: EngineState, playOk: bool)
    requires s.currentSource.Some?
    ensures var r := PlayPushes(s, playOk);
      && |r| == 2
      && r[0] == s.(status := Loading, error := None)
      && (r[1].status == Playing <==> playOk)
      && (playOk ==> r[1].error.None?)
      && (!playOk ==> r[1].error == Some(SourceUnavailable))
  {
  }

  /** `setMood` first pushes loading with the new mood id and no error, keeping the previous source until the listing is adopted. */
  lemma SetMoodPushesLoadingFirst(e: Snapshot, moodId: string, listed: Option<seq<AudioSource>>, readyOk: bool, playOk: bool)
    ensures SetMoodPushes(e, moodId, listed, readyOk, playOk)[0]
      == e.state.(status := Loading, currentMoodId := Some(moodId), error := None)
  {
  }

  /**
    * Whatever the operation, the last record it pushes is the record it ends
    * with, so a listener's last call always shows the engine's state.
    */
  lemma {:induction false} LastPushIsResult(e: Snapshot, moodId: string, source: AudioSource,
                                            listed: Option<seq<AudioSource>>, readyOk: bool, playOk: bool)
    ensures var r := PlayPushes(e.state, playOk); r[|r| - 1] == PlayResult(e, playOk).state
    ensures var r := SetSourcePushes(e.state, source, readyOk, playOk); r[|r| - 1] == SetSourceResult(e, source, readyOk, playOk).state
    ensures var r := SetMoodPushes(e, moodId, listed, readyOk, playOk); r[|r| - 1] == SetMoodResult(e, moodId, listed, readyOk, playOk).state
    ensures var r := RetryPushes(e, listed, readyOk, playOk); r[|r| - 1] == RetryResult(e, listed, readyOk, playOk).state
  {
    LastPlayPush(e, playOk);
    LastSetSourcePush(e, source, readyOk, playOk);
    LastSetMoodPush(e, moodId, listed, readyOk, playOk);
    if e.state.currentSource.None? && !Truthy(e.state.currentMoodId) {
    } else if e.state.currentSource.Some? {
      var src := e.state.currentSource.value;
      var mid := SetSourceResult(e, src, readyOk, playOk);
      LastPlayPush(mid, playOk);
      LastOfAppend(SetSourcePushes(e.state, src, readyOk, playOk), PlayPushes(mid.state, playOk));
    } else {
      var mid := SetMoodResult(e, e.state.currentMoodId.value, listed, readyOk, playOk);
      LastPlayPush(mid, playOk);
      LastOfAppend(SetMoodPushes(e, e.state.currentMoodId.value, listed, readyOk, playOk), PlayPushes(mid.state, playOk));
    }
  }

  lemma LastOfAppend<T>(a: seq<T>, b: seq<T>)
    requires b != []
    ensures (a + b)[|a + b| - 1] == b[|b| - 1]
  {
  }

  lemma LastPlayPush(e: Snapshot, playOk: bool)
    ensures var r := PlayPushes(e.state, playOk); r[|r| - 1] == PlayResult(e, playOk).state
  {
  }

  lemma LastSetSourcePush(e: Snapshot, source: AudioSource, readyOk: bool, playOk: bool)
    ensures var r := SetSourcePushes(e.state, source, readyOk, playOk); r[|r| - 1] == SetSourceResult(e, source, readyOk, playOk).state
  {
    if Ready(source, readyOk) && e.state.status == Playing {
      var e2 := Bound(FadeOut(e), source).(state := Merge(e.state, SourcePicked(source)));
      LastPlayPush(e2, playOk);
      LastOfAppend([Merge(e.state, SourcePicked(source))], PlayPushes(e2.state, playOk));
    }
  }

  lemma LastSetMoodPush(e: Snapshot, moodId: string, listed: Option<seq<AudioSource>>, readyOk: bool, playOk: bool)
    ensures var r := SetMoodPushes(e, moodId, listed, readyOk, playOk); r[|r| - 1] == SetMoodResult(e, moodId, listed, readyOk, playOk).state
  {
    var loading := Merge(e.state, MoodLoading(moodId));
    if listed.Some? && listed.value != [] {
      var source := Chosen(loading.currentSource, listed.value);
      if Ready(source, readyOk) && e.state.status == Playing {
        var adopted := Merge(loading, Adopt(listed.value, source));
        var e4 := Bound(FadeOut(e).(state := loading), source).(state := adopted);
        LastPlayPush(e4, playOk);
        LastOfAppend([loading, adopted], PlayPushes(adopted, playOk));
      }
    }
  }

  // ---------------------------------------------------------------------
  // What the operations promise
  // ---------------------------------------------------------------------

  /** `setVolume` stores the clamped value as target and in the record, whatever the status; the element follows only while playing. */
  lemma SetVolumeClamps(e: Snapshot, value: JsNumber)
    ensures var r := SetVolumeResult(e, value);
      && r.targetVolume == Clamp01(value) && 0.0 <= r.targetVolume <= 1.0
      && r.state == e.state.(volume := Clamp01(value))
      && (e.state.status == Playing ==> r.audio == e.audio.(volume := Clamp01(value)))
      && (e.state.status != Playing ==> r.audio == e.audio)
      && r.fadeToken == e.fadeToken
  {
  }

  /** `play` without a source records the error and touches nothing else. */
  lemma PlayWithoutSource(e: Snapshot, playOk: bool)
    requires e.state.currentSource.None?
    ensures PlayResult(e, playOk) == e.(state := e.state.(status := Error, error := Some(SourceUnavailable)))
  {
  }

  /** `play` with a source ends playing at the target volume, or in the error with the element muted; it never fails otherwise. */
  lemma PlayWithSource(e: Snapshot, playOk: bool)
    requires e.state.currentSource.Some? && 0.0 <= e.targetVolume <= 1.0
    ensures var r := PlayResult(e, playOk);
      && (playOk ==> r.state == e.state.(status := Playing, error := None)
                     && r.audio == e.audio.(volume := e.targetVolume, paused := false)
                     && r.fadeToken == e.fadeToken + 1)
      && (!playOk ==> r.state == e.state.(status := Error, error := Some(SourceUnavailable))
                      && r.audio == e.audio.(volume := 0.0)
                      && r.fadeToken == e.fadeToken)
  {
  }

  /** `pause` is a no-op unless playing; then the element is paused at the target volume and the status is paused. */
  lemma PauseOnlyWhenPlaying(e: Snapshot)
    requires 0.0 <= e.targetVolume <= 1.0
    ensures e.state.status != Playing ==> PauseResult(e) == e
    ensures e.state.status == Playing ==>
      var r := PauseResult(e);
      && r.state == e.state.(status := Paused)
      && r.audio == e.audio.(paused := true, volume := e.targetVolume)
      && r.fadeToken > e.fadeToken
  {
  }

  /** `stop` invalidates any running fade, rewinds, restores the volume and goes idle without an error. */
  lemma StopRewinds(e: Snapshot)
    ensures var r := StopResult(e);
      && r.fadeToken > e.fadeToken
      && r.audio == e.audio.(paused := true, currentTime := 0.0, volume := e.targetVolume)
      && r.state == e.state.(status := Idle, error := None)
  {
  }

  /**
    * `setMood` whose source cannot be bound (the provider rejects, lists
    * nothing, or the chosen local file fails) ends in the error with no
    * sources, but keeps the new mood id.
    */
  lemma SetMoodFails(e: Snapshot, moodId: string, listed: Option<seq<AudioSource>>, readyOk: bool, playOk: bool)
    requires !Lists(e.state.currentSource, listed, readyOk)
    ensures SetMoodResult(e, moodId, listed, readyOk, playOk).state
      == e.state.(status := Error, currentMoodId := Some(moodId), currentSource := None,
                  availableSources := [], error := Some(SourceUnavailable))
  {
  }

  /** The provider's empty list (or rejection) leaves the element's source as it was. */
  lemma SetMoodWithoutSourcesKeepsElement(e: Snapshot, moodId: string, listed: Option<seq<AudioSource>>, readyOk: bool, playOk: bool)
    requires listed.None? || listed.value == []
    ensures SetMoodResult(e, moodId, listed, readyOk, playOk).audio.src == e.audio.src
  {
  }

  /**
    * `setMood` that binds: the listed sources become available, the chosen
    * source (the current one's id if listed, else the first) is current and
    * loaded into the element; the engine is paused, or playing again when it
    * was playing and `play()` resolves.
    */
  lemma SetMoodBinds(e: Snapshot, moodId: string, listed: Option<seq<AudioSource>>, readyOk: bool, playOk: bool)
    requires Lists(e.state.currentSource, listed, readyOk)
    requires 0.0 <= e.targetVolume <= 1.0
    ensures var r := SetMoodResult(e, moodId, listed, readyOk, playOk);
      var source := Chosen(e.state.currentSource, listed.value);
      && r.state.currentMoodId == Some(moodId)
      && r.state.availableSources == listed.value
      && r.state.currentSource == Some(source)
      && r.audio.src == source.uri
      && r.state.volume == e.state.volume
      && (e.state.status != Playing ==> r.state.status == Paused && r.state.error.None?)
      && (e.state.status == Playing ==> (r.state.status == Playing <==> playOk))
  {
  }

  /** `setSource` never changes the available sources; on failure the current source also stays. */
  lemma SetSourceKeepsAvailable(e: Snapshot, source: AudioSource, readyOk: bool, playOk: bool)
    ensures var r := SetSourceResult(e, source, readyOk, playOk);
      && r.state.availableSources == e.state.availableSources
      && r.state.currentMoodId == e.state.currentMoodId
      && r.audio.src == source.uri
      && (Ready(source, readyOk) ==> r.state.currentSource == Some(source))
      && (!Ready(source, readyOk) ==> r.state.currentSource == e.state.currentSource
                                      && r.state.status == Error && r.state.error == Some(SourceUnavailable))
  {
  }

  /**
    * A local source that does not become ready is reported first by the
    * element's error listener and then by the failing call: `setSource`
    * publishes the error twice.
    */
  lemma FailedSourceReportedTwice(s: EngineState, source: AudioSource, readyOk: bool, playOk: bool)
    requires !Ready(source, readyOk)
    ensures SetSourcePushes(s, source, readyOk, playOk) == [Merge(s, Failed), Merge(s, Failed)]
    ensures Merge(s, Failed).status == Error && Merge(s, Failed).error == Some(SourceUnavailable)
    ensures Merge(s, Failed).availableSources == s.availableSources
  {
    MergeIdempotent(s, Failed);
  }

  /**
    * In `setMood`, a chosen local source that does not become ready shows the
    * error with the listing still in place before the listing is emptied.
    */
  lemma FailedMoodSourceReportedFirst(e: Snapshot, moodId: string, listed: Option<seq<AudioSource>>, readyOk: bool, playOk: bool)
    requires listed.Some? && listed.value != [] && !Lists(e.state.currentSource, listed, readyOk)
    ensures var r := SetMoodPushes(e, moodId, listed, readyOk, playOk);
      && |r| == 3
      && r[1].status == Error && r[1].error == Some(SourceUnavailable)
      && r[1].currentMoodId == Some(moodId) && r[1].availableSources == e.state.availableSources
      && r[2].status == Error && r[2].availableSources == [] && r[2].currentSource == None
  {
  }

  /** `retry` with neither a source nor a (non-empty) mood id records the error and nothing else. */
  lemma RetryWithoutTarget(e: Snapshot, listed: Option<seq<AudioSource>>, readyOk: bool, playOk: bool)
    requires e.state.currentSource.None? && !Truthy(e.state.currentMoodId)
    ensures RetryResult(e, listed, readyOk, playOk) == e.(state := e.state.(status := Error, error := Some(SourceUnavailable)))
  {
  }

  /**
    * `retry` with a current source keeps that source and ends playing exactly
    * when `play()` resolves, even when the source failed to become playable:
    * the failed `setSource` keeps the source, and `play` runs after it anyway.
    */
  lemma RetryWithSource(e: Snapshot, listed: Option<seq<AudioSource>>, readyOk: bool, playOk: bool)
    requires e.state.currentSource.Some? && 0.0 <= e.targetVolume <= 1.0
    ensures var r := RetryResult(e, listed, readyOk, playOk);
      && r.state.currentSource == e.state.currentSource
      && (r.state.status == Playing <==> playOk)
      && (!playOk ==> r.state.error == Some(SourceUnavailable))
  {
    var s := e.state.currentSource.value;
    var mid := SetSourceResult(e, s, readyOk, playOk);
    assert mid.state.currentSource == Some(s);
    PlayWithSource(mid, playOk);
  }

  /**
    * `retry` with only a mood id runs `setMood` on it and then `play`: it
    * ends playing exactly when the mood's source binds and `play()` resolves.
    */
  lemma RetryWithMood(e: Snapshot, listed: Option<seq<AudioSource>>, readyOk: bool, playOk: bool)
    requires e.state.currentSource.None? && Truthy(e.state.currentMoodId)
    requires 0.0 <= e.targetVolume <= 1.0
    ensures var r := RetryResult(e, listed, readyOk, playOk);
      && r.state.currentMoodId == e.state.currentMoodId
      && (r.state.status == Playing <==> Lists(None, listed, readyOk) && playOk)
  {
    var moodId := e.state.currentMoodId.value;
    var mid := SetMoodResult(e, moodId, listed, readyOk, playOk);
    if Lists(None, listed, readyOk) {
      SetMoodBinds(e, moodId, listed, readyOk, playOk);
      PlayWithSource(mid, playOk);
    } else {
      SetMoodFails(e, moodId, listed, readyOk, playOk);
      PlayWithoutSource(mid, playOk);
    }
  }

  // ---------------------------------------------------------------------
  // Listeners
  // ---------------------------------------------------------------------

  /** One call of a listener with a state record. */
  datatype Delivery = Delivery(listener: ListenerId, state: EngineState)

  /** The calls `setState` makes: each listener in subscription order, with the new record. */
  function Notify(listeners: seq<ListenerId>, s: EngineState): (r: seq<Delivery>)
    ensures |r| == |listeners|
    ensures forall i :: 0 <= i < |r| ==> r[i] == Delivery(listeners[i], s)
  {
    seq(|listeners|, i requires 0 <= i < |listeners| => Delivery(listeners[i], s))
  }

  /** The calls a run of `setState`s makes: each record in turn, to every listener. */
  function Broadcast(listeners: seq<ListenerId>, states: seq<EngineState>): (r: seq<Delivery>)
    ensures states == [] ==> r == []
    decreases |states|
  {
    if states == [] then [] else Notify(listeners, states[0]) + Broadcast(listeners, states[1..])
  }

  /** Broadcasting two runs one after the other is broadcasting the joined run. */
  lemma {:induction false} BroadcastAppend(listeners: seq<ListenerId>, a: seq<EngineState>, b: seq<EngineState>)
    ensures Broadcast(listeners, a + b) == Broadcast(listeners, a) + Broadcast(listeners, b)
    decreases |a|
  {
    if a != [] {
      assert (a + b)[0] == a[0];
      assert (a + b)[1..] == a[1..] + b;
      BroadcastAppend(listeners, a[1..], b);
    } else {
      assert a + b == b;
    }
  }

  lemma JoinAssoc(d: seq<Delivery>, x: seq<Delivery>, y: seq<Delivery>)
    ensures d + x + y == d + (x + y)
  {
  }

  /** One more `setState` adds its calls at the end. */
  lemma BroadcastSnoc(listeners: seq<ListenerId>, a: seq<EngineState>, s: EngineState)
    ensures Broadcast(listeners, a + [s]) == Broadcast(listeners, a) + Notify(listeners, s)
  {
    BroadcastAppend(listeners, a, [s]);
    assert [s][1..] == [];
  }

  lemma BroadcastOne(listeners: seq<ListenerId>, s: EngineState)
    ensures Broadcast(listeners, [s]) == Notify(listeners, s)
  {
    assert [s][1..] == [];
  }

  lemma BroadcastPair(listeners: seq<ListenerId>, s: EngineState, t: EngineState)
    ensures Broadcast(listeners, [s, t]) == Notify(listeners, s) + Notify(listeners, t)
  {
    assert [s, t][1..] == [t];
    BroadcastOne(listeners, t);
  }

  /** The record a listener was last called with, if it was called at all. */
  function LastDelivery(ds: seq<Delivery>, l: ListenerId): Option<EngineState>
    decreases |ds|
  {
    if ds == [] then None
    else if ds[|ds| - 1].listener == l then Some(ds[|ds| - 1].state)
    else LastDelivery(ds[..|ds| - 1], l)
  }

  /** Every listener in `listeners` was last called with `s`. */
  ghost predicate AllSawLast(ds: seq<Delivery>, listeners: seq<ListenerId>, s: EngineState) {
    forall l :: l in listeners ==> LastDelivery(ds, l) == Some(s)
  }

  lemma LastDeliverySnoc(ds: seq<Delivery>, d: Delivery, l: ListenerId)
    ensures LastDelivery(ds + [d], l) == if d.listener == l then Some(d.state) else LastDelivery(ds, l)
  {
    assert (ds + [d])[..|ds|] == ds;
  }

  /** After a notification, each listener notified was last called with the new record; the others are untouched. */
  lemma {:induction false} LastDeliveryNotify(ds: seq<Delivery>, listeners: seq<ListenerId>, s: EngineState, l: ListenerId)
    ensures l in listeners ==> LastDelivery(ds + Notify(listeners, s), l) == Some(s)
    ensures l !in listeners ==> LastDelivery(ds + Notify(listeners, s), l) == LastDelivery(ds, l)
    decreases |listeners|
  {
    if listeners != [] {
      var n := |listeners| - 1;
      var front := listeners[..n];
      LastDeliveryNotify(ds, front, s, l);
      assert Notify(listeners, s) == Notify(front, s) + [Delivery(listeners[n], s)];
      assert ds + Notify(listeners, s) == (ds + Notify(front, s)) + [Delivery(listeners[n], s)];
      LastDeliverySnoc(ds + Notify(front, s), Delivery(listeners[n], s), l);
      assert listeners == front + [listeners[n]];
      assert l in listeners <==> l in front || l == listeners[n];
    } else {
      assert ds + Notify(listeners, s) == ds;
    }
  }

  // ---------------------------------------------------------------------
  // The engine
  // ---------------------------------------------------------------------

  class AudioEngine {
    /** The source provider: the sources of a mood, or `None` when its promise rejects. */
    const provider: string -> Option<seq<AudioSource>>
    const fadeDurationMs: real
    /** The time between two animation frames. */
    const frameMs: real

    var state: EngineState
    var audio: AudioElement
    var targetVolume: real
    var fadeToken: nat
    /** The listener set, in insertion order. */
    var listeners: seq<ListenerId>
    /** Every call made to a listener, in order. */
    var deliveries: seq<Delivery>

    function Snap(): Snapshot
      reads this
    {
      Snapshot(state, audio, targetVolume, fadeToken)
    }

    /** Every listener was last called with the current record; volumes in range. */
    ghost predicate Valid()
      reads this
    {
      && Distinct(listeners)
      && AllSawLast(deliveries, listeners, state)
      && Bounded(Snap())
      && fadeDurationMs >= 0.0 && frameMs > 0.0
    }

    /** The record starts at volume 0.6 whatever `initialVolume` is; only the target and the element take it. */
    constructor(provider: string -> Option<seq<AudioSource>>, initialVolume: JsNumber, fadeDurationMs: real, frameMs: real)
      requires fadeDurationMs >= 0.0 && frameMs > 0.0
      ensures Valid()
      ensures this.provider == provider && this.fadeDurationMs == fadeDurationMs && this.frameMs == frameMs
      ensures state == InitialState && state.volume == 0.6
      ensures targetVolume == Clamp01(initialVolume)
      ensures audio == AudioElement("", 0.0, Clamp01(initialVolume), true)
      ensures fadeToken == 0 && listeners == [] && deliveries == []
    {
      this.provider := provider;
      this.fadeDurationMs := fadeDurationMs;
      this.frameMs := frameMs;
      state := InitialState;
      targetVolume := Clamp01(initialVolume);
      audio := AudioElement("", 0.0, Clamp01(initialVolume), true);
      fadeToken := 0;
      listeners := [];
      deliveries := [];
    }

    /** `subscribe(listener)`: add it (once) and call it at once with the current record. */
    method Subscribe(l: ListenerId)
      requires Valid()
      modifies this
      ensures Valid()
      ensures listeners == Added(old(listeners), l)
      ensures deliveries == old(deliveries) + [Delivery(l, state)]
      ensures Snap() == old(Snap())
    {
      listeners := Added(listeners, l);
      forall x | x in listeners ensures LastDelivery(deliveries + [Delivery(l, state)], x) == Some(state) {
        LastDeliverySnoc(deliveries, Delivery(l, state), x);
      }
      deliveries := deliveries + [Delivery(l, state)];
    }

    /** The handle `subscribe` returns: remove that listener only; a second call does nothing. */
    method Unsubscribe(l: ListenerId)
      requires Valid()
      modifies this
      ensures Valid()
      ensures listeners == Unlisted(old(listeners), l)
      ensures l !in listeners
      ensures deliveries == old(deliveries) && Snap() == old(Snap())
    {
      UnlistedDistinct(listeners, l);
      listeners := Unlisted(listeners, l);
    }

    /** `getState`. */
    function GetState(): (s: EngineState)
      reads this
      ensures s == Snap().state
    {
      state
    }

    /** `setState(next)`: merge, then call every listener with the new record. */
    method SetState(p: StatePatch)
      requires Valid()
      requires p.volume.Some? ==> 0.0 <= p.volume.value <= 1.0
      modifies this
      ensures Valid()
      ensures state == Merge(old(state), p)
      ensures deliveries == old(deliveries) + Notify(listeners, state)
      ensures audio == old(audio) && targetVolume == old(targetVolume) && fadeToken == old(fadeToken)
      ensures listeners == old(listeners)
    {
      state := Merge(state, p);
      forall x | x in listeners ensures LastDelivery(deliveries + Notify(listeners, state), x) == Some(state) {
        LastDeliveryNotify(deliveries, listeners, state, x);
      }
      deliveries := deliveries + Notify(listeners, state);
    }

    /**
      * One animation frame of the fade started with `token`, the `k`-th since
      * it started: a stale token writes nothing and ends the fade; otherwise
      * the interpolated volume is written, and the fade ends at full progress.
      */
    method FadeTick(token: nat, start: real, end: real, k: nat) returns (done: bool)
      requires Valid() && 0.0 <= start <= 1.0 && 0.0 <= end <= 1.0 && k >= 1
      modifies this
      ensures Valid() && listeners == old(listeners) && deliveries == old(deliveries)
      ensures token != fadeToken ==> done && Snap() == old(Snap())
      ensures token == fadeToken ==>
        var progress := Progress((k as real) * frameMs, fadeDurationMs);
        && Snap() == old(Snap()).(audio := old(audio).(volume := FadeValue(start, end, progress)))
        && (done <==> progress == 1.0)
    {
      if token != fadeToken {
        return true;
      }
      assert (k as real) * frameMs >= frameMs > 0.0;
      var progress := Progress((k as real) * frameMs, fadeDurationMs);
      audio := audio.(volume := FadeValue(start, end, progress));
      done := progress >= 1.0;
    }

    /**
      * `fadeTo(target)`: take a new token, then run frames until the fade is
      * complete (at once when the volume is already within 0.001 of the
      * clamped target); the element ends at the clamped target.
      */
    method FadeTo(target: real)
      requires Valid()
      modifies this
      ensures Valid() && listeners == old(listeners) && deliveries == old(deliveries)
      ensures Snap() == Fade(old(Snap()), target)
    {
      fadeToken := fadeToken + 1;
      var token := fadeToken;
      var start := audio.volume;
      var end := Clamp01(Finite(target));
      if Abs(start - end) < 0.001 {
        audio := audio.(volume := end);
        return;
      }
      var n := FramesToFinish(fadeDurationMs, frameMs);
      var k: nat := 1;
      var done := FadeTick(token, start, end, k);
      FadeValueBetween(start, end, 1.0);
      while !done
        invariant Valid() && 1 <= k <= n && fadeToken == token
        invariant listeners == old(listeners) && deliveries == old(deliveries)
        invariant state == old(state) && targetVolume == old(targetVolume)
        invariant audio == old(audio).(volume := audio.volume)
        invariant done ==> audio.volume == end
        invariant !done ==> (k as real) * frameMs < fadeDurationMs
        decreases n - k
      {
        FrameBeforeFinish(k, n, frameMs, fadeDurationMs);
        k := k + 1;
        done := FadeTick(token, start, end, k);
      }
    }

    /** `play()`. */
    method Play(playOk: bool)
      requires Valid()
      modifies this
      ensures Valid() && listeners == old(listeners)
      ensures Snap() == PlayResult(old(Snap()), playOk)
      ensures deliveries == old(deliveries) + Broadcast(listeners, PlayPushes(old(state), playOk))
    {
      if state.currentSource.None? {
        SetState(Failed);
        BroadcastOne(listeners, state);
        return;
      }
      ghost var e0, d0 := Snap(), deliveries;
      SetState(StartLoading);
      ghost var loading := state;
      audio := audio.(volume := 0.0);
      if !playOk {
        SetState(Failed);
        BroadcastPair(listeners, loading, state);
        JoinAssoc(d0, Notify(listeners, loading), Notify(listeners, state));
        return;
      }
      audio := audio.(paused := false);
      ghost var unmuted := Snap();
      assert unmuted == e0.(state := loading, audio := e0.audio.(volume := 0.0, paused := false));
      FadeTo(targetVolume);
      ghost var faded := Snap();
      SetState(Started);
      assert Snap() == faded.(state := Merge(loading, Started));
      BroadcastPair(listeners, loading, state);
      JoinAssoc(d0, Notify(listeners, loading), Notify(listeners, state));
    }

    /** `pause()`. */
    method Pause()
      requires Valid()
      modifies this
      ensures Valid() && listeners == old(listeners)
      ensures Snap() == PauseResult(old(Snap()))
      ensures old(state).status == Playing ==> deliveries == old(deliveries) + Notify(listeners, state)
      ensures old(state).status != Playing ==> deliveries == old(deliveries)
    {
      if state.status != Playing {
        return;
      }
      FadeTo(0.0);
      audio := audio.(paused := true);
      audio := audio.(volume := targetVolume);
      SetState(NoKeys.(status := Some(Paused)));
    }

    /** `stop()`. */
    method Stop()
      requires Valid()
      modifies this
      ensures Valid() && listeners == old(listeners)
      ensures Snap() == StopResult(old(Snap()))
      ensures deliveries == old(deliveries) + Notify(listeners, state)
    {
      fadeToken := fadeToken + 1;
      audio := audio.(paused := true);
      audio := audio.(currentTime := 0.0);
      audio := audio.(volume := targetVolume);
      SetState(NoKeys.(status := Some(Idle), error := Some(None)));
    }

    /** `setVolume(value)`. */
    method SetVolume(value: JsNumber)
      requires Valid()
      modifies this
      ensures Valid() && listeners == old(listeners)
      ensures Snap() == SetVolumeResult(old(Snap()), value)
      ensures deliveries == old(deliveries) + Notify(listeners, state)
    {
      targetVolume := Clamp01(value);
      if state.status == Playing {
        audio := audio.(volume := targetVolume);
      }
      SetState(NoKeys.(volume := Some(targetVolume)));
    }

    /**
      * `bindSource(source, false)`: load the uri, rewind, and for a local file
      * wait until it can play. A local file that fails raises the element's
      * `error` event, whose listener registered by the constructor runs first
      * and records (and pushes) the error before the wait rejects.
      */
    method BindSource(source: AudioSource, readyOk: bool) returns (ok: bool)
      requires Valid()
      modifies this
      ensures Valid() && listeners == old(listeners)
      ensures ok == Ready(source, readyOk)
      ensures ok ==> Snap() == Bound(old(Snap()), source) && deliveries == old(deliveries)
      ensures !ok ==> Snap() == Bound(old(Snap()), source).(state := Merge(old(state), Failed))
      ensures !ok ==> deliveries == old(deliveries) + Notify(listeners, Merge(old(state), Failed))
    {
      audio := audio.(src := source.uri);
      audio := audio.(currentTime := 0.0);
      ok := source.kind != Local || readyOk;
      if !ok {
        SetState(Failed);
      }
    }

    /** `setMood(moodId)`. */
    method SetMood(moodId: string, readyOk: bool, playOk: bool)
      requires Valid()
      modifies this
      ensures Valid() && listeners == old(listeners)
      ensures Snap() == SetMoodResult(old(Snap()), moodId, provider(moodId), readyOk, playOk)
      ensures deliveries == old(deliveries) + Broadcast(listeners, SetMoodPushes(old(Snap()), moodId, provider(moodId), readyOk, playOk))
    {
      var wasPlaying := state.status == Playing;
      if wasPlaying {
        FadeTo(0.0);
        audio := audio.(paused := true);
      }
      ghost var d0 := deliveries;
      SetState(MoodLoading(moodId));
      ghost var loading := state;
      BroadcastOne(listeners, loading);
      Settle(provider(moodId), wasPlaying, readyOk, playOk);
      ghost var settled := SettleMoodPushes(loading, provider(moodId), wasPlaying, readyOk, playOk);
      BroadcastAppend(listeners, [loading], settled);
      JoinAssoc(d0, Broadcast(listeners, [loading]), Broadcast(listeners, settled));
    }

    /** The rest of `setMood(moodId)` once loading is published, given what the provider listed. */
    method Settle(listed: Option<seq<AudioSource>>, wasPlaying: bool, readyOk: bool, playOk: bool)
      requires Valid()
      modifies this
      ensures Valid() && listeners == old(listeners)
      ensures Snap() == SettleMood(old(Snap()), listed, wasPlaying, readyOk, playOk)
      ensures deliveries == old(deliveries) + Broadcast(listeners, SettleMoodPushes(old(state), listed, wasPlaying, readyOk, playOk))
    {
      if listed.None? || listed.value == [] {
        SetState(Unbound);
        BroadcastOne(listeners, state);
        return;
      }
      var source := Chosen(state.currentSource, listed.value);
      ghost var d0 := deliveries;
      var ok := BindSource(source, readyOk);
      if !ok {
        ghost var failed := state;
        SetState(Unbound);
        BroadcastPair(listeners, failed, state);
        JoinAssoc(d0, Notify(listeners, failed), Notify(listeners, state));
        return;
      }
      SetState(Adopt(listed.value, source));
      ghost var adopted := state;
      BroadcastOne(listeners, adopted);
      if wasPlaying {
        Play(playOk);
        BroadcastAppend(listeners, [adopted], PlayPushes(adopted, playOk));
        JoinAssoc(d0, Broadcast(listeners, [adopted]), Broadcast(listeners, PlayPushes(adopted, playOk)));
      }
    }

    /** `setSource(source)`. */
    method SetSource(source: AudioSource, readyOk: bool, playOk: bool)
      requires Valid()
      modifies this
      ensures Valid() && listeners == old(listeners)
      ensures Snap() == SetSourceResult(old(Snap()), source, readyOk, playOk)
      ensures deliveries == old(deliveries) + Broadcast(listeners, SetSourcePushes(old(state), source, readyOk, playOk))
    {
      var wasPlaying := state.status == Playing;
      if wasPlaying {
        FadeTo(0.0);
        audio := audio.(paused := true);
      }
      PickSource(source, wasPlaying, readyOk, playOk);
    }

    /** The rest of `setSource(source)` once the element has faded out. */
    method PickSource(source: AudioSource, wasPlaying: bool, readyOk: bool, playOk: bool)
      requires Valid()
      modifies this
      ensures Valid() && listeners == old(listeners)
      ensures Snap() == PickResult(old(Snap()), source, wasPlaying, readyOk, playOk)
      ensures deliveries == old(deliveries) + Broadcast(listeners, PickPushes(old(state), source, wasPlaying, readyOk, playOk))
    {
      ghost var d0 := deliveries;
      var ok := BindSource(source, readyOk);
      if !ok {
        ghost var failed := state;
        SetState(Failed);
        BroadcastPair(listeners, failed, state);
        JoinAssoc(d0, Notify(listeners, failed), Notify(listeners, state));
        return;
      }
      SetState(SourcePicked(source));
      BroadcastOne(listeners, state);
      if wasPlaying {
        ghost var picked := state;
        Play(playOk);
        BroadcastAppend(listeners, [picked], PlayPushes(picked, playOk));
        JoinAssoc(d0, Broadcast(listeners, [picked]), Broadcast(listeners, PlayPushes(picked, playOk)));
      }
    }

    /** What the provider lists for the current mood, if there is one. */
    function ListingFor(moodId: Option<string>): Option<seq<AudioSource>> {
      if moodId.Some? then provider(moodId.value) else None
    }

    /** `retry()`; the source's last test of the mood id always holds once the first two have failed. */
    method Retry(readyOk: bool, playOk: bool)
      requires Valid()
      modifies this
      ensures Valid() && listeners == old(listeners)
      ensures Snap() == RetryResult(old(Snap()), ListingFor(old(state).currentMoodId), readyOk, playOk)
      ensures deliveries == old(deliveries) + Broadcast(listeners, RetryPushes(old(Snap()), ListingFor(old(state).currentMoodId), readyOk, playOk))
    {
      if state.currentSource.None? && !Truthy(state.currentMoodId) {
        SetState(Failed);
        BroadcastOne(listeners, state);
        return;
      }
      if state.currentSource.Some? {
        ReplaySource(state.currentSource.value, readyOk, playOk);
      } else {
        ReplayMood(state.currentMoodId.value, readyOk, playOk);
      }
    }

    /** `retry()` with a source: `setSource` on it, then `play()`. */
    method ReplaySource(source: AudioSource, readyOk: bool, playOk: bool)
      requires Valid()
      modifies this
      ensures Valid() && listeners == old(listeners)
      ensures Snap() == PlayResult(SetSourceResult(old(Snap()), source, readyOk, playOk), playOk)
      ensures deliveries == old(deliveries) + Broadcast(listeners,
        SetSourcePushes(old(state), source, readyOk, playOk) + PlayPushes(SetSourceResult(old(Snap()), source, readyOk, playOk).state, playOk))
    {
      ghost var d0, e0 := deliveries, Snap();
      ghost var first := SetSourcePushes(state, source, readyOk, playOk);
      SetSource(source, readyOk, playOk);
      ghost var e1 := Snap();
      ghost var mid := state;
      assert e1 == SetSourceResult(e0, source, readyOk, playOk);
      Play(playOk);
      assert Snap() == PlayResult(e1, playOk);
      ghost var second := PlayPushes(mid, playOk);
      assert mid == e1.state;
      BroadcastAppend(listeners, first, second);
      assert deliveries == d0 + Broadcast(listeners, first) + Broadcast(listeners, second);
      JoinAssoc(d0, Broadcast(listeners, first), Broadcast(listeners, second));
    }

    /** `retry()` with only a mood id: `setMood` on it, then `play()`. */
    method ReplayMood(moodId: string, readyOk: bool, playOk: bool)
      requires Valid()
      modifies this
      ensures Valid() && listeners == old(listeners)
      ensures Snap() == PlayResult(SetMoodResult(old(Snap()), moodId, provider(moodId), readyOk, playOk), playOk)
      ensures deliveries == old(deliveries) + Broadcast(listeners,
        SetMoodPushes(old(Snap()), moodId, provider(moodId), readyOk, playOk)
          + PlayPushes(SetMoodResult(old(Snap()), moodId, provider(moodId), readyOk, playOk).state, playOk))
    {
      ghost var d0, e0 := deliveries, Snap();
      ghost var first := SetMoodPushes(e0, moodId, provider(moodId), readyOk, playOk);
      SetMood(moodId, readyOk, playOk);
      ghost var e1 := Snap();
      ghost var mid := state;
      assert e1 == SetMoodResult(e0, moodId, provider(moodId), readyOk, playOk);
      Play(playOk);
      assert Snap() == PlayResult(e1, playOk);
      ghost var second := PlayPushes(mid, playOk);
      assert mid == e1.state;
      BroadcastAppend(listeners, first, second);
      assert deliveries == d0 + Broadcast(listeners, first) + Broadcast(listeners, second);
      JoinAssoc(d0, Broadcast(listeners, first), Broadcast(listeners, second));
    }

    /** The element's `error` event: the error status. */
    method OnAudioError()
      requires Valid()
      modifies this
      ensures Valid() && listeners == old(listeners)
      ensures Snap() == old(Snap()).(state := old(state).(status := Error, error := Some(SourceUnavailable)))
      ensures deliveries == old(deliveries) + Notify(listeners, state)
    {
      SetState(Failed);
    }

    /** The element's `ended` event: paused. */
    method OnAudioEnded()
      requires Valid()
      modifies this
      ensures Valid() && listeners == old(listeners)
      ensures Snap() == old(Snap()).(state := old(state).(status := Paused))
      ensures deliveries == old(deliveries) + Notify(listeners, state)
    {
      SetState(NoKeys.(status := Some(Paused)));
    }
  }
}
