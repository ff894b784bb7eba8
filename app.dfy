/**
  * The application shell's decisions: which mood comes next or before, when
  * the last mood is remembered, what play/pause does, and which mood the
  * application starts on. Calls into the playback engine are recorded in
  * order rather than carried out.
  */
module App {
  import opened Types
  import MoodRepository
  import SettingsRepository
  import Validation

  /** A call the shell makes on the playback engine. */
  datatype EngineCall =
    | SetMood(moodId: string)
    | Play
    | Pause
    | SetVolume(volume: real)
    | NextSourceInQueue
    | PrevSourceInQueue

  /** `!value` for an optional string: absent or empty. */
  predicate Falsy(s: Option<string>) {
    s.None? || s.value == ""
  }

  /** The position of the active mood in the list, if it is there (`findIndex`). */
  function ActiveIndex(moods: seq<Mood>, active: Option<string>): (r: Option<nat>)
    ensures r.Some? ==> r.value < |moods| && active.Some? && moods[r.value].id == active.value
    ensures r.None? ==> active.None? || forall i :: 0 <= i < |moods| ==> moods[i].id != active.value
  {
    if active.None? then None else MoodRepository.FindById(moods, active.value)
  }

  /** The index `handleNextMood` selects: 0 for an unknown active mood, else the following one, wrapping. */
  function NextMoodIndex(moods: seq<Mood>, active: Option<string>): (r: nat)
    requires |moods| > 0
    ensures r < |moods|
    ensures ActiveIndex(moods, active).None? ==> r == 0
    ensures ActiveIndex(moods, active).Some? && ActiveIndex(moods, active).value + 1 < |moods| ==>
      r == ActiveIndex(moods, active).value + 1
    ensures ActiveIndex(moods, active).Some? && ActiveIndex(moods, active).value + 1 == |moods| ==> r == 0
  {
    match ActiveIndex(moods, active)
    case None => 0
    case Some(i) =>
      ModOfWrapped(i + 1, |moods|);
      (i + 1) % |moods|
  }

  /** The index `handlePrevMood` selects: 0 for an unknown active mood, else the preceding one, wrapping. */
  function PrevMoodIndex(moods: seq<Mood>, active: Option<string>): (r: nat)
    requires |moods| > 0
    ensures r < |moods|
    ensures ActiveIndex(moods, active).None? ==> r == 0
    ensures ActiveIndex(moods, active).Some? && ActiveIndex(moods, active).value > 0 ==>
      r == ActiveIndex(moods, active).value - 1
    ensures ActiveIndex(moods, active).Some? && ActiveIndex(moods, active).value == 0 ==> r == |moods| - 1
  {
    match ActiveIndex(moods, active)
    case None => 0
    case Some(i) =>
      ModOfWrapped(i - 1 + |moods|, |moods|);
      (i - 1 + |moods|) % |moods|
  }

  /** `a % n` for `a` below `2 * n`: `a` itself below `n`, one wrap above. */
  lemma ModOfWrapped(a: int, n: int)
    requires 0 <= a < 2 * n
    ensures a % n == if a < n then a else a - n
  {
    if a >= n {
      assert (a - n) % n == a % n;
    }
  }

  /** With distinct ids, stepping to the next mood and back returns to the active mood. */
  lemma PrevAfterNext(moods: seq<Mood>, active: string)
    requires Distinct(Ids(moods))
    requires exists i :: 0 <= i < |moods| && moods[i].id == active
    ensures var next := moods[NextMoodIndex(moods, Some(active))].id;
      moods[PrevMoodIndex(moods, Some(next))].id == active
  {
    var i := ActiveIndex(moods, Some(active)).value;
    var j := NextMoodIndex(moods, Some(active));
    var next := moods[j].id;
    assert ActiveIndex(moods, Some(next)).value == j by {
      var k := ActiveIndex(moods, Some(next)).value;
      assert Ids(moods)[k] == Ids(moods)[j];
    }
  }

  /** With distinct ids, stepping back and then forward returns to the active mood. */
  lemma NextAfterPrev(moods: seq<Mood>, active: string)
    requires Distinct(Ids(moods))
    requires exists i :: 0 <= i < |moods| && moods[i].id == active
    ensures var prev := moods[PrevMoodIndex(moods, Some(active))].id;
      moods[NextMoodIndex(moods, Some(prev))].id == active
  {
    var j := PrevMoodIndex(moods, Some(active));
    var prev := moods[j].id;
    assert ActiveIndex(moods, Some(prev)).value == j by {
      var k := ActiveIndex(moods, Some(prev)).value;
      assert Ids(moods)[k] == Ids(moods)[j];
    }
  }

  /** `isFocusQueue`: the focus mood is active and the engine's current source is an embedded track. */
  predicate IsFocusQueue(active: Option<string>, currentKind: Option<SourceKind>) {
    active == Some("focus") && currentKind == Some(Embed)
  }

  /** Only the focus mood playing an embedded track steps through the queue; any other mood or source kind steps moods. */
  lemma FocusQueueOnlyForFocusEmbed(active: Option<string>, currentKind: Option<SourceKind>)
    ensures active != Some("focus") ==> !IsFocusQueue(active, currentKind)
    ensures currentKind.None? || currentKind == Some(Stream) || currentKind == Some(Local) ==> !IsFocusQueue(active, currentKind)
    ensures IsFocusQueue(Some("focus"), Some(Embed))
  {
  }

  /**
    * The mood bootstrap starts on: the remembered last mood when the settings
    * say to remember it and it still exists, else the first mood; none
    * without moods.
    */
  function InitialMood(settings: Settings, moods: seq<Mood>): (r: Option<Mood>)
    ensures r.None? <==> moods == []
    ensures r.Some? ==> r.value in moods
    ensures moods != [] && settings.rememberLastMood && settings.lastMoodId.Some?
            && MoodRepository.FindById(moods, settings.lastMoodId.value).Some? ==>
      r == Some(moods[MoodRepository.FindById(moods, settings.lastMoodId.value).value])
    ensures moods != [] && (!settings.rememberLastMood || settings.lastMoodId.None?
            || MoodRepository.FindById(moods, settings.lastMoodId.value).None?) ==>
      r == Some(moods[0])
  {
    if moods == [] then None
    else
      var preferred :=
        if settings.rememberLastMood && settings.lastMoodId.Some? then MoodRepository.FindById(moods, settings.lastMoodId.value)
        else None;
      match preferred
      case Some(i) => Some(moods[i])
      case None => Some(moods[0])
  }

  /** Settings as `get` reports them always remember the last mood, so a stored last mood that still exists wins. */
  lemma InitialMoodFromStore(store: LooseSettings, moods: seq<Mood>, i: nat)
    requires i < |moods| && store.lastMoodId == Some(moods[i].id)
    requires forall k :: 0 <= k < i ==> moods[k].id != moods[i].id
    ensures InitialMood(Validation.NormalizeSettings(store), moods) == Some(moods[i])
  {
  }

  /** The settings patch `persistLastMood` sends: only `lastMoodId`. */
  function LastMoodPatch(moodId: string): (p: SettingsPatch)
    ensures p.lastMoodId == Some(Some(moodId))
    ensures p.volume.None? && p.rememberLastMood.None? && p.exitOnClose.None?
    ensures p.enableGlobalHotkeys.None? && p.autoplay.None?
  {
    SettingsPatch(None, None, None, None, None, Some(Some(moodId)))
  }

  /** Whether selecting `moodId` stores it as the last mood, given the settings in force. */
  predicate SavesLast(saveAsLast: bool, moodId: string, settings: Settings) {
    saveAsLast && moodId != "" && settings.rememberLastMood
  }

  class App {
    var moods: seq<Mood>
    var settings: Settings
    var activeMoodId: Option<string>
    /** The engine calls made so far, in order. */
    var engineCalls: seq<EngineCall>
    /** The settings store behind `settingsService`. */
    const store: SettingsRepository.SettingsRepository

    constructor(store: SettingsRepository.SettingsRepository)
      ensures this.store == store
      ensures moods == [] && activeMoodId.None? && engineCalls == []
      ensures settings == Settings(0.6, true, false, true, false, None)
    {
      this.store := store;
      moods := [];
      settings := Settings(0.6, true, false, true, false, None);
      activeMoodId := None;
      engineCalls := [];
    }

    /**
      * `persistLastMood(moodId, baseSettings)`: nothing for a missing or empty
      * id or when the settings in force do not remember the last mood;
      * otherwise the id is stored and the settings state becomes what the
      * store returned.
      */
    method PersistLastMood(moodId: Option<string>, baseSettings: Option<Settings>)
      modifies this, store
      ensures var source := if baseSettings.Some? then baseSettings.value else old(settings);
        if Falsy(moodId) || !source.rememberLastMood then
          unchanged(this) && unchanged(store)
        else
          && settings == store.Get()
          && settings.lastMoodId == moodId
          && settings == SettingsRepository.SetResult(old(store.Get()), SettingsPatch(None, None, None, None, None, Some(moodId)))
          && moods == old(moods) && activeMoodId == old(activeMoodId) && engineCalls == old(engineCalls)
    {
      var source := if baseSettings.Some? then baseSettings.value else settings;
      if Falsy(moodId) || !source.rememberLastMood {
        return;
      }
      var patch := LastMoodPatch(moodId.value);
      var next := store.Set(patch);
      SettingsRepository.SetLastMood(old(store.Get()), patch);
      settings := next;
    }

    /** `selectMood(moodId, options)`: make it active, tell the engine, and remember it unless told not to. */
    method SelectMood(moodId: string, saveAsLast: bool)
      modifies this, store
      ensures activeMoodId == Some(moodId)
      ensures engineCalls == old(engineCalls) + [SetMood(moodId)]
      ensures moods == old(moods)
      ensures saveAsLast && moodId != "" && old(settings).rememberLastMood ==> settings.lastMoodId == Some(moodId)
      ensures SavesLast(saveAsLast, moodId, old(settings)) ==>
        settings == store.Get() && settings == SettingsRepository.SetResult(old(store.Get()), LastMoodPatch(moodId))
      ensures !SavesLast(saveAsLast, moodId, old(settings)) ==> settings == old(settings) && unchanged(store)
    {
      activeMoodId := Some(moodId);
      engineCalls := engineCalls + [SetMood(moodId)];
      if saveAsLast {
        PersistLastMood(Some(moodId), None);
      }
    }

    /**
      * `handlePlayPause`: pause when playing; otherwise select the first mood
      * when none is active and there is one, then play.
      */
    method HandlePlayPause(playing: bool)
      modifies this, store
      ensures moods == old(moods)
      ensures playing ==> engineCalls == old(engineCalls) + [Pause] && activeMoodId == old(activeMoodId)
      ensures !playing && Falsy(old(activeMoodId)) && old(moods) != [] ==>
        engineCalls == old(engineCalls) + [SetMood(old(moods)[0].id), Play] && activeMoodId == Some(old(moods)[0].id)
      ensures !playing && !(Falsy(old(activeMoodId)) && old(moods) != []) ==>
        engineCalls == old(engineCalls) + [Play] && activeMoodId == old(activeMoodId)
      ensures playing || !Falsy(old(activeMoodId)) || old(moods) == [] ==> settings == old(settings) && unchanged(store)
      ensures !playing && Falsy(old(activeMoodId)) && old(moods) != [] ==>
        var id := old(moods)[0].id;
        && (SavesLast(true, id, old(settings)) ==>
              settings == store.Get() && settings == SettingsRepository.SetResult(old(store.Get()), LastMoodPatch(id)))
        && (!SavesLast(true, id, old(settings)) ==> settings == old(settings) && unchanged(store))
    {
      if playing {
        engineCalls := engineCalls + [Pause];
        return;
      }
      if Falsy(activeMoodId) && moods != [] {
        SelectMood(moods[0].id, true);
      }
      engineCalls := engineCalls + [Play];
    }

    /**
      * `handleNextMood`: in the focus queue the engine is asked for its next
      * source; otherwise, with moods, the next mood (wrapping) is selected.
      */
    method HandleNextMood(currentKind: Option<SourceKind>)
      modifies this, store
      ensures moods == old(moods)
      ensures IsFocusQueue(old(activeMoodId), currentKind) ==>
        engineCalls == old(engineCalls) + [NextSourceInQueue] && activeMoodId == old(activeMoodId)
      ensures !IsFocusQueue(old(activeMoodId), currentKind) && old(moods) == [] ==>
        unchanged(this) && unchanged(store)
      ensures !IsFocusQueue(old(activeMoodId), currentKind) && old(moods) != [] ==>
        var id := old(moods)[NextMoodIndex(old(moods), old(activeMoodId))].id;
        activeMoodId == Some(id) && engineCalls == old(engineCalls) + [SetMood(id)]
      ensures IsFocusQueue(old(activeMoodId), currentKind) ==> settings == old(settings) && unchanged(store)
      ensures !IsFocusQueue(old(activeMoodId), currentKind) && old(moods) != [] ==>
        var id := old(moods)[NextMoodIndex(old(moods), old(activeMoodId))].id;
        && (SavesLast(true, id, old(settings)) ==>
              settings == store.Get() && settings == SettingsRepository.SetResult(old(store.Get()), LastMoodPatch(id)))
        && (!SavesLast(true, id, old(settings)) ==> settings == old(settings) && unchanged(store))
    {
      if IsFocusQueue(activeMoodId, currentKind) {
        engineCalls := engineCalls + [NextSourceInQueue];
        return;
      }
      if moods == [] {
        return;
      }
      var next := NextMoodIndex(moods, activeMoodId);
      SelectMood(moods[next].id, true);
    }

    /** `handlePrevMood`: as `handleNextMood`, towards the preceding mood. */
    method HandlePrevMood(currentKind: Option<SourceKind>)
      modifies this, store
      ensures moods == old(moods)
      ensures IsFocusQueue(old(activeMoodId), currentKind) ==>
        engineCalls == old(engineCalls) + [PrevSourceInQueue] && activeMoodId == old(activeMoodId)
      ensures !IsFocusQueue(old(activeMoodId), currentKind) && old(moods) == [] ==>
        unchanged(this) && unchanged(store)
      ensures !IsFocusQueue(old(activeMoodId), currentKind) && old(moods) != [] ==>
        var id := old(moods)[PrevMoodIndex(old(moods), old(activeMoodId))].id;
        activeMoodId == Some(id) && engineCalls == old(engineCalls) + [SetMood(id)]
      ensures IsFocusQueue(old(activeMoodId), currentKind) ==> settings == old(settings) && unchanged(store)
      ensures !IsFocusQueue(old(activeMoodId), currentKind) && old(moods) != [] ==>
        var id := old(moods)[PrevMoodIndex(old(moods), old(activeMoodId))].id;
        && (SavesLast(true, id, old(settings)) ==>
              settings == store.Get() && settings == SettingsRepository.SetResult(old(store.Get()), LastMoodPatch(id)))
        && (!SavesLast(true, id, old(settings)) ==> settings == old(settings) && unchanged(store))
    {
      if IsFocusQueue(activeMoodId, currentKind) {
        engineCalls := engineCalls + [PrevSourceInQueue];
        return;
      }
      if moods == [] {
        return;
      }
      var prev := PrevMoodIndex(moods, activeMoodId);
      SelectMood(moods[prev].id, true);
    }

    /**
      * `bootstrap`: load settings and moods, apply the volume, start on the
      * initial mood (without remembering it again) and play when `autoplay`
      * is set. `storedMoods` is what the mood store lists.
      */
    method Bootstrap(storedMoods: seq<Mood>)
      modifies this
      ensures settings == store.Get() && moods == storedMoods
      ensures var initial := InitialMood(settings, storedMoods);
        && (initial.None? ==>
              activeMoodId == old(activeMoodId) && engineCalls == old(engineCalls) + [SetVolume(settings.volume)])
        && (initial.Some? ==>
              activeMoodId == Some(initial.value.id)
              && engineCalls == old(engineCalls) + [SetVolume(settings.volume), SetMood(initial.value.id)])
      ensures Play !in engineCalls[|old(engineCalls)|..]
    {
      settings := store.Get();
      moods := storedMoods;
      engineCalls := engineCalls + [SetVolume(settings.volume)];
      var initial := InitialMood(settings, storedMoods);
      if initial.Some? {
        activeMoodId := Some(initial.value.id);
        engineCalls := engineCalls + [SetMood(initial.value.id)];
        if settings.autoplay {
          engineCalls := engineCalls + [Play];
        }
      }
    }
  }
}
