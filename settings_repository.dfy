/**
  * The settings store: one record, normalised on every read and every write.
  */
module SettingsRepository {
  import opened Types
  import opened Validation

  /** `DEFAULT_SETTINGS`, the record a fresh store holds; it has no `lastMoodId`. */
  const DefaultSettings: Settings := Settings(0.6, true, false, false, false, None)

  /** `DEFAULT_SETTINGS` is already in normal form, so `get` on a fresh store returns it unchanged. */
  lemma DefaultSettingsNormal()
    ensures NormalizeSettings(Loosen(DefaultSettings)) == DefaultSettings
    ensures DefaultSettings.volume == 0.6 && DefaultSettings.lastMoodId.None?
  {
  }

  /** `{ ...base, ...patch }` on settings records: a key present in the patch wins, an absent one keeps the base's value. */
  function Merge(base: LooseSettings, patch: SettingsPatch): (r: LooseSettings)
    ensures patch.volume.Some? ==> r.volume == patch.volume.value
    ensures patch.volume.None? ==> r.volume == base.volume
    ensures patch.rememberLastMood.Some? ==> r.rememberLastMood == patch.rememberLastMood.value
    ensures patch.rememberLastMood.None? ==> r.rememberLastMood == base.rememberLastMood
    ensures patch.exitOnClose.Some? ==> r.exitOnClose == patch.exitOnClose.value
    ensures patch.exitOnClose.None? ==> r.exitOnClose == base.exitOnClose
    ensures patch.enableGlobalHotkeys.Some? ==> r.enableGlobalHotkeys == patch.enableGlobalHotkeys.value
    ensures patch.enableGlobalHotkeys.None? ==> r.enableGlobalHotkeys == base.enableGlobalHotkeys
    ensures patch.autoplay.Some? ==> r.autoplay == patch.autoplay.value
    ensures patch.autoplay.None? ==> r.autoplay == base.autoplay
    ensures patch.lastMoodId.Some? ==> r.lastMoodId == patch.lastMoodId.value
    ensures patch.lastMoodId.None? ==> r.lastMoodId == base.lastMoodId
  {
    LooseSettings(
      Over(base.volume, patch.volume),
      Over(base.rememberLastMood, patch.rememberLastMood),
      Over(base.exitOnClose, patch.exitOnClose),
      Over(base.enableGlobalHotkeys, patch.enableGlobalHotkeys),
      Over(base.autoplay, patch.autoplay),
      Over(base.lastMoodId, patch.lastMoodId))
  }

  /** The record `set` stores and returns when the current settings are `current`. */
  function SetResult(current: Settings, patch: SettingsPatch): (r: Settings)
    ensures r.rememberLastMood && !r.exitOnClose && !r.enableGlobalHotkeys && !r.autoplay
    ensures 0.0 <= r.volume <= 1.0
  {
    NormalizeSettings(Merge(Loosen(current), patch))
  }

  /**
    * The volume after `set`: the patch's volume clamped, 0.6 when the patch
    * sets it to `undefined`, and the current volume when the patch leaves it.
    */
  lemma SetVolume(current: Settings, patch: SettingsPatch)
    requires 0.0 <= current.volume <= 1.0
    ensures patch.volume.None? ==> SetResult(current, patch).volume == current.volume
    ensures patch.volume == Some(None) ==> SetResult(current, patch).volume == 0.6
    ensures patch.volume.Some? && patch.volume.value.Some? ==>
      SetResult(current, patch).volume == Clamp01(patch.volume.value.value)
  {
  }

  /** The last mood after `set`: the patch's when it has the key (possibly removed), else kept. */
  lemma SetLastMood(current: Settings, patch: SettingsPatch)
    ensures patch.lastMoodId.None? ==> SetResult(current, patch).lastMoodId == current.lastMoodId
    ensures patch.lastMoodId.Some? ==> SetResult(current, patch).lastMoodId == patch.lastMoodId.value
  {
  }

  /** The four flags cannot be changed through `set`: a patch of them alone changes nothing. */
  lemma FlagsOnlyPatchChangesNothing(current: Settings, patch: SettingsPatch)
    requires current == NormalizeSettings(Loosen(current))
    requires patch.volume.None? && patch.lastMoodId.None?
    ensures SetResult(current, patch) == current
  {
  }

  /** Setting the same patch twice is setting it once. */
  lemma SetIdempotent(current: Settings, patch: SettingsPatch)
    requires 0.0 <= current.volume <= 1.0
    ensures SetResult(SetResult(current, patch), patch) == SetResult(current, patch)
  {
    var once := SetResult(current, patch);
    SetVolume(current, patch);
    SetVolume(once, patch);
    match patch.volume {
      case None =>
      case Some(None) =>
      case Some(Some(v)) =>
        assert 0.0 <= Clamp01(v) <= 1.0;
    }
  }

  class SettingsRepository {
    /** What the store holds under `settings`; any key may be missing. */
    var stored: LooseSettings

    /** A fresh store holds `DEFAULT_SETTINGS`. */
    constructor()
      ensures stored == Loosen(DefaultSettings)
      ensures Get() == DefaultSettings
    {
      stored := Loosen(DefaultSettings);
    }

    /** `get`: the stored record, normalised; the flags are forced and the volume is in [0,1]. */
    function Get(): (r: Settings)
      reads this
      ensures 0.0 <= r.volume <= 1.0
      ensures r.rememberLastMood && !r.exitOnClose && !r.enableGlobalHotkeys && !r.autoplay
      ensures r.lastMoodId == stored.lastMoodId
      ensures stored.volume.None? ==> r.volume == 0.6
    {
      NormalizeSettings(stored)
    }

    /** `set`: merge the patch over the current settings, normalise, store and return. */
    method Set(patch: SettingsPatch) returns (r: Settings)
      modifies this
      ensures r == SetResult(old(Get()), patch)
      ensures stored == Loosen(r)
      ensures Get() == r
    {
      r := NormalizeSettings(Merge(Loosen(Get()), patch));
      stored := Loosen(r);
      NormalizeSettingsIdempotent(Merge(Loosen(old(Get())), patch));
    }
  }
}
