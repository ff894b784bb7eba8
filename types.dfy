/**
  * The records the application passes around: sources, moods, settings, and
  * the JavaScript values that reach the normalisers.
  */
module Types {

  datatype Option<+T> = None | Some(value: T)

  datatype Result<+T, +E> = Ok(value: T) | Err(error: E)

  /**
    * One key of an object spread `{ ...base, ...patch }`: the patch's value
    * when the patch has the key (possibly `undefined`), else the base's.
    */
  function Over<T>(base: T, patch: Option<T>): (r: T)
    ensures patch.None? ==> r == base
    ensures patch.Some? ==> r == patch.value
  {
    match patch
    case None => base
    case Some(v) => v
  }

  /** A JavaScript number: NaN, an infinity or a finite value. */
  datatype JsNumber = NaN | NegInf | PosInf | Finite(r: real)

  /** The one message every failure in the player is reduced to. */
  const SourceUnavailable: string := "Source unavailable"

  datatype SourceKind = Stream | Local | Embed

  /** One playable unit of a mood; `name` is the source's `label` (a reserved word here). */
  datatype AudioSource = AudioSource(id: string, name: string, kind: SourceKind, uri: string)

  /** A stored mood; a normalised one has `energyLevel` finite in [0,1] and a whitelisted accent. */
  datatype Mood = Mood(
    id: string,
    title: string,
    subtitle: string,
    energyLevel: JsNumber,
    tags: seq<string>,
    icon: Option<string>,
    colorAccent: Option<string>,
    order: int)

  /** A mood without its id and position, as the form submits it. */
  datatype MoodDraft = MoodDraft(
    title: string,
    subtitle: string,
    energyLevel: JsNumber,
    tags: seq<string>,
    icon: Option<string>,
    colorAccent: Option<string>)

  /**
    * A partial mood. `None` is a key the patch does not have; for the two
    * optional fields `Some(None)` is a key present with the value `undefined`,
    * which a spread copies over the target.
    */
  datatype MoodPatch = MoodPatch(
    title: Option<string>,
    subtitle: Option<string>,
    energyLevel: Option<JsNumber>,
    tags: Option<seq<string>>,
    icon: Option<Option<string>>,
    colorAccent: Option<Option<string>>,
    order: Option<int>)

  /** The colour accents a mood may carry. */
  const MoodColorAccents: seq<string> := ["teal", "blue", "emerald", "amber", "rose", "violet", "slate", "cyan"]

  /** Application settings as `get` and `set` report them. */
  datatype Settings = Settings(
    volume: real,
    rememberLastMood: bool,
    exitOnClose: bool,
    enableGlobalHotkeys: bool,
    autoplay: bool,
    lastMoodId: Option<string>)

  /**
    * A settings record as it may sit in the store or come out of a spread:
    * any field may be missing (`None`).
    */
  datatype LooseSettings = LooseSettings(
    volume: Option<JsNumber>,
    rememberLastMood: Option<bool>,
    exitOnClose: Option<bool>,
    enableGlobalHotkeys: Option<bool>,
    autoplay: Option<bool>,
    lastMoodId: Option<string>)

  /**
    * `Partial<AppSettings>`: `None` is an absent key, `Some(None)` a key
    * present with the value `undefined`.
    */
  datatype SettingsPatch = SettingsPatch(
    volume: Option<Option<JsNumber>>,
    rememberLastMood: Option<Option<bool>>,
    exitOnClose: Option<Option<bool>>,
    enableGlobalHotkeys: Option<Option<bool>>,
    autoplay: Option<Option<bool>>,
    lastMoodId: Option<Option<string>>)

  /** Every field of a settings record, present. */
  function Loosen(s: Settings): LooseSettings {
    LooseSettings(Some(Finite(s.volume)), Some(s.rememberLastMood), Some(s.exitOnClose),
                  Some(s.enableGlobalHotkeys), Some(s.autoplay), s.lastMoodId)
  }

  function Ids(moods: seq<Mood>): (r: seq<string>)
    ensures |r| == |moods|
    ensures forall i :: 0 <= i < |moods| ==> r[i] == moods[i].id
  {
    seq(|moods|, i requires 0 <= i < |moods| => moods[i].id)
  }

  function SourceIds(sources: seq<AudioSource>): (r: seq<string>)
    ensures |r| == |sources|
    ensures forall i :: 0 <= i < |sources| ==> r[i] == sources[i].id
  {
    seq(|sources|, i requires 0 <= i < |sources| => sources[i].id)
  }

  predicate Distinct<T(==)>(xs: seq<T>) {
    forall i, j :: 0 <= i < j < |xs| ==> xs[i] != xs[j]
  }
}
