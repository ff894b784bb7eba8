/**
  * The four moods a fresh store is seeded with.
  */
module DefaultMoods {
  import opened Types
  import opened Strings
  import opened Validation
  import RadioCatalog

  /** A seed: a mood's id and fields, without its position. */
  datatype Seed = Seed(id: string, draft: MoodDraft)

  const CrescentMoon: string := "\U{1F319}"
  const HighVoltage: string := "\U{26A1}"
  const Brain: string := "\U{1F9E0}"

  const JazzSeed: Seed :=
    Seed("jazz", MoodDraft("Jazz", "Light and calm", Finite(0.35), ["jazz", "smooth", "chill"], Some(CrescentMoon), Some("blue")))
  const EnergySeed: Seed :=
    Seed("energy", MoodDraft("Energy", "High tempo boost", Finite(0.9), ["energy", "upbeat", "boost"], Some(HighVoltage), Some("amber")))
  const ParadiseSeed: Seed :=
    Seed("paradise", MoodDraft("Paradise", "No distraction", Finite(0.75), ["paradise", "deep", "ambient"], Some(Brain), Some("teal")))
  const FocusSeed: Seed :=
    Seed("focus", MoodDraft("Deep Focus", "Deep concentration", Finite(0.65), ["focus", "flow", "work"], Some(CrescentMoon), Some("teal")))

  function SeedMoods(): seq<Seed> {
    [JazzSeed, EnergySeed, ParadiseSeed, FocusSeed]
  }

  function SeedToMood(seed: Seed, index: int): Mood {
    var d := seed.draft;
    Mood(seed.id, d.title, d.subtitle, d.energyLevel, d.tags, d.icon, d.colorAccent, index)
  }

  /** `createDefaultMoods`: the seeds in table order, each with `order` equal to its index. */
  function CreateDefaultMoods(): (r: seq<Mood>)
    ensures |r| == |SeedMoods()| == 4
    ensures forall i :: 0 <= i < |r| ==> r[i].order == i && r[i].id == SeedMoods()[i].id
  {
    var seeds := SeedMoods();
    seq(|seeds|, i requires 0 <= i < |seeds| => SeedToMood(seeds[i], i))
  }

  /** The default moods are the catalog's keys, in the catalog's order. */
  lemma DefaultIdsAreCatalogOrder()
    ensures Ids(CreateDefaultMoods()) == RadioCatalog.GetMoodOrder()
  {
  }

  /** Each default mood id names its own catalog key, so it plays that key's stations. */
  lemma DefaultMoodsResolveToOwnKey(i: nat)
    requires i < |CreateDefaultMoods()|
    ensures RadioCatalog.KeyName(RadioCatalog.ResolveMoodKey(CreateDefaultMoods()[i].id)) == CreateDefaultMoods()[i].id
  {
    var id := CreateDefaultMoods()[i].id;
    var key := RadioCatalog.KeyOf(id);
    assert key.Some?;
    RadioCatalog.ResolveKeyName(key.value);
  }

  lemma DefaultIdsDistinct()
    ensures Distinct(Ids(CreateDefaultMoods()))
  {
    DefaultIdsAreCatalogOrder();
  }

  predicate IsLetter(c: char) {
    ('a' <= c <= 'z') || ('A' <= c <= 'Z')
  }

  /** A string that starts and ends with a letter is trimmed. */
  lemma LetterEndsTrimmed(s: string)
    requires s != [] && IsLetter(s[0]) && IsLetter(s[|s| - 1])
    ensures IsTrimmed(s)
  {
  }

  predicate IsLowerWord(t: string) {
    t != [] && forall i :: 0 <= i < |t| ==> 'a' <= t[i] <= 'z'
  }

  lemma LowerWordIsCleanTag(t: string)
    requires IsLowerWord(t)
    ensures IsCleanTag(t)
  {
  }

  /** The checks on one seed that make its mood normal, each cheap to check on a literal. */
  predicate SeedChecks(seed: Seed) {
    var d := seed.draft;
    && LetterEndsAndNonEmpty(d.title) && LetterEndsAndNonEmpty(d.subtitle)
    && d.energyLevel.Finite? && 0.0 <= d.energyLevel.r <= 1.0
    && Distinct(d.tags) && (forall k :: 0 <= k < |d.tags| ==> IsLowerWord(d.tags[k]))
    && d.icon.Some? && |d.icon.value| == 1
    && !IsWhitespace(d.icon.value[0]) && d.icon.value[0] != '?'
    && d.colorAccent.Some? && d.colorAccent.value in MoodColorAccents
  }

  predicate LetterEndsAndNonEmpty(s: string) {
    s != [] && IsLetter(s[0]) && IsLetter(s[|s| - 1])
  }

  lemma SeedFieldsNormal(seed: Seed, index: int)
    requires SeedChecks(seed)
    ensures IsNormalMood(SeedToMood(seed, index))
  {
    var d := seed.draft;
    LetterEndsTrimmed(d.title);
    LetterEndsTrimmed(d.subtitle);
    forall k | 0 <= k < |d.tags| ensures IsCleanTag(d.tags[k]) {
      LowerWordIsCleanTag(d.tags[k]);
    }
    assert !AllQuestionMarks(d.icon.value);
  }

  lemma JazzSeedChecks() ensures SeedChecks(JazzSeed) {}
  lemma EnergySeedChecks() ensures SeedChecks(EnergySeed) {}
  lemma ParadiseSeedChecks() ensures SeedChecks(ParadiseSeed) {}
  lemma FocusSeedChecks() ensures SeedChecks(FocusSeed) {}

  lemma SeedChecksHold(i: nat)
    requires i < 4
    ensures SeedChecks(SeedMoods()[i])
  {
    JazzSeedChecks();
    EnergySeedChecks();
    ParadiseSeedChecks();
    FocusSeedChecks();
  }

  lemma SeedIsNormal(i: nat)
    requires i < 4
    ensures IsNormalMood(CreateDefaultMoods()[i])
  {
    var seed := SeedMoods()[i];
    assert CreateDefaultMoods()[i] == SeedToMood(seed, i);
    SeedChecksHold(i);
    SeedFieldsNormal(seed, i);
  }

  /** The seeds are already in the form `normalizeMood` produces: normalising them changes nothing. */
  lemma DefaultMoodsAreNormal(i: nat)
    requires i < |CreateDefaultMoods()|
    ensures NormalizeMood(CreateDefaultMoods()[i], i) == CreateDefaultMoods()[i]
  {
    SeedIsNormal(i);
    NormalizeMoodOfNormal(CreateDefaultMoods()[i], i);
  }
}
