/**
  * The internet-radio catalog: a fixed table of stations per mood key, the
  * mapping from a mood id to a key, and the list of sources built from a
  * key's stations.
  */
module RadioCatalog {
  import opened Types
  import opened Strings

  datatype MoodKey = Jazz | Energy | Paradise | Focus

  function KeyName(k: MoodKey): string {
    match k
    case Jazz => "jazz"
    case Energy => "energy"
    case Paradise => "paradise"
    case Focus => "focus"
  }

  /** One row of the station table; `name` is the station's label. */
  datatype Station = Station(name: string, uri: string)

  /** The station table, in table order. */
  function StationsFor(k: MoodKey): (r: seq<Station>)
    ensures |r| >= 1
  {
    match k
    case Jazz => [Station("Radio Swiss Jazz", "https://stream.srg-ssr.ch/srgssr/rsj/mp3/128")]
    case Energy => [Station("KEXP", "https://kexp.streamguys1.com/kexp160.aac")]
    case Paradise => [Station("Radio Paradise", "http://stream-dc1.radioparadise.com/mp3-192")]
    case Focus => [
      Station("Idea 22", "https://soundcloud.com/mythostempest/idea-22-but-it-sounds-like"),
      Station("Losing (Slowed)", "https://soundcloud.com/lon_nex/losing-slowed-down"),
      Station("Bleak Midwinter (1 Hour)", "https://soundcloud.com/youmadethis/in-the-bleak-midwinter-slowed-1-hour"),
      Station("Where Do We Go (Loop)", "https://soundcloud.com/tekkecore/wheredowego-intro-11min-loop"),
      Station("Everything In Its Right Place", "https://soundcloud.com/akame-assassin/radiohead-everything-in-its"),
      Station("Sage", "https://soundcloud.com/user-396074918/sage"),
      Station("TXMY Ethereal (Slowed)", "https://soundcloud.com/mydigjjwzajt/txmy-ethereal-slowed-to")
    ]
  }

  /** The key a string names, if it names one (the `in STATIONS_BY_MOOD` test). */
  function KeyOf(name: string): (r: Option<MoodKey>)
    ensures r.Some? ==> KeyName(r.value) == name
    ensures r.None? ==> forall k: MoodKey :: KeyName(k) != name
  {
    if name == "jazz" then Some(Jazz)
    else if name == "energy" then Some(Energy)
    else if name == "paradise" then Some(Paradise)
    else if name == "focus" then Some(Focus)
    else None
  }

  /** `resolveMoodKey`: the trimmed, lower-cased id when it is a key, otherwise `focus`. */
  function ResolveMoodKey(moodId: string): (k: MoodKey)
    ensures KeyName(k) == ToLower(Trim(moodId)) || (k == Focus && forall k': MoodKey :: KeyName(k') != ToLower(Trim(moodId)))
  {
    var candidate := ToLower(Trim(moodId));
    match KeyOf(candidate)
    case Some(k) => k
    case None => Focus
  }

  /** A word of lower-case ASCII letters is its own trimmed, lower-cased form. */
  lemma LowerWordIsNormal(name: string)
    requires name != [] && forall i :: 0 <= i < |name| ==> 'a' <= name[i] <= 'z'
    ensures ToLower(Trim(name)) == name
  {
    assert IsTrimmed(name) by {
      assert 'a' <= name[0] <= 'z' && 'a' <= name[|name| - 1] <= 'z';
    }
    TrimOfTrimmed(name);
    assert IsLowerCase(name);
    ToLowerFacts(name);
  }

  /** A key's own name resolves to that key. */
  lemma ResolveKeyName(k: MoodKey)
    ensures ResolveMoodKey(KeyName(k)) == k
  {
    match k
    case Jazz =>
      LowerWordIsNormal("jazz");
    case Energy =>
      assert |"energy"| != |"jazz"|;
      LowerWordIsNormal("energy");
    case Paradise =>
      assert |"paradise"| != |"jazz"| && |"paradise"| != |"energy"|;
      LowerWordIsNormal("paradise");
    case Focus =>
      assert |"focus"| != |"jazz"| && |"focus"| != |"energy"| && |"focus"| != |"paradise"|;
      LowerWordIsNormal("focus");
  }

  /** Surrounding whitespace and letter case do not change the resolved key. */
  lemma ResolveMoodKeyNormalForm(moodId: string)
    ensures ResolveMoodKey(ToLower(Trim(moodId))) == ResolveMoodKey(moodId)
  {
    var t := Trim(moodId);
    var c := ToLower(t);
    ToLowerFacts(t);
    TrimOfTrimmed(c);
    ToLowerIdempotent(t);
    assert ToLower(Trim(c)) == c;
  }

  /** Letter case in the id is irrelevant: `resolveMoodKey(s.toLowerCase()) == resolveMoodKey(s)`. */
  lemma ResolveMoodKeyIgnoresCase(moodId: string)
    ensures ResolveMoodKey(ToLower(moodId)) == ResolveMoodKey(moodId)
  {
    TrimToLower(moodId);
    ToLowerIdempotent(Trim(moodId));
  }

  /** The id a catalog source gets: `${key}-station-${index + 1}`. */
  function StationId(k: MoodKey, index: nat): (r: string)
    ensures KeyName(k) + "-station-" <= r
    ensures r[|KeyName(k) + "-station-"|..] == NatToString(index + 1)
  {
    var r := KeyName(k) + "-station-" + NatToString(index + 1);
    assert r[|KeyName(k) + "-station-"|..] == NatToString(index + 1);
    r
  }

  function KindFor(k: MoodKey): SourceKind {
    if k == Focus then Embed else Stream
  }

  /** `getStationsForMood`: the resolved key's stations, in table order, as sources. */
  function GetStationsForMood(moodId: string): (r: seq<AudioSource>)
    ensures |r| == |StationsFor(ResolveMoodKey(moodId))| >= 1
    ensures forall i :: 0 <= i < |r| ==>
      var k := ResolveMoodKey(moodId);
      r[i] == AudioSource(StationId(k, i), StationsFor(k)[i].name, KindFor(k), StationsFor(k)[i].uri)
  {
    var k := ResolveMoodKey(moodId);
    var stations := StationsFor(k);
    seq(|stations|, i requires 0 <= i < |stations| =>
      AudioSource(StationId(k, i), stations[i].name, KindFor(k), stations[i].uri))
  }

  /** Station ids within one list are pairwise distinct. */
  lemma StationIdsDistinct(moodId: string)
    ensures Distinct(SourceIds(GetStationsForMood(moodId)))
  {
    var k := ResolveMoodKey(moodId);
    var ids := SourceIds(GetStationsForMood(moodId));
    forall i, j | 0 <= i < j < |ids| ensures ids[i] != ids[j] {
      assert ids[i] == StationId(k, i) && ids[j] == StationId(k, j);
      if ids[i] == ids[j] {
        StationIdInjective(k, i, j);
      }
    }
  }

  lemma StationIdInjective(k: MoodKey, i: nat, j: nat)
    requires StationId(k, i) == StationId(k, j)
    ensures i == j
  {
    var prefix := KeyName(k) + "-station-";
    assert StationId(k, i)[|prefix|..] == NatToString(i + 1);
    assert StationId(k, j)[|prefix|..] == NatToString(j + 1);
    NatToStringInjective(i + 1, j + 1);
  }

  /** Sources are embedded-widget tracks exactly for the `focus` key and streams otherwise. */
  lemma KindIsEmbedIffFocus(moodId: string, i: nat)
    requires i < |GetStationsForMood(moodId)|
    ensures GetStationsForMood(moodId)[i].kind == Embed <==> ResolveMoodKey(moodId) == Focus
    ensures GetStationsForMood(moodId)[i].kind != Local
  {
  }

  /** `getMoodOrder`: every key exactly once, jazz, energy, paradise, focus. */
  function GetMoodOrder(): (r: seq<string>)
    ensures |r| == 4 && Distinct(r)
    ensures forall k: MoodKey :: KeyName(k) in r
    ensures forall i :: 0 <= i < |r| ==> KeyOf(r[i]).Some?
  {
    ["jazz", "energy", "paradise", "focus"]
  }
}
