/**
  * The normalisers shared by the storage layer and the renderer
  * (shared/utils/validation.ts): clamping, tag clean-up, the accent
  * whitelist, icon clean-up, and the normal forms of moods, mood patches and
  * settings.
  */
module Validation {
  import opened Types
  import opened Strings

  /** `clamp01`: NaN becomes 0, everything else is clamped to [0,1]. */
  function Clamp01(v: JsNumber): (r: real)
    ensures 0.0 <= r <= 1.0
    ensures v.NaN? || v.NegInf? ==> r == 0.0
    ensures v.PosInf? ==> r == 1.0
    ensures v.Finite? && v.r < 0.0 ==> r == 0.0
    ensures v.Finite? && v.r > 1.0 ==> r == 1.0
    ensures v.Finite? && 0.0 <= v.r <= 1.0 ==> r == v.r
  {
    match v
    case NaN => 0.0
    case NegInf => 0.0
    case PosInf => 1.0
    case Finite(x) => if x < 0.0 then 0.0 else if x > 1.0 then 1.0 else x
  }

  /** `tags` may arrive as an array or as comma-separated text. */
  datatype TagsInput = TagArray(items: seq<string>) | TagText(text: string)

  function RawTags(input: TagsInput): seq<string> {
    match input
    case TagArray(items) => items
    case TagText(text) => Split(text, ',')
  }

  /** A tag as the normaliser emits it: non-empty, trimmed and lower-case. */
  predicate IsCleanTag(t: string) {
    t != "" && IsTrimmed(t) && IsLowerCase(t)
  }

  /** One raw tag after clean-up: trimmed and lower-cased, or dropped when blank. */
  function CleanTag(raw: string): (r: Option<string>)
    ensures r.Some? ==> IsCleanTag(r.value)
  {
    var t := Trim(raw);
    ToLowerFacts(t);
    if t == "" then None else Some(ToLower(t))
  }

  /** The tag `raw[j]` turns into when it survives clean-up. */
  predicate CleansTo(raw: seq<string>, j: int, t: string) {
    0 <= j < |raw| && CleanTag(raw[j]) == Some(t)
  }

  function OptionToSeq<T>(o: Option<T>): (r: seq<T>)
    ensures |r| <= 1
  {
    match o
    case None => []
    case Some(v) => [v]
  }

  /** Map every entry through `f` and keep the present results, in order. */
  function FilterMap<A, B>(f: A -> Option<B>, xs: seq<A>): (r: seq<B>)
    ensures |r| <= |xs|
    decreases |xs|
  {
    if xs == [] then [] else OptionToSeq(f(xs[0])) + FilterMap(f, xs[1..])
  }

  /** Mapping and filtering a concatenation is mapping and filtering each part, in order. */
  lemma {:induction false} FilterMapAppend<A, B>(f: A -> Option<B>, xs: seq<A>, ys: seq<A>)
    ensures FilterMap(f, xs + ys) == FilterMap(f, xs) + FilterMap(f, ys)
    decreases |xs|
  {
    if xs == [] {
      assert xs + ys == ys;
    } else {
      var head := OptionToSeq(f(xs[0]));
      assert (xs + ys)[0] == xs[0] && (xs + ys)[1..] == xs[1..] + ys;
      assert FilterMap(f, xs + ys) == head + FilterMap(f, xs[1..] + ys);
      FilterMapAppend(f, xs[1..], ys);
      assert FilterMap(f, xs) == head + FilterMap(f, xs[1..]);
    }
  }

  /** Every kept result comes from some entry. */
  lemma {:induction false} FilterMapOnlyFrom<A, B>(f: A -> Option<B>, xs: seq<A>, y: B)
    requires y in FilterMap(f, xs)
    ensures exists j :: 0 <= j < |xs| && f(xs[j]) == Some(y)
    decreases |xs|
  {
    var head := OptionToSeq(f(xs[0]));
    assert FilterMap(f, xs) == head + FilterMap(f, xs[1..]);
    if y in head {
      assert f(xs[0]) == Some(y);
    } else {
      FilterMapOnlyFrom(f, xs[1..], y);
      var j :| 0 <= j < |xs[1..]| && f(xs[1..][j]) == Some(y);
      assert xs[1..][j] == xs[j + 1];
    }
  }

  /** Every present result is kept. */
  lemma {:induction false} FilterMapKeeps<A, B>(f: A -> Option<B>, xs: seq<A>, j: int, y: B)
    requires 0 <= j < |xs| && f(xs[j]) == Some(y)
    ensures y in FilterMap(f, xs)
    decreases |xs|
  {
    var head := OptionToSeq(f(xs[0]));
    assert FilterMap(f, xs) == head + FilterMap(f, xs[1..]);
    if j == 0 {
      assert head == [y];
    } else {
      assert xs[1..][j - 1] == xs[j];
      FilterMapKeeps(f, xs[1..], j - 1, y);
    }
  }

  /** The first entry whose mapped value is `y`. */
  function FirstSource<A, B(==)>(f: A -> Option<B>, xs: seq<A>, y: B): (i: nat)
    requires y in FilterMap(f, xs)
    ensures i < |xs| && f(xs[i]) == Some(y)
    ensures forall k :: 0 <= k < i ==> f(xs[k]) != Some(y)
    decreases |xs|
  {
    assert FilterMap(f, xs) == OptionToSeq(f(xs[0])) + FilterMap(f, xs[1..]);
    if f(xs[0]) == Some(y) then 0
    else
      var i := 1 + FirstSource(f, xs[1..], y);
      assert forall k :: 1 <= k < i ==> xs[k] == xs[1..][k - 1];
      i
  }

  /**
    * The kept values appear in the order of the entries they first come from:
    * one value first occurs before another in the output exactly when its
    * first source entry comes first.
    */
  lemma {:induction false} FilterMapFirstOrder<A, B>(f: A -> Option<B>, xs: seq<A>, x: B, y: B)
    requires x in FilterMap(f, xs) && y in FilterMap(f, xs)
    ensures FirstIndex(FilterMap(f, xs), x) < FirstIndex(FilterMap(f, xs), y)
        <==> FirstSource(f, xs, x) < FirstSource(f, xs, y)
    decreases |xs|
  {
    var head := OptionToSeq(f(xs[0]));
    var tail := FilterMap(f, xs[1..]);
    assert FilterMap(f, xs) == head + tail;
    if f(xs[0]) == Some(x) || f(xs[0]) == Some(y) {
      var z := f(xs[0]).value;
      assert FilterMap(f, xs)[0] == z;
      assert FirstIndex(FilterMap(f, xs), z) == 0 && FirstSource(f, xs, z) == 0;
    } else {
      assert x in tail && y in tail;
      FilterMapFirstOrder(f, xs[1..], x, y);
      assert FirstSource(f, xs, x) == 1 + FirstSource(f, xs[1..], x);
      assert FirstSource(f, xs, y) == 1 + FirstSource(f, xs[1..], y);
      if head == [] {
        assert FilterMap(f, xs) == tail;
      } else {
        FirstIndexCons(head[0], tail, x);
        FirstIndexCons(head[0], tail, y);
      }
    }
  }

  lemma FirstIndexCons<T>(h: T, t: seq<T>, x: T)
    requires x in t && x != h
    ensures FirstIndex([h] + t, x) == 1 + FirstIndex(t, x)
  {
    assert ([h] + t)[1..] == t;
  }

  /** Trim every tag, drop the empty ones and lower-case the rest, in order. */
  function CleanTags(raw: seq<string>): (r: seq<string>)
    ensures |r| <= |raw|
    ensures forall k :: 0 <= k < |r| ==> IsCleanTag(r[k])
  {
    var r := FilterMap(CleanTag, raw);
    assert forall k :: 0 <= k < |r| ==> IsCleanTag(r[k]) by {
      forall k | 0 <= k < |r| ensures IsCleanTag(r[k]) {
        FilterMapOnlyFrom(CleanTag, raw, r[k]);
      }
    }
    r
  }

  /** A tag survives clean-up exactly when some raw tag cleans to it. */
  lemma CleanTagsMembers(raw: seq<string>, t: string)
    ensures t in CleanTags(raw) <==> exists j :: CleansTo(raw, j, t)
  {
    if t in CleanTags(raw) {
      FilterMapOnlyFrom(CleanTag, raw, t);
      var j :| 0 <= j < |raw| && CleanTag(raw[j]) == Some(t);
      assert CleansTo(raw, j, t);
    }
    if exists j :: CleansTo(raw, j, t) {
      var j :| CleansTo(raw, j, t);
      FilterMapKeeps(CleanTag, raw, j, t);
    }
  }

  /** The first occurrence of every element, in order (what `Array.from(new Set(xs))` gives). */
  function Dedup<T(==,!new)>(xs: seq<T>): (r: seq<T>)
    ensures Distinct(r)
    ensures |r| <= |xs|
    ensures forall x :: x in r <==> x in xs
    decreases |xs|
  {
    if xs == [] then []
    else
      var d := Dedup(xs[..|xs| - 1]);
      var last := xs[|xs| - 1];
      assert forall x :: x in xs <==> x in xs[..|xs| - 1] || x == last;
      if last in d then d else d + [last]
  }

  /** A list without repetitions is its own set of first occurrences. */
  lemma {:induction false} DedupOfDistinct<T(!new)>(xs: seq<T>)
    requires Distinct(xs)
    ensures Dedup(xs) == xs
    decreases |xs|
  {
    if xs != [] {
      var init := xs[..|xs| - 1];
      DedupOfDistinct(init);
      assert xs[|xs| - 1] !in init;
      assert init + [xs[|xs| - 1]] == xs;
    }
  }

  /** Position of the first occurrence of `x` in `xs`. */
  function FirstIndex<T(==)>(xs: seq<T>, x: T): (i: nat)
    requires x in xs
    ensures i < |xs| && xs[i] == x && x !in xs[..i]
  {
    if xs[0] == x then 0 else 1 + FirstIndex(xs[1..], x)
  }

  lemma FirstIndexOfPrefix<T>(xs: seq<T>, n: nat, x: T)
    requires n <= |xs| && x in xs[..n]
    ensures FirstIndex(xs, x) == FirstIndex(xs[..n], x)
  {
    var k := FirstIndex(xs[..n], x);
    assert xs[..n][..k] == xs[..k];
  }

  /** `Dedup` keeps the order in which values first occur. */
  lemma {:induction false} DedupFirstOccurrenceOrder<T(!new)>(xs: seq<T>, i: int, j: int)
    requires 0 <= i < j < |Dedup(xs)|
    ensures FirstIndex(xs, Dedup(xs)[i]) < FirstIndex(xs, Dedup(xs)[j])
    decreases |xs|
  {
    var init := xs[..|xs| - 1];
    var d := Dedup(init);
    var last := xs[|xs| - 1];
    var a, b := Dedup(xs)[i], Dedup(xs)[j];
    if last in d || j < |d| {
      assert a == d[i] && b == d[j];
      DedupFirstOccurrenceOrder(init, i, j);
      FirstIndexOfPrefix(xs, |xs| - 1, a);
      FirstIndexOfPrefix(xs, |xs| - 1, b);
    } else {
      assert b == last && b !in init;
      assert a == d[i] && a in init;
      FirstIndexOfPrefix(xs, |xs| - 1, a);
      assert FirstIndex(xs, b) == |xs| - 1;
    }
  }

  /** `normalizeTags`: split text on ',', trim, drop empties, lower-case, keep first occurrences. */
  function NormalizeTags(input: TagsInput): (r: seq<string>)
    ensures Distinct(r)
    ensures forall k :: 0 <= k < |r| ==> IsCleanTag(r[k])
  {
    var cleaned := CleanTags(RawTags(input));
    var r := Dedup(cleaned);
    assert forall k :: 0 <= k < |r| ==> r[k] in cleaned;
    r
  }

  /**
    * The normalised tags keep the order of the raw entries: of two tags, the
    * earlier is the one whose first raw entry that cleans to it comes first.
    */
  lemma NormalizeTagsOrder(input: TagsInput, i: int, j: int)
    requires 0 <= i < j < |NormalizeTags(input)|
    ensures var r := NormalizeTags(input);
      r[i] in CleanTags(RawTags(input)) && r[j] in CleanTags(RawTags(input))
      && FirstSource(CleanTag, RawTags(input), r[i]) < FirstSource(CleanTag, RawTags(input), r[j])
  {
    var cleaned := CleanTags(RawTags(input));
    var r := NormalizeTags(input);
    assert r == Dedup(cleaned);
    DedupFirstOccurrenceOrder(cleaned, i, j);
    FilterMapFirstOrder(CleanTag, RawTags(input), r[i], r[j]);
  }

  /** The normalised tags are exactly the non-blank raw tags, trimmed and lower-cased. */
  lemma NormalizeTagsMembers(input: TagsInput, t: string)
    ensures t in NormalizeTags(input) <==> exists j :: CleansTo(RawTags(input), j, t)
  {
    CleanTagsMembers(RawTags(input), t);
  }

  lemma CleanTagOfClean(t: string)
    requires IsCleanTag(t)
    ensures CleanTag(t) == Some(t)
  {
    TrimOfTrimmed(t);
    ToLowerFacts(t);
  }

  lemma CleanTagsCons(x: string, tail: seq<string>)
    requires IsCleanTag(x)
    ensures CleanTags([x] + tail) == [x] + CleanTags(tail)
  {
    CleanTagOfClean(x);
    assert ([x] + tail)[1..] == tail;
    assert FilterMap(CleanTag, [x] + tail) == OptionToSeq(CleanTag(x)) + FilterMap(CleanTag, tail);
  }

  lemma {:induction false} CleanTagsOfClean(xs: seq<string>)
    requires forall k :: 0 <= k < |xs| ==> IsCleanTag(xs[k])
    ensures CleanTags(xs) == xs
    decreases |xs|
  {
    if xs != [] {
      var tail := xs[1..];
      assert forall k :: 0 <= k < |tail| ==> IsCleanTag(tail[k]) by {
        forall k | 0 <= k < |tail| ensures IsCleanTag(tail[k]) {
          assert tail[k] == xs[k + 1];
        }
      }
      CleanTagsOfClean(tail);
      assert xs == [xs[0]] + tail;
      CleanTagsCons(xs[0], tail);
    }
  }

  /** Normalising tags that are already normal changes nothing. */
  lemma NormalizeTagsIdempotent(input: TagsInput)
    ensures NormalizeTags(TagArray(NormalizeTags(input))) == NormalizeTags(input)
  {
    var r := NormalizeTags(input);
    CleanTagsOfClean(r);
    DedupOfDistinct(r);
  }

  /** `normalizeAccent`: only a whitelisted accent survives. */
  function NormalizeAccent(accent: Option<string>): (r: Option<string>)
    ensures r.Some? <==> accent.Some? && accent.value in MoodColorAccents
    ensures r.Some? ==> r == accent
  {
    match accent
    case None => None
    case Some(a) => if a == "" then None else if a in MoodColorAccents then Some(a) else None
  }

  /** The string is one or more '?' (legacy broken icons). */
  predicate AllQuestionMarks(s: string) {
    |s| > 0 && forall i :: 0 <= i < |s| ==> s[i] == '?'
  }

  /** An icon the normaliser keeps. */
  predicate IsCleanIcon(s: string) {
    s != "" && IsTrimmed(s) && !AllQuestionMarks(s)
  }

  /** `normalizeIcon`: absent, blank and all-'?' icons are dropped, the rest is trimmed. */
  function NormalizeIcon(icon: Option<string>): (r: Option<string>)
    ensures r.None? <==> icon.None? || !IsCleanIcon(Trim(icon.value))
    ensures r.Some? ==> r.value == Trim(icon.value) && IsCleanIcon(r.value)
  {
    match icon
    case None => None
    case Some(s) =>
      // a blank icon trims to "", so it fails the first test below
      var trimmed := Trim(s);
      if trimmed == "" || AllQuestionMarks(trimmed) then None else Some(trimmed)
  }

  lemma NormalizeIconOfClean(s: string)
    requires IsCleanIcon(s)
    ensures NormalizeIcon(Some(s)) == Some(s)
  {
    TrimOfTrimmed(s);
  }

  /** `title.trim() || "Untitled"`. */
  function NormalizeTitle(title: string): (r: string)
    ensures r != "" && IsTrimmed(r)
    ensures Trim(title) == "" ==> r == "Untitled"
    ensures Trim(title) != "" ==> r == Trim(title)
  {
    var t := Trim(title);
    if t == "" then "Untitled" else t
  }

  lemma NormalizeTitleOfClean(title: string)
    requires title != "" && IsTrimmed(title)
    ensures NormalizeTitle(title) == title
  {
    TrimOfTrimmed(title);
  }

  /** `normalizeMoodDraft`. */
  function NormalizeMoodDraft(draft: MoodDraft): (r: MoodDraft)
    ensures r.title == NormalizeTitle(draft.title)
    ensures r.subtitle == Trim(draft.subtitle)
    ensures r.energyLevel == Finite(Clamp01(draft.energyLevel))
    ensures r.tags == NormalizeTags(TagArray(draft.tags))
    ensures r.icon == NormalizeIcon(draft.icon)
    ensures r.colorAccent == NormalizeAccent(draft.colorAccent)
  {
    MoodDraft(
      NormalizeTitle(draft.title),
      Trim(draft.subtitle),
      Finite(Clamp01(draft.energyLevel)),
      NormalizeTags(TagArray(draft.tags)),
      NormalizeIcon(draft.icon),
      NormalizeAccent(draft.colorAccent))
  }

  /** `normalizeMoodPatch`: each key the patch has is normalised, absent keys stay absent. */
  function NormalizeMoodPatch(patch: MoodPatch): (r: MoodPatch)
    ensures r.title.Some? <==> patch.title.Some?
    ensures r.subtitle.Some? <==> patch.subtitle.Some?
    ensures r.energyLevel.Some? <==> patch.energyLevel.Some?
    ensures r.tags.Some? <==> patch.tags.Some?
    ensures r.icon.Some? <==> patch.icon.Some?
    ensures r.colorAccent.Some? <==> patch.colorAccent.Some?
    ensures r.order == patch.order
    ensures patch.title.Some? ==> r.title.value == NormalizeTitle(patch.title.value)
    ensures patch.subtitle.Some? ==> r.subtitle.value == Trim(patch.subtitle.value)
    ensures patch.energyLevel.Some? ==> r.energyLevel.value == Finite(Clamp01(patch.energyLevel.value))
    ensures patch.tags.Some? ==> r.tags.value == NormalizeTags(TagArray(patch.tags.value))
    ensures patch.icon.Some? ==> r.icon.value == NormalizeIcon(patch.icon.value)
    ensures patch.colorAccent.Some? ==> r.colorAccent.value == NormalizeAccent(patch.colorAccent.value)
  {
    MoodPatch(
      if patch.title.Some? then Some(NormalizeTitle(patch.title.value)) else None,
      if patch.subtitle.Some? then Some(Trim(patch.subtitle.value)) else None,
      if patch.energyLevel.Some? then Some(Finite(Clamp01(patch.energyLevel.value))) else None,
      if patch.tags.Some? then Some(NormalizeTags(TagArray(patch.tags.value))) else None,
      // a present `undefined` icon stays `undefined`, which is what normalizeIcon gives for it
      if patch.icon.Some? then Some(NormalizeIcon(patch.icon.value)) else None,
      // a present `undefined` accent stays `undefined`, which is what normalizeAccent gives for it
      if patch.colorAccent.Some? then Some(NormalizeAccent(patch.colorAccent.value)) else None,
      patch.order)
  }

  /** A mood every field of which is in the form `normalizeMood` produces. */
  predicate IsNormalMood(m: Mood) {
    && m.title != "" && IsTrimmed(m.title)
    && IsTrimmed(m.subtitle)
    && m.energyLevel.Finite? && 0.0 <= m.energyLevel.r <= 1.0
    && Distinct(m.tags) && (forall k :: 0 <= k < |m.tags| ==> IsCleanTag(m.tags[k]))
    && (m.icon.Some? ==> IsCleanIcon(m.icon.value))
    && (m.colorAccent.Some? ==> m.colorAccent.value in MoodColorAccents)
  }

  /** `normalizeMood(mood, order)`: keeps the id, normalises the rest and sets `order`. */
  function NormalizeMood(mood: Mood, order: int): (r: Mood)
    ensures IsNormalMood(r)
    ensures r.id == mood.id && r.order == order
    ensures r.title == NormalizeTitle(mood.title)
    ensures r.subtitle == Trim(mood.subtitle)
    ensures r.energyLevel == Finite(Clamp01(mood.energyLevel))
    ensures r.tags == NormalizeTags(TagArray(mood.tags))
    ensures r.icon == NormalizeIcon(mood.icon)
    ensures r.colorAccent == NormalizeAccent(mood.colorAccent)
  {
    Mood(
      mood.id,
      NormalizeTitle(mood.title),
      Trim(mood.subtitle),
      Finite(Clamp01(mood.energyLevel)),
      NormalizeTags(TagArray(mood.tags)),
      NormalizeIcon(mood.icon),
      NormalizeAccent(mood.colorAccent),
      order)
  }

  /** A normal mood comes out of `normalizeMood` unchanged except for its position. */
  lemma NormalizeMoodOfNormal(m: Mood, order: int)
    requires IsNormalMood(m)
    ensures NormalizeMood(m, order) == m.(order := order)
  {
    assert NormalizeTitle(m.title) == m.title by {
      NormalizeTitleOfClean(m.title);
    }
    assert Trim(m.subtitle) == m.subtitle by {
      TrimOfTrimmed(m.subtitle);
    }
    assert NormalizeTags(TagArray(m.tags)) == m.tags by {
      CleanTagsOfClean(m.tags);
      DedupOfDistinct(m.tags);
    }
    assert NormalizeIcon(m.icon) == m.icon by {
      if m.icon.Some? {
        NormalizeIconOfClean(m.icon.value);
      }
    }
  }

  /** So normalising twice is normalising once. */
  lemma NormalizeMoodIdempotent(m: Mood, order: int)
    ensures NormalizeMood(NormalizeMood(m, order), order) == NormalizeMood(m, order)
  {
    NormalizeMoodOfNormal(NormalizeMood(m, order), order);
  }

  /** `normalizeSettings`: volume clamped (0.6 when missing), the four flags forced, `lastMoodId` kept. */
  function NormalizeSettings(s: LooseSettings): (r: Settings)
    ensures 0.0 <= r.volume <= 1.0
    ensures r.volume == Clamp01(if s.volume.Some? then s.volume.value else Finite(0.6))
    ensures r.rememberLastMood && !r.exitOnClose && !r.enableGlobalHotkeys && !r.autoplay
    ensures r.lastMoodId == s.lastMoodId
  {
    Settings(
      Clamp01(match s.volume case Some(v) => v case None => Finite(0.6)),
      true, false, false, false,
      s.lastMoodId)
  }

  /** Normalised settings normalise to themselves. */
  lemma NormalizeSettingsIdempotent(s: LooseSettings)
    ensures NormalizeSettings(Loosen(NormalizeSettings(s))) == NormalizeSettings(s)
  {
  }
}
