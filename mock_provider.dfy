/**
  * The placeholder source provider: three stream placeholders per mood, named
  * after a slug of the mood id, preceded in development builds by one local
  * test file.
  */
module MockProvider {
  import opened Types
  import opened Strings

  /** The characters a slug keeps: `[a-z0-9]`. */
  predicate IsSlugChar(c: char) {
    ('a' <= c <= 'z') || ('0' <= c <= '9')
  }

  /** Slug characters and single dashes between them, nothing else. */
  predicate IsSlug(s: string) {
    && (forall i :: 0 <= i < |s| ==> IsSlugChar(s[i]) || s[i] == '-')
    && (forall i :: 0 <= i < |s| - 1 ==> !(s[i] == '-' && s[i + 1] == '-'))
    && (s != [] ==> s[0] != '-' && s[|s| - 1] != '-')
  }

  /** Only slug characters and dashes, with no two dashes in a row. */
  predicate IsCollapsed(s: string) {
    && (forall i :: 0 <= i < |s| ==> IsSlugChar(s[i]) || s[i] == '-')
    && (forall i :: 0 <= i < |s| - 1 ==> !(s[i] == '-' && s[i + 1] == '-'))
  }

  /**
    * `replace(/[^a-z0-9]+/g, "-")`: every maximal run of other characters
    * becomes one dash. The rest of the result starts with a dash exactly when
    * the next character is outside the slug set, so the run continues there.
    */
  function Collapse(s: string): (r: string)
    ensures IsCollapsed(r)
    ensures r != [] <==> s != []
    ensures s != [] ==> (r[0] == '-' <==> !IsSlugChar(s[0]))
    decreases |s|
  {
    if s == [] then []
    else
      var rest := Collapse(s[1..]);
      if IsSlugChar(s[0]) then [s[0]] + rest
      else if rest != [] && rest[0] == '-' then rest
      else ['-'] + rest
  }

  /** `replace(/(^-|-$)/g, "")`: drop a leading dash and a trailing dash. */
  function StripDashes(s: string): (r: string)
    requires IsCollapsed(s)
    ensures IsSlug(r)
  {
    var a := if s != [] && s[0] == '-' then s[1..] else s;
    if a != [] && a[|a| - 1] == '-' then a[..|a| - 1] else a
  }

  /** `slugify`: lower-case, collapse runs of other characters to one dash, strip the ends. */
  function Slugify(value: string): (r: string)
    ensures IsSlug(r)
  {
    StripDashes(Collapse(ToLower(value)))
  }

  /** The slug characters of a string, in order. */
  function SlugChars(s: string): (r: string)
    ensures forall i :: 0 <= i < |r| ==> IsSlugChar(r[i])
    decreases |s|
  {
    if s == [] then []
    else if IsSlugChar(s[0]) then [s[0]] + SlugChars(s[1..])
    else SlugChars(s[1..])
  }

  lemma {:induction false} SlugCharsCollapse(s: string)
    ensures SlugChars(Collapse(s)) == SlugChars(s)
    decreases |s|
  {
    if s != [] {
      var rest := Collapse(s[1..]);
      SlugCharsCollapse(s[1..]);
      if IsSlugChar(s[0]) {
        assert ([s[0]] + rest)[1..] == rest;
      } else if rest != [] && rest[0] == '-' {
      } else {
        assert (['-'] + rest)[1..] == rest;
      }
    }
  }

  /** Only dashes are stripped, so no slug character is lost. */
  lemma StripDashesKeepsSlugChars(s: string)
    requires IsCollapsed(s)
    ensures SlugChars(StripDashes(s)) == SlugChars(s)
  {
    var a := if s != [] && s[0] == '-' then s[1..] else s;
    assert SlugChars(a) == SlugChars(s);
    if a != [] && a[|a| - 1] == '-' {
      SlugCharsDropLast(a);
    }
  }

  lemma {:induction false} SlugCharsDropLast(s: string)
    requires s != [] && !IsSlugChar(s[|s| - 1])
    ensures SlugChars(s[..|s| - 1]) == SlugChars(s)
    decreases |s|
  {
    if |s| > 1 {
      assert s[1..][..|s| - 2] == s[..|s| - 1][1..];
      SlugCharsDropLast(s[1..]);
    }
  }

  /** The slug keeps exactly the letters and digits of the lower-cased id, in order. */
  lemma SlugifyKeepsAlphanumerics(value: string)
    ensures SlugChars(Slugify(value)) == SlugChars(ToLower(value))
  {
    SlugCharsCollapse(ToLower(value));
    StripDashesKeepsSlugChars(Collapse(ToLower(value)));
  }

  lemma {:induction false} CollapseOfCollapsed(s: string)
    requires IsCollapsed(s)
    ensures Collapse(s) == s
    decreases |s|
  {
    if s != [] {
      assert IsCollapsed(s[1..]);
      CollapseOfCollapsed(s[1..]);
      assert [s[0]] + s[1..] == s;
    }
  }

  lemma SlugIsLowerCase(s: string)
    requires IsSlug(s)
    ensures ToLower(s) == s
  {
    ToLowerFacts(s);
  }

  /** A slug is its own slug, so `slugify` is idempotent. */
  lemma SlugifyOfSlug(s: string)
    requires IsSlug(s)
    ensures Slugify(s) == s
  {
    SlugIsLowerCase(s);
    CollapseOfCollapsed(s);
  }

  lemma SlugifyIdempotent(value: string)
    ensures Slugify(Slugify(value)) == Slugify(value)
  {
    SlugifyOfSlug(Slugify(value));
  }

  const DevSourceUri: string := "/audio/dev-test.mp3"

  /** Placeholder stream number `n` of a mood: a `stream` source whose id, label (`name`) and uri end in `n`. */
  function Placeholder(slug: string, n: nat): (r: AudioSource)
    ensures r.id == slug + "-stream-" + NatToString(n)
    ensures r.name == "Placeholder stream #" + NatToString(n)
    ensures r.kind == Stream
    ensures r.uri == "https://example.com/stream/" + slug + "-" + NatToString(n)
  {
    var k := NatToString(n);
    AudioSource(slug + "-stream-" + k, "Placeholder stream #" + k, Stream, "https://example.com/stream/" + slug + "-" + k)
  }

  lemma SmallNatToString()
    ensures NatToString(1) == "1" && NatToString(2) == "2" && NatToString(3) == "3"
  {
  }

  /**
    * `listSourcesForMood`; `dev` is the build's development flag. The promise
    * it returns never rejects, so the list is returned directly.
    */
  function ListSourcesForMood(moodId: string, dev: bool): (r: seq<AudioSource>)
    ensures |r| == if dev then 4 else 3
    ensures forall k :: 1 <= k <= 3 ==> r[|r| - 4 + k] == Placeholder(Slugify(moodId), k)
    ensures dev ==> r[0] == AudioSource(Slugify(moodId) + "-local-dev", "Local test audio", Local, DevSourceUri)
  {
    var slug := Slugify(moodId);
    var placeholders := [Placeholder(slug, 1), Placeholder(slug, 2), Placeholder(slug, 3)];
    if dev then [AudioSource(slug + "-local-dev", "Local test audio", Local, DevSourceUri)] + placeholders
    else placeholders
  }

  /** Outside DEV the list is the three placeholder streams `${slug}-stream-1` to `-3`, in that order. */
  lemma ThreePlaceholderStreams(moodId: string)
    ensures SourceIds(ListSourcesForMood(moodId, false))
      == [Slugify(moodId) + "-stream-1", Slugify(moodId) + "-stream-2", Slugify(moodId) + "-stream-3"]
    ensures forall k :: 1 <= k <= 3 ==>
      ListSourcesForMood(moodId, false)[k - 1].uri == "https://example.com/stream/" + Slugify(moodId) + "-" + NatToString(k)
    ensures forall s :: s in ListSourcesForMood(moodId, false) ==> s.kind == Stream
  {
    SmallNatToString();
    var slug := Slugify(moodId);
    var r := ListSourcesForMood(moodId, false);
    assert r == [Placeholder(slug, 1), Placeholder(slug, 2), Placeholder(slug, 3)];
    assert SourceIds(r) == [r[0].id, r[1].id, r[2].id];
    assert slug + "-stream-" + "1" == slug + "-stream-1";
    assert slug + "-stream-" + "2" == slug + "-stream-2";
    assert slug + "-stream-" + "3" == slug + "-stream-3";
  }

  /** What a development build adds: one local file in front of the same three streams. */
  lemma DevAddsOneLocalSource(moodId: string)
    ensures ListSourcesForMood(moodId, true)[1..] == ListSourcesForMood(moodId, false)
    ensures ListSourcesForMood(moodId, true)[0].kind == Local
    ensures ListSourcesForMood(moodId, true)[0].uri == DevSourceUri
    ensures forall s :: s in ListSourcesForMood(moodId, false) ==> s.kind == Stream
  {
  }

  /** Every id is the mood's slug followed by a suffix. */
  lemma SourceIdsStartWithSlug(moodId: string, dev: bool)
    ensures forall s :: s in ListSourcesForMood(moodId, dev) ==> Slugify(moodId) <= s.id
  {
  }

  lemma AppendInjective(slug: string, a: string, b: string)
    requires slug + a == slug + b
    ensures a == b
  {
    assert (slug + a)[|slug|..] == a;
    assert (slug + b)[|slug|..] == b;
  }

  /** The ids of one list are pairwise distinct. */
  lemma SourceIdsDistinct(moodId: string, dev: bool)
    ensures Distinct(SourceIds(ListSourcesForMood(moodId, dev)))
  {
    var slug := Slugify(moodId);
    var ids := SourceIds(ListSourcesForMood(moodId, dev));
    SmallNatToString();
    var suffixes := if dev then ["-local-dev", "-stream-1", "-stream-2", "-stream-3"]
                    else ["-stream-1", "-stream-2", "-stream-3"];
    assert forall i :: 0 <= i < |ids| ==> ids[i] == slug + suffixes[i];
    forall i, j | 0 <= i < j < |ids| ensures ids[i] != ids[j] {
      if ids[i] == ids[j] {
        AppendInjective(slug, suffixes[i], suffixes[j]);
      }
    }
  }
}
