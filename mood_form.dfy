/**
  * The mood form: its six fields, the draft it submits, and the reset that
  * follows a submission when the form creates a new mood.
  */
module MoodForm {
  import opened Types
  import opened Strings
  import Validation

  /** `emptyDraft`: the fields of a form that creates a mood. */
  const EmptyDraft: MoodDraft := MoodDraft("", "", Finite(0.5), [], Some(""), None)

  /** `value ?? ""`. */
  function OrEmpty(o: Option<string>): (r: string)
    ensures o.Some? ==> r == o.value
    ensures o.None? ==> r == ""
  {
    match o
    case Some(s) => s
    case None => ""
  }

  /** `value || undefined` on a string. */
  function NonEmpty(s: string): (r: Option<string>)
    ensures r.None? <==> s == ""
    ensures r.Some? ==> r.value == s
  {
    if s == "" then None else Some(s)
  }

  /** One comma piece of the tag text: trimmed, or dropped when blank. */
  function TrimmedPiece(part: string): (r: Option<string>)
    ensures r.None? <==> Trim(part) == ""
    ensures r.Some? ==> r.value == Trim(part) && IsTrimmed(r.value)
  {
    var t := Trim(part);
    if t == "" then None else Some(t)
  }

  /** The pieces trimmed, the blank ones dropped, the rest kept in order. */
  function TrimmedParts(parts: seq<string>): (r: seq<string>)
    ensures |r| <= |parts|
    ensures forall k :: 0 <= k < |r| ==> r[k] != "" && IsTrimmed(r[k])
  {
    var r := Validation.FilterMap(TrimmedPiece, parts);
    forall k | 0 <= k < |r| ensures r[k] != "" && IsTrimmed(r[k]) {
      Validation.FilterMapOnlyFrom(TrimmedPiece, parts, r[k]);
    }
    r
  }

  /** Piece `j` is not blank and trims to `t`. */
  predicate TrimsTo(parts: seq<string>, j: int, t: string) {
    0 <= j < |parts| && Trim(parts[j]) == t != ""
  }

  /** A string is kept exactly when some piece is not blank and trims to it. */
  lemma TrimmedPartsMembers(parts: seq<string>, t: string)
    ensures t in TrimmedParts(parts) <==> exists j :: TrimsTo(parts, j, t)
  {
    if t in TrimmedParts(parts) {
      Validation.FilterMapOnlyFrom(TrimmedPiece, parts, t);
      var j :| 0 <= j < |parts| && TrimmedPiece(parts[j]) == Some(t);
      assert TrimsTo(parts, j, t);
    }
    if exists j :: TrimsTo(parts, j, t) {
      var j :| TrimsTo(parts, j, t);
      Validation.FilterMapKeeps(TrimmedPiece, parts, j, t);
    }
  }

  /** Trimming the pieces of a concatenation trims each part's pieces, in order. */
  lemma TrimmedPartsAppend(parts: seq<string>, more: seq<string>)
    ensures TrimmedParts(parts + more) == TrimmedParts(parts) + TrimmedParts(more)
  {
    Validation.FilterMapAppend(TrimmedPiece, parts, more);
  }

  /** A single piece gives its trimmed text, or nothing when it is blank. */
  lemma TrimmedPartsOne(part: string)
    ensures TrimmedParts([part]) == if Trim(part) == "" then [] else [Trim(part)]
  {
    assert [part][1..] == [];
  }

  /** The tags a form's tag text stands for: split on commas, trimmed, blanks dropped. */
  function ParseTags(text: string): (r: seq<string>)
    ensures forall k :: 0 <= k < |r| ==> r[k] != "" && IsTrimmed(r[k])
  {
    TrimmedParts(Split(text, ','))
  }

  /** A tag is parsed exactly when some comma piece of the text is not blank and trims to it. */
  lemma ParseTagsMembers(text: string, t: string)
    ensures t in ParseTags(text) <==> exists j :: TrimsTo(Split(text, ','), j, t)
  {
    var parts := Split(text, ',');
    assert ParseTags(text) == TrimmedParts(parts);
    TrimmedPartsMembers(parts, t);
    if t in ParseTags(text) {
      var j :| TrimsTo(parts, j, t);
      assert TrimsTo(Split(text, ','), j, t);
    }
  }

  /** A trimmed non-empty string behind one space trims back to itself. */
  lemma TrimPadded(t: string)
    requires t != "" && IsTrimmed(t)
    ensures Trim(" " + t) == t
  {
    assert (" " + t)[1..] == t;
    assert TrimStart(" " + t) == TrimStart(t) == t;
    TrimOfTrimmed(t);
  }

  /** Parts that each trim to a non-empty string come out as those strings. */
  lemma {:induction false} TrimmedPartsOfTrimmingTo(parts: seq<string>, tags: seq<string>)
    requires |parts| == |tags|
    requires forall k :: 0 <= k < |tags| ==> Trim(parts[k]) == tags[k] != ""
    ensures TrimmedParts(parts) == tags
    decreases |parts|
  {
    if parts != [] {
      var rest := parts[1..];
      TrimmedPartsOfTrimmingTo(rest, tags[1..]);
      assert TrimmedParts(rest) == tags[1..];
      TrimmedPartsOne(parts[0]);
      assert TrimmedParts([parts[0]]) == [tags[0]];
      TrimmedPartsAppend([parts[0]], rest);
      assert parts == [parts[0]] + rest;
      assert tags == [tags[0]] + tags[1..];
    }
  }

  /**
    * The tag text a form opens with (`tags.join(", ")`) parses back to the
    * same tags, provided each is non-empty, trimmed and free of commas.
    */
  lemma ParseTagsOfJoin(tags: seq<string>)
    requires forall k :: 0 <= k < |tags| ==> tags[k] != "" && IsTrimmed(tags[k]) && ',' !in tags[k]
    ensures ParseTags(Join(tags, ", ")) == tags
  {
    if tags == [] {
      assert Split("", ',') == [""];
    } else {
      var parts := Split(Join(tags, ", "), ',');
      JoinedParts(tags);
      forall k | 0 <= k < |tags| ensures Trim(parts[k]) == tags[k] {
        if k == 0 {
          TrimOfTrimmed(tags[0]);
        } else {
          TrimPadded(tags[k]);
        }
      }
      TrimmedPartsOfTrimmingTo(parts, tags);
    }
  }

  /** The pieces of `tags.join(", ")` split on commas: the first tag, then each further tag behind a space. */
  lemma JoinedParts(tags: seq<string>)
    requires tags != []
    requires forall k :: 0 <= k < |tags| ==> ',' !in tags[k]
    ensures var parts := Split(Join(tags, ", "), ',');
      && |parts| == |tags| && parts[0] == tags[0]
      && forall k :: 1 <= k < |tags| ==> parts[k] == " " + tags[k]
  {
    assert ", " == [','] + " ";
    SplitJoin(tags, ',', " ");
  }

  /** The fields of the empty draft are the blanks a cleared form holds, with energy 0.5. */
  lemma EmptyDraftCleared()
    ensures EmptyDraft.title == "" && EmptyDraft.subtitle == "" && EmptyDraft.energyLevel == Finite(0.5)
    ensures Join(EmptyDraft.tags, ", ") == "" && OrEmpty(EmptyDraft.icon) == "" && OrEmpty(EmptyDraft.colorAccent) == ""
  {
  }

  /** The draft `handleSubmit` passes on for the given field values. */
  function SubmitDraft(title: string, subtitle: string, energyLevel: JsNumber, tagsText: string,
                       icon: string, colorAccent: string): (d: MoodDraft)
    ensures d.title == title && d.subtitle == subtitle && d.energyLevel == energyLevel
    ensures d.tags == ParseTags(tagsText)
    ensures d.icon.None? <==> icon == ""
    ensures d.colorAccent.None? <==> colorAccent == ""
  {
    MoodDraft(title, subtitle, energyLevel, ParseTags(tagsText), NonEmpty(icon), NonEmpty(colorAccent))
  }

  /** The draft a form opened on `base` submits when nothing is edited. */
  function OpenedDraft(base: MoodDraft): MoodDraft {
    SubmitDraft(base.title, base.subtitle, base.energyLevel, Join(base.tags, ", "), OrEmpty(base.icon), OrEmpty(base.colorAccent))
  }

  /** Submitting an untouched form gives back its draft, when the draft's tags and optional fields survive the text fields. */
  lemma OpenedDraftRoundTrip(base: MoodDraft)
    requires forall k :: 0 <= k < |base.tags| ==> base.tags[k] != "" && IsTrimmed(base.tags[k]) && ',' !in base.tags[k]
    requires base.icon != Some("") && base.colorAccent != Some("")
    ensures OpenedDraft(base) == base
  {
    ParseTagsOfJoin(base.tags);
  }

  class MoodForm {
    /** The draft the form was opened on, if any (`initial`). */
    const initial: Option<MoodDraft>
    var title: string
    var subtitle: string
    var energyLevel: JsNumber
    var tagsText: string
    var icon: string
    var colorAccent: string

    /** Holds the fields of `base`, which is `initial` or `emptyDraft`. */
    predicate Shows(base: MoodDraft)
      reads this
    {
      && title == base.title && subtitle == base.subtitle && energyLevel == base.energyLevel
      && tagsText == Join(base.tags, ", ") && icon == OrEmpty(base.icon) && colorAccent == OrEmpty(base.colorAccent)
    }

    /** The accent is blank or one of the accents. */
    predicate AccentValid()
      reads this
    {
      colorAccent == "" || colorAccent in MoodColorAccents
    }

    constructor(initial: Option<MoodDraft>)
      ensures this.initial == initial
      ensures Shows(if initial.Some? then initial.value else EmptyDraft)
    {
      this.initial := initial;
      var base := if initial.Some? then initial.value else EmptyDraft;
      title := base.title;
      subtitle := base.subtitle;
      energyLevel := base.energyLevel;
      tagsText := Join(base.tags, ", ");
      icon := OrEmpty(base.icon);
      colorAccent := OrEmpty(base.colorAccent);
    }

    /**
      * `handleSubmit`: the title input is `required`, so while it is empty
      * the browser does not submit and nothing happens (`None`). Otherwise
      * the draft of the current fields is handed to `onSubmit`, whose
      * outcome is `submitOk`. Once it has succeeded, a form without
      * `initial` clears its fields (energy back to 0.5); an edit form, or a
      * rejected submission, leaves the fields as typed.
      */
    method HandleSubmit(submitOk: bool) returns (draft: Option<MoodDraft>)
      modifies this
      ensures draft.None? <==> old(title) == ""
      ensures draft.None? ==> unchanged(this)
      ensures draft.Some? ==> draft.value == SubmitDraft(old(title), old(subtitle), old(energyLevel), old(tagsText), old(icon), old(colorAccent))
      ensures draft.Some? && submitOk && initial.None? ==> Shows(EmptyDraft)
      ensures draft.Some? && (!submitOk || initial.Some?) ==> unchanged(this)
    {
      if title == "" {
        return None;
      }
      draft := Some(SubmitDraft(title, subtitle, energyLevel, tagsText, icon, colorAccent));
      if submitOk && initial.None? {
        Clear();
      }
    }

    /** The reset after submitting a new mood: blank fields, energy back to 0.5. */
    method Clear()
      modifies this
      ensures Shows(EmptyDraft)
    {
      title := "";
      subtitle := "";
      energyLevel := Finite(0.5);
      tagsText := "";
      icon := "";
      colorAccent := "";
      EmptyDraftCleared();
    }

    /** The accent selector: blank clears, a listed accent is taken, anything else is ignored. */
    method SelectAccent(value: string)
      modifies this
      ensures value == "" ==> colorAccent == ""
      ensures value != "" && value in MoodColorAccents ==> colorAccent == value
      ensures value != "" && value !in MoodColorAccents ==> colorAccent == old(colorAccent)
      ensures old(AccentValid()) ==> AccentValid()
      ensures title == old(title) && subtitle == old(subtitle) && energyLevel == old(energyLevel)
      ensures tagsText == old(tagsText) && icon == old(icon)
    {
      if value == "" {
        colorAccent := "";
      } else if value in MoodColorAccents {
        colorAccent := value;
      }
    }
  }
}
