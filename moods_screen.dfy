/**
  * The logic of the moods screen: moving one mood onto another's place by
  * drag and drop, and the search filter over titles and tags.
  */
module MoodsScreen {
  import opened Types
  import opened Strings
  import opened Validation
  import MoodRepository
  import MoodForm

  /** `toDraft`: the editable fields of a mood. */
  function ToDraft(m: Mood): (d: MoodDraft)
    ensures d.title == m.title && d.subtitle == m.subtitle && d.energyLevel == m.energyLevel
    ensures d.tags == m.tags && d.icon == m.icon && d.colorAccent == m.colorAccent
  {
    MoodDraft(m.title, m.subtitle, m.energyLevel, m.tags, m.icon, m.colorAccent)
  }

  /** The patch `onUpdate(mood.id, draft)` sends: every key of the draft present, `order` absent. */
  function DraftPatch(d: MoodDraft): (p: MoodPatch)
    ensures p.order.None?
    ensures p.title == Some(d.title) && p.tags == Some(d.tags) && p.icon == Some(d.icon)
  {
    MoodPatch(Some(d.title), Some(d.subtitle), Some(d.energyLevel), Some(d.tags), Some(d.icon), Some(d.colorAccent), None)
  }

  /**
    * Opening the edit form on a stored mood and saving it untouched leaves the
    * mood as it was, as long as none of its tags holds a comma.
    */
  lemma SaveUntouchedEditKeepsMood(m: Mood)
    requires IsNormalMood(m)
    requires forall k :: 0 <= k < |m.tags| ==> ',' !in m.tags[k]
    ensures var d := MoodForm.OpenedDraft(ToDraft(m));
      NormalizeMood(MoodRepository.ApplyPatch(m, NormalizeMoodPatch(DraftPatch(d))), m.order) == m
  {
    var base := ToDraft(m);
    assert base.icon != Some("");
    assert forall k :: 0 <= k < |base.tags| ==> base.tags[k] != "" && IsTrimmed(base.tags[k]);
    MoodForm.OpenedDraftRoundTrip(base);
    var patched := MoodRepository.ApplyPatch(m, NormalizeMoodPatch(DraftPatch(base)));
    NormalizeMoodOfNormal(m, m.order);
    assert patched == NormalizeMood(m, m.order);
  }

  // ---------------------------------------------------------------------
  // moveItem
  // ---------------------------------------------------------------------

  /** Both ids are in the list, at different positions: the case in which `moveItem` splices. */
  predicate Moves(list: seq<Mood>, fromId: string, toId: string) {
    var from := MoodRepository.FindById(list, fromId);
    var to := MoodRepository.FindById(list, toId);
    from.Some? && to.Some? && from.value != to.value
  }

  /** `xs` without the element at `i`, as `splice(i, 1)` leaves it. */
  function RemoveAt<T>(xs: seq<T>, i: nat): (r: seq<T>)
    requires i < |xs|
    ensures |r| == |xs| - 1
    ensures multiset(r) + multiset{xs[i]} == multiset(xs)
  {
    assert xs == xs[..i] + [xs[i]] + xs[i + 1..];
    xs[..i] + xs[i + 1..]
  }

  /** `splice(from, 1)` followed by `splice(to, 0, item)`. */
  function Move<T>(xs: seq<T>, from: nat, to: nat): (r: seq<T>)
    requires from < |xs| && to < |xs|
    ensures |r| == |xs|
    ensures multiset(r) == multiset(xs)
  {
    var rest := RemoveAt(xs, from);
    assert rest == rest[..to] + rest[to..];
    rest[..to] + [xs[from]] + rest[to..]
  }

  lemma MoveIds(xs: seq<Mood>, from: nat, to: nat)
    requires from < |xs| && to < |xs|
    ensures Ids(Move(xs, from, to)) == Move(Ids(xs), from, to)
  {
    var rest := RemoveAt(xs, from);
    assert Ids(rest) == RemoveAt(Ids(xs), from) by {
      IdsAppend(xs[..from], xs[from + 1..]);
    }
    IdsAppend(rest[..to], [xs[from]]);
    IdsAppend(rest[..to] + [xs[from]], rest[to..]);
  }

  lemma IdsAppend(a: seq<Mood>, b: seq<Mood>)
    ensures Ids(a + b) == Ids(a) + Ids(b)
  {
  }

  /**
    * `moveItem`: take the mood with id `fromId` out and insert it where the
    * mood with id `toId` was; the list itself when either id is missing or
    * both name the same position.
    */
  function MoveItem(list: seq<Mood>, fromId: string, toId: string): (r: seq<Mood>)
    ensures |r| == |list|
    ensures !Moves(list, fromId, toId) ==> r == list
  {
    if !Moves(list, fromId, toId) then list
    else Move(list, MoodRepository.FindById(list, fromId).value, MoodRepository.FindById(list, toId).value)
  }

  /** The moved mood ends up at the target's former index. */
  lemma MoveItemPlacesItem(list: seq<Mood>, fromId: string, toId: string)
    requires Moves(list, fromId, toId)
    ensures var to := MoodRepository.FindById(list, toId).value;
      MoveItem(list, fromId, toId)[to].id == fromId
  {
  }

  /** Every other mood keeps its relative order: removing the moved mood from both lists gives the same list. */
  lemma MoveItemKeepsOthersInOrder(list: seq<Mood>, fromId: string, toId: string)
    requires Moves(list, fromId, toId)
    ensures var from := MoodRepository.FindById(list, fromId).value;
      var to := MoodRepository.FindById(list, toId).value;
      RemoveAt(MoveItem(list, fromId, toId), to) == RemoveAt(list, from)
  {
    var from := MoodRepository.FindById(list, fromId).value;
    var to := MoodRepository.FindById(list, toId).value;
    var rest := RemoveAt(list, from);
    var r := MoveItem(list, fromId, toId);
    assert r == rest[..to] + [list[from]] + rest[to..];
    assert r[..to] == rest[..to];
    assert r[to + 1..] == rest[to..];
    assert rest == rest[..to] + rest[to..];
  }

  /** The result is a permutation of the list. */
  lemma MoveItemPermutation(list: seq<Mood>, fromId: string, toId: string)
    ensures multiset(MoveItem(list, fromId, toId)) == multiset(list)
  {
  }

  /** The list changes exactly when `moveItem` splices, so the identity test in `handleDrop` is a change test. */
  lemma MoveItemChangesIffMoves(list: seq<Mood>, fromId: string, toId: string)
    ensures MoveItem(list, fromId, toId) != list <==> Moves(list, fromId, toId)
  {
    if Moves(list, fromId, toId) {
      var from := MoodRepository.FindById(list, fromId).value;
      var to := MoodRepository.FindById(list, toId).value;
      MoveItemPlacesItem(list, fromId, toId);
      assert list[to].id == toId;
      assert fromId != toId;
    }
  }

  /** What `handleDrop` leads to: the dragged id afterwards and the id list sent to `onReorder`, if any. */
  datatype DropOutcome = DropOutcome(dragging: Option<string>, reorderRequest: Option<seq<string>>)

  /**
    * `handleDrop(targetId)`: nothing without a (truthy) dragged id; otherwise
    * the drag ends, and the new id order is sent when the list changed.
    */
  function HandleDrop(moods: seq<Mood>, dragging: Option<string>, targetId: string): (o: DropOutcome)
    ensures (dragging.None? || dragging == Some("")) ==> o == DropOutcome(dragging, None)
    ensures dragging.Some? && dragging.value != "" ==>
      && o.dragging.None?
      && (o.reorderRequest.Some? <==> MoveItem(moods, dragging.value, targetId) != moods)
      && (o.reorderRequest.Some? ==> o.reorderRequest.value == Ids(MoveItem(moods, dragging.value, targetId)))
  {
    match dragging
    case None => DropOutcome(dragging, None)
    case Some(fromId) =>
      if fromId == "" then DropOutcome(dragging, None)
      else
        MoveItemChangesIffMoves(moods, fromId, targetId);
        var reordered := MoveItem(moods, fromId, targetId);
        DropOutcome(None, if Moves(moods, fromId, targetId) then Some(Ids(reordered)) else None)
  }

  /** A requested order names the same moods as before, each as often. */
  lemma DropRequestIsPermutation(moods: seq<Mood>, fromId: string, targetId: string)
    ensures multiset(Ids(MoveItem(moods, fromId, targetId))) == multiset(Ids(moods))
  {
    if Moves(moods, fromId, targetId) {
      MoveIds(moods, MoodRepository.FindById(moods, fromId).value, MoodRepository.FindById(moods, targetId).value);
    }
  }

  // ---------------------------------------------------------------------
  // Search
  // ---------------------------------------------------------------------

  /** Some tag of the mood contains `q` once lower-cased (`tags.some(...)`). */
  predicate SomeTagContains(tags: seq<string>, q: string) {
    exists k :: 0 <= k < |tags| && Contains(ToLower(tags[k]), q)
  }

  /** The mood matches the lower-cased query by title or by a tag. */
  predicate Matches(m: Mood, q: string) {
    Contains(ToLower(m.title), q) || SomeTagContains(m.tags, q)
  }

  /** Every mood matches the empty query, since every string contains it. */
  lemma MatchesEmpty(m: Mood)
    ensures Matches(m, "")
  {
    assert "" <= ToLower(m.title);
  }

  /** A mood matches a query its lower-cased title contains, and one any lower-cased tag contains. */
  lemma MatchesByTitleOrTag(m: Mood, q: string, k: nat)
    requires k < |m.tags| && Contains(ToLower(m.tags[k]), q)
    ensures Matches(m, q)
    ensures Contains(ToLower(m.title), q) ==> Matches(m, q)
  {
  }

  /** `moods.filter(...)` with the match test, in list order. */
  function FilterMatching(moods: seq<Mood>, q: string): (r: seq<Mood>)
    ensures |r| <= |moods|
    decreases |moods|
  {
    if moods == [] then []
    else (if Matches(moods[0], q) then [moods[0]] else []) + FilterMatching(moods[1..], q)
  }

  /** The moods kept are exactly the matching ones. */
  lemma {:induction false} FilterMatchingMembers(moods: seq<Mood>, q: string)
    ensures forall m :: m in FilterMatching(moods, q) <==> m in moods && Matches(m, q)
    decreases |moods|
  {
    if moods != [] {
      FilterMatchingMembers(moods[1..], q);
      assert moods == [moods[0]] + moods[1..];
    }
  }

  /** Filtering distributes over concatenation, so the kept moods stay in list order. */
  lemma {:induction false} FilterMatchingAppend(a: seq<Mood>, b: seq<Mood>, q: string)
    ensures FilterMatching(a + b, q) == FilterMatching(a, q) + FilterMatching(b, q)
    decreases |a|
  {
    if a == [] {
      assert a + b == b;
    } else {
      var head := if Matches(a[0], q) then [a[0]] else [];
      assert (a + b)[0] == a[0];
      assert (a + b)[1..] == a[1..] + b;
      assert FilterMatching(a + b, q) == head + FilterMatching(a[1..] + b, q);
      FilterMatchingAppend(a[1..], b, q);
      assert FilterMatching(a, q) == head + FilterMatching(a[1..], q);
    }
  }

  /** Filtering on the empty query keeps every mood, so the blank-query shortcut changes nothing. */
  lemma {:induction false} FilterMatchingEmpty(moods: seq<Mood>)
    ensures FilterMatching(moods, "") == moods
    decreases |moods|
  {
    if moods != [] {
      MatchesEmpty(moods[0]);
      FilterMatchingEmpty(moods[1..]);
      assert moods == [moods[0]] + moods[1..];
    }
  }

  /** `filteredMoods`: the whole list for a blank query, else the moods matching its trimmed lower-cased form. */
  function FilterMoods(moods: seq<Mood>, query: string): (r: seq<Mood>)
    ensures ToLower(Trim(query)) == "" ==> r == moods
  {
    var q := ToLower(Trim(query));
    if q == "" then moods else FilterMatching(moods, q)
  }

  /** With a non-blank query, a mood is shown exactly when its title or one of its tags contains the query. */
  lemma FilterMoodsMembers(moods: seq<Mood>, query: string, m: Mood)
    requires ToLower(Trim(query)) != ""
    ensures m in FilterMoods(moods, query) <==> m in moods && Matches(m, ToLower(Trim(query)))
  {
    FilterMatchingMembers(moods, ToLower(Trim(query)));
  }

  /** The letter case of the query does not matter. */
  lemma FilterMoodsIgnoresCase(moods: seq<Mood>, query: string)
    ensures FilterMoods(moods, ToLower(query)) == FilterMoods(moods, query)
  {
    TrimToLower(query);
    ToLowerIdempotent(Trim(query));
    assert ToLower(Trim(ToLower(query))) == ToLower(Trim(query));
  }
}
