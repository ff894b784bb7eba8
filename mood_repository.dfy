/**
  * The mood store of the main process (electron/storage/mood-repository.ts):
  * a list of moods kept sorted by `order` and renumbered on every read and
  * write, with create, update, delete, reorder, export and import.
  */
module MoodRepository {
  import opened Types
  import opened Validation
  import DefaultMoods

  // ---------------------------------------------------------------------
  // Sorting by `order` (a stable `Array.prototype.sort` with `a.order - b.order`)
  // ---------------------------------------------------------------------

  predicate SortedByOrder(xs: seq<Mood>) {
    forall i, j :: 0 <= i < j < |xs| ==> xs[i].order <= xs[j].order
  }

  /** Insert `m` in front of the first element whose order is not smaller. */
  function InsertByOrder(m: Mood, s: seq<Mood>): (r: seq<Mood>)
    ensures multiset(r) == multiset(s) + multiset{m}
    ensures |r| == |s| + 1
    decreases |s|
  {
    if s == [] then [m]
    else if m.order <= s[0].order then [m] + s
    else
      assert s == [s[0]] + s[1..];
      [s[0]] + InsertByOrder(m, s[1..])
  }

  lemma {:induction false} InsertKeepsSorted(m: Mood, s: seq<Mood>)
    requires SortedByOrder(s)
    ensures SortedByOrder(InsertByOrder(m, s))
    decreases |s|
  {
    if s != [] && m.order > s[0].order {
      var rest := InsertByOrder(m, s[1..]);
      InsertKeepsSorted(m, s[1..]);
      forall k | 0 <= k < |rest| ensures s[0].order <= rest[k].order {
        assert rest[k] in multiset(rest);
        if rest[k] != m {
          assert rest[k] in multiset(s[1..]);
        }
      }
    }
  }

  /** The moods sorted by `order`; moods with equal order keep their relative position. */
  function SortByOrder(xs: seq<Mood>): (r: seq<Mood>)
    ensures SortedByOrder(r)
    ensures multiset(r) == multiset(xs)
    ensures |r| == |xs|
    decreases |xs|
  {
    if xs == [] then []
    else
      var rest := SortByOrder(xs[1..]);
      InsertKeepsSorted(xs[0], rest);
      assert xs == [xs[0]] + xs[1..];
      InsertByOrder(xs[0], rest)
  }

  /** Sorting a list that is already sorted changes nothing. */
  lemma {:induction false} SortOfSorted(xs: seq<Mood>)
    requires SortedByOrder(xs)
    ensures SortByOrder(xs) == xs
    decreases |xs|
  {
    if xs != [] {
      SortOfSorted(xs[1..]);
      assert [xs[0]] + xs[1..] == xs;
    }
  }

  lemma IdsCons(m: Mood, s: seq<Mood>)
    ensures Ids([m] + s) == [m.id] + Ids(s)
  {
  }

  lemma {:induction false} InsertKeepsIds(m: Mood, s: seq<Mood>)
    ensures multiset(Ids(InsertByOrder(m, s))) == multiset(Ids(s)) + multiset{m.id}
    decreases |s|
  {
    if s == [] {
      assert Ids([m]) == [m.id];
    } else if m.order <= s[0].order {
      IdsCons(m, s);
    } else {
      InsertKeepsIds(m, s[1..]);
      IdsCons(s[0], InsertByOrder(m, s[1..]));
      IdsCons(s[0], s[1..]);
      assert [s[0]] + s[1..] == s;
    }
  }

  /** Sorting moves moods around but keeps every id as often as it was there. */
  lemma {:induction false} SortKeepsIds(xs: seq<Mood>)
    ensures multiset(Ids(SortByOrder(xs))) == multiset(Ids(xs))
    decreases |xs|
  {
    if xs != [] {
      var rest := SortByOrder(xs[1..]);
      assert SortByOrder(xs) == InsertByOrder(xs[0], rest);
      calc {
        multiset(Ids(SortByOrder(xs)));
        { InsertKeepsIds(xs[0], rest); }
        multiset(Ids(rest)) + multiset{xs[0].id};
        { SortKeepsIds(xs[1..]); }
        multiset(Ids(xs[1..])) + multiset{xs[0].id};
        { IdsCons(xs[0], xs[1..]); assert [xs[0]] + xs[1..] == xs; }
        multiset(Ids(xs));
      }
    }
  }

  // ---------------------------------------------------------------------
  // Renumbering
  // ---------------------------------------------------------------------

  /** Every mood is normal and its `order` is its index. */
  predicate IsNormalList(ms: seq<Mood>) {
    forall i :: 0 <= i < |ms| ==> IsNormalMood(ms[i]) && ms[i].order == i
  }

  predicate AllNormal(ms: seq<Mood>) {
    forall i :: 0 <= i < |ms| ==> IsNormalMood(ms[i])
  }

  /** Each mood normalised in place, with its index as its new `order`. */
  function Renumber(xs: seq<Mood>): (r: seq<Mood>)
    ensures |r| == |xs|
    ensures IsNormalList(r)
    ensures Ids(r) == Ids(xs)
    ensures forall i :: 0 <= i < |r| ==> r[i] == NormalizeMood(xs[i], i)
  {
    seq(|xs|, i requires 0 <= i < |xs| => NormalizeMood(xs[i], i))
  }

  /** What `write` stores and returns and what `list` returns: sorted by `order`, then renumbered. */
  function Normalized(ms: seq<Mood>): (r: seq<Mood>)
    ensures |r| == |ms|
    ensures IsNormalList(r)
    ensures multiset(Ids(r)) == multiset(Ids(ms))
    ensures Ids(r) == Ids(SortByOrder(ms))
    ensures forall i :: 0 <= i < |r| ==> r[i] == NormalizeMood(SortByOrder(ms)[i], i)
  {
    SortKeepsIds(ms);
    Renumber(SortByOrder(ms))
  }

  /** Each mood with its `order` set to its index and nothing else changed. */
  function Reindexed(ms: seq<Mood>): (r: seq<Mood>)
    ensures |r| == |ms|
    ensures Ids(r) == Ids(ms)
    ensures forall i :: 0 <= i < |ms| ==> r[i].order == i
  {
    seq(|ms|, i requires 0 <= i < |ms| => ms[i].(order := i))
  }

  lemma NormalListIsSorted(ms: seq<Mood>)
    requires IsNormalList(ms)
    ensures SortedByOrder(ms)
  {
  }

  /** Normal moods already in `order` order are only renumbered. */
  lemma NormalizedOfSortedNormal(ms: seq<Mood>)
    requires SortedByOrder(ms) && AllNormal(ms)
    ensures Normalized(ms) == Reindexed(ms)
  {
    SortOfSorted(ms);
    forall i | 0 <= i < |ms| ensures Normalized(ms)[i] == Reindexed(ms)[i] {
      NormalizeMoodOfNormal(ms[i], i);
    }
  }

  lemma ReindexedOfNormalList(ms: seq<Mood>)
    requires IsNormalList(ms)
    ensures Reindexed(ms) == ms
  {
  }

  /** A list as `write` leaves it is left as it is by another `write` (or by `list`). */
  lemma NormalizedOfNormalList(ms: seq<Mood>)
    requires IsNormalList(ms)
    ensures Normalized(ms) == ms
  {
    NormalListIsSorted(ms);
    NormalizedOfSortedNormal(ms);
    ReindexedOfNormalList(ms);
  }

  lemma NormalizedIdempotent(ms: seq<Mood>)
    ensures Normalized(Normalized(ms)) == Normalized(ms)
  {
    NormalizedOfNormalList(Normalized(ms));
  }

  // ---------------------------------------------------------------------
  // Helpers for the individual operations
  // ---------------------------------------------------------------------

  /** The mood `create` appends: the normalised draft under a fresh id, at position `order`. */
  function NewMood(id: string, draft: MoodDraft, order: int): (m: Mood)
    ensures IsNormalMood(m)
    ensures m.id == id && m.order == order
  {
    var base := NormalizeMoodDraft(draft);
    var m := Mood(id, base.title, base.subtitle, base.energyLevel, base.tags, base.icon, base.colorAccent, order);
    assert IsNormalMood(m) by {
      var t, i, c := NormalizeTags(TagArray(draft.tags)), NormalizeIcon(draft.icon), NormalizeAccent(draft.colorAccent);
      assert m.tags == t && Distinct(t) && forall k :: 0 <= k < |t| ==> IsCleanTag(t[k]);
      assert m.icon == i && (i.Some? ==> IsCleanIcon(i.value));
      assert m.colorAccent == c && (c.Some? ==> c.value in MoodColorAccents);
    }
    m
  }

  /** `{ ...mood, ...patch }`: every key present in the patch overrides the mood's field. */
  function ApplyPatch(m: Mood, p: MoodPatch): (r: Mood)
    ensures r.id == m.id
    ensures r.title == (if p.title.Some? then p.title.value else m.title)
    ensures r.subtitle == (if p.subtitle.Some? then p.subtitle.value else m.subtitle)
    ensures r.energyLevel == (if p.energyLevel.Some? then p.energyLevel.value else m.energyLevel)
    ensures r.tags == (if p.tags.Some? then p.tags.value else m.tags)
    ensures r.icon == (if p.icon.Some? then p.icon.value else m.icon)
    ensures r.colorAccent == (if p.colorAccent.Some? then p.colorAccent.value else m.colorAccent)
    ensures r.order == (if p.order.Some? then p.order.value else m.order)
    ensures p == MoodPatch(None, None, None, None, None, None, None) ==> r == m
  {
    Mood(
      m.id,
      if p.title.Some? then p.title.value else m.title,
      if p.subtitle.Some? then p.subtitle.value else m.subtitle,
      if p.energyLevel.Some? then p.energyLevel.value else m.energyLevel,
      if p.tags.Some? then p.tags.value else m.tags,
      if p.icon.Some? then p.icon.value else m.icon,
      if p.colorAccent.Some? then p.colorAccent.value else m.colorAccent,
      if p.order.Some? then p.order.value else m.order)
  }

  /** `findIndex` on the id: the first position holding it, if any. */
  function FindById(ms: seq<Mood>, id: string): (r: Option<nat>)
    ensures r.None? <==> forall i :: 0 <= i < |ms| ==> ms[i].id != id
    ensures r.Some? ==> r.value < |ms| && ms[r.value].id == id
    ensures r.Some? ==> forall i :: 0 <= i < r.value ==> ms[i].id != id
    decreases |ms|
  {
    if ms == [] then None
    else if ms[0].id == id then Some(0)
    else match FindById(ms[1..], id)
      case None => None
      case Some(i) => Some(i + 1)
  }

  /** The moods whose id is not `id`, as `delete` filters them. */
  function RemoveId(ms: seq<Mood>, id: string): (r: seq<Mood>)
    ensures |r| <= |ms|
    ensures forall m :: m in r <==> m in ms && m.id != id
    decreases |ms|
  {
    if ms == [] then []
    else (if ms[0].id == id then [] else [ms[0]]) + RemoveId(ms[1..], id)
  }

  lemma {:induction false} RemoveIdKeepsSorted(ms: seq<Mood>, id: string)
    requires SortedByOrder(ms)
    ensures SortedByOrder(RemoveId(ms, id))
    decreases |ms|
  {
    if ms != [] {
      RemoveIdKeepsSorted(ms[1..], id);
      var rest := RemoveId(ms[1..], id);
      assert forall k :: 0 <= k < |rest| ==> rest[k] in ms[1..];
    }
  }

  /** Removing drops every occurrence of `id` and keeps every other id exactly as often as it was there. */
  lemma {:induction false} RemoveIdCount(ms: seq<Mood>, id: string)
    ensures multiset(Ids(RemoveId(ms, id))) == multiset(Ids(ms))[id := 0]
    decreases |ms|
  {
    if ms != [] {
      var tail := RemoveId(ms[1..], id);
      var before := multiset(Ids(ms[1..]));
      RemoveIdCount(ms[1..], id);
      assert multiset(Ids(tail)) == before[id := 0];
      IdsCons(ms[0], ms[1..]);
      assert [ms[0]] + ms[1..] == ms;
      assert multiset(Ids(ms)) == multiset{ms[0].id} + before;
      DropAllCons(ms[0].id, before, id);
      if ms[0].id != id {
        assert RemoveId(ms, id) == [ms[0]] + tail;
        IdsCons(ms[0], tail);
      } else {
        assert RemoveId(ms, id) == tail;
      }
    }
  }

  lemma DropAllCons(a: string, m: multiset<string>, id: string)
    ensures (multiset{a} + m)[id := 0] == if a == id then m[id := 0] else multiset{a} + m[id := 0]
  {
  }

  /** Appending a normal mood numbered after the last keeps a list normal, so `write` keeps it as it is. */
  lemma AppendKeepsNormal(base: seq<Mood>, m: Mood)
    requires IsNormalList(base) && IsNormalMood(m) && m.order == |base|
    ensures IsNormalList(base + [m])
    ensures Normalized(base + [m]) == base + [m]
  {
    NormalizedOfNormalList(base + [m]);
  }

  /** Replacing one mood by a normalised one at the same position keeps a list normal. */
  lemma UpdateKeepsNormal(ms: seq<Mood>, i: nat, p: MoodPatch)
    requires IsNormalList(ms) && i < |ms|
    ensures var ms' := ms[i := NormalizeMood(ApplyPatch(ms[i], p), ms[i].order)];
      IsNormalList(ms') && Normalized(ms') == ms'
  {
    var nm := NormalizeMood(ApplyPatch(ms[i], p), ms[i].order);
    var ms' := ms[i := nm];
    assert IsNormalMood(nm) && nm.order == i;
    assert IsNormalList(ms') by {
      forall k | 0 <= k < |ms'| ensures IsNormalMood(ms'[k]) && ms'[k].order == k {
        if k != i {
          assert ms'[k] == ms[k];
        }
      }
    }
    NormalizedOfNormalList(ms');
  }

  // ---------------------------------------------------------------------
  // Reorder
  // ---------------------------------------------------------------------

  /** The moods keyed by id, as `reorder` builds its map: the last mood with an id wins. */
  function ById(ms: seq<Mood>): (r: map<string, Mood>)
    ensures forall id :: id in r <==> id in Ids(ms)
    ensures forall id :: id in r ==> r[id] in ms && r[id].id == id
    decreases |ms|
  {
    if ms == [] then map[]
    else
      var init := ms[..|ms| - 1];
      var last := ms[|ms| - 1];
      assert Ids(ms) == Ids(init) + [last.id];
      ById(init)[last.id := last]
  }

  /** With distinct ids the map holds each mood under its own id. */
  lemma {:induction false} ByIdOfDistinct(ms: seq<Mood>, i: nat)
    requires Distinct(Ids(ms)) && i < |ms|
    ensures ById(ms)[ms[i].id] == ms[i]
    decreases |ms|
  {
    var init := ms[..|ms| - 1];
    if i < |ms| - 1 {
      assert Ids(init) == Ids(ms)[..|ms| - 1];
      ByIdOfDistinct(init, i);
    }
  }

  /** The map's key order: ids in order of first occurrence. */
  function KeyOrder(ms: seq<Mood>): (r: seq<string>)
    ensures Distinct(r)
    ensures forall id :: id in r <==> id in Ids(ms)
  {
    Dedup(Ids(ms))
  }

  /** The requested ids that name a known mood, repetitions included, in request order. */
  function KeepKnown(ids: seq<string>, known: set<string>): (r: seq<string>)
    ensures forall x :: x in r <==> x in ids && x in known
    decreases |ids|
  {
    if ids == [] then []
    else
      var init := ids[..|ids| - 1];
      var last := ids[|ids| - 1];
      assert forall x :: x in ids <==> x in init || x == last;
      KeepKnown(init, known) + (if last in known then [last] else [])
  }

  /** The moods the first loop of `reorder` takes: known ids, first request of each, in request order. */
  function PickedIds(orderedIds: seq<string>, known: set<string>): (r: seq<string>)
    ensures Distinct(r)
    ensures forall x :: x in r <==> x in orderedIds && x in known
  {
    Dedup(KeepKnown(orderedIds, known))
  }

  /** `xs` without the elements of `s`, in order. */
  function Without(xs: seq<string>, s: set<string>): (r: seq<string>)
    ensures forall x :: x in r <==> x in xs && x !in s
    ensures |r| <= |xs|
    decreases |xs|
  {
    if xs == [] then []
    else (if xs[0] in s then [] else [xs[0]]) + Without(xs[1..], s)
  }

  lemma {:induction false} WithoutNothing(xs: seq<string>)
    ensures Without(xs, {}) == xs
    decreases |xs|
  {
    if xs != [] {
      WithoutNothing(xs[1..]);
      assert [xs[0]] + xs[1..] == xs;
    }
  }

  lemma {:induction false} WithoutTwice(xs: seq<string>, s: set<string>, t: set<string>)
    ensures Without(Without(xs, s), t) == Without(xs, s + t)
    decreases |xs|
  {
    if xs != [] {
      WithoutTwice(xs[1..], s, t);
      var w := Without(xs[1..], s);
      if xs[0] in s {
        assert Without(xs, s) == w;
      } else {
        assert Without(xs, s) == [xs[0]] + w;
        assert ([xs[0]] + w)[1..] == w;
      }
    }
  }

  lemma {:induction false} WithoutKeepsDistinct(xs: seq<string>, s: set<string>)
    requires Distinct(xs)
    ensures Distinct(Without(xs, s))
    decreases |xs|
  {
    if xs != [] {
      assert Distinct(xs[1..]);
      WithoutKeepsDistinct(xs[1..], s);
      assert xs[0] !in xs[1..];
    }
  }

  function Elems(xs: seq<string>): set<string> {
    set x | x in xs
  }

  /** The state of the first `reorder` loop after `k` requests. */
  ghost predicate TakeState(byId: map<string, Mood>, keys: seq<string>, orderedIds: seq<string>, k: nat,
                            picked: seq<string>, remaining: map<string, Mood>, remainingKeys: seq<string>, reordered: seq<Mood>)
  {
    && k <= |orderedIds|
    && picked == PickedIds(orderedIds[..k], byId.Keys)
    && remaining == byId - Elems(picked)
    && remainingKeys == Without(keys, Elems(picked))
    && reordered == Lookup(byId, picked)
  }

  /** One step of the first `reorder` loop, on the map and its key order. */
  lemma TakeStep(byId: map<string, Mood>, keys: seq<string>, orderedIds: seq<string>, k: nat,
                 picked: seq<string>, remaining: map<string, Mood>, remainingKeys: seq<string>, reordered: seq<Mood>)
    requires k < |orderedIds|
    requires TakeState(byId, keys, orderedIds, k, picked, remaining, remainingKeys, reordered)
    ensures var id := orderedIds[k];
      if id in remaining then
        TakeState(byId, keys, orderedIds, k + 1, picked + [id], remaining - {id},
                  Without(remainingKeys, {id}), reordered + [remaining[id]])
      else
        TakeState(byId, keys, orderedIds, k + 1, picked, remaining, remainingKeys, reordered)
  {
    var id := orderedIds[k];
    PickStep(orderedIds, k, byId.Keys);
    ElemsSnoc(picked, id);
    WithoutTwice(keys, Elems(picked), {id});
    if id in byId && id !in picked {
      LookupSnoc(byId, picked, id);
    }
  }

  lemma ElemsSnoc(xs: seq<string>, x: string)
    ensures Elems(xs + [x]) == Elems(xs) + {x}
    ensures forall y :: y in Elems(xs) <==> y in xs
  {
  }

  lemma LookupSnoc(byId: map<string, Mood>, ids: seq<string>, x: string)
    requires forall y :: y in ids ==> y in byId
    requires x in byId
    ensures Lookup(byId, ids) + [byId[x]] == Lookup(byId, ids + [x])
  {
  }

  lemma LookupAppend(byId: map<string, Mood>, a: seq<string>, b: seq<string>)
    requires forall x :: x in a ==> x in byId
    requires forall x :: x in b ==> x in byId
    ensures Lookup(byId, a + b) == Lookup(byId, a) + Lookup(byId, b)
  {
  }

  /** The state of the second `reorder` loop after `j` of the keys left. */
  ghost predicate RestState(byId: map<string, Mood>, picked: seq<string>, remaining: map<string, Mood>,
                            remainingKeys: seq<string>, j: nat, reordered: seq<Mood>)
  {
    && j <= |remainingKeys|
    && remaining == byId - Elems(picked)
    && (forall x :: x in remainingKeys ==> x in remaining && x in byId)
    && (forall x :: x in picked ==> x in byId)
    && reordered == Lookup(byId, picked) + Lookup(byId, remainingKeys[..j])
  }

  /** Where the first loop ends, the second starts. */
  lemma RestStart(byId: map<string, Mood>, keys: seq<string>, orderedIds: seq<string>,
                  picked: seq<string>, remaining: map<string, Mood>, remainingKeys: seq<string>, reordered: seq<Mood>)
    requires forall x :: x in keys ==> x in byId
    requires TakeState(byId, keys, orderedIds, |orderedIds|, picked, remaining, remainingKeys, reordered)
    ensures RestState(byId, picked, remaining, remainingKeys, 0, reordered)
    ensures picked == PickedIds(orderedIds, byId.Keys)
    ensures remainingKeys == Without(keys, Elems(picked))
  {
    assert orderedIds[..|orderedIds|] == orderedIds;
    assert remainingKeys[..0] == [];
  }

  /** One step of the second `reorder` loop. */
  lemma RestStep(byId: map<string, Mood>, picked: seq<string>, remaining: map<string, Mood>,
                 remainingKeys: seq<string>, j: nat, reordered: seq<Mood>)
    requires j < |remainingKeys|
    requires RestState(byId, picked, remaining, remainingKeys, j, reordered)
    ensures remainingKeys[j] in remaining
    ensures RestState(byId, picked, remaining, remainingKeys, j + 1, reordered + [remaining[remainingKeys[j]]])
  {
    assert remainingKeys[j] in remainingKeys;
    assert remainingKeys[..j + 1] == remainingKeys[..j] + [remainingKeys[j]];
  }

  /** Where the second loop ends, every key has been collected. */
  lemma RestEnd(byId: map<string, Mood>, picked: seq<string>, remaining: map<string, Mood>,
                remainingKeys: seq<string>, reordered: seq<Mood>)
    requires RestState(byId, picked, remaining, remainingKeys, |remainingKeys|, reordered)
    ensures reordered == Lookup(byId, picked + remainingKeys)
  {
    assert remainingKeys[..|remainingKeys|] == remainingKeys;
    LookupAppend(byId, picked, remainingKeys);
  }

  /** The corrected reorder hands `write` a list it stores unchanged. */
  lemma ReorderWriteKeeps(current: seq<Mood>, orderedIds: seq<string>)
    requires IsNormalList(current)
    ensures Normalized(ReorderResult(current, orderedIds)) == ReorderResult(current, orderedIds)
  {
    var collected := Lookup(ById(current), ReorderedIds(current, orderedIds));
    var r := ReorderResult(current, orderedIds);
    forall i | 0 <= i < |r| ensures IsNormalMood(r[i]) && r[i].order == i {
      assert collected[i] in current;
      var k :| 0 <= k < |current| && current[k] == collected[i];
      assert IsNormalMood(current[k]);
    }
    NormalizedOfNormalList(r);
  }

  /** The ids `reorder` puts its moods in: the picked ids, then the rest in store order. */
  function ReorderedIds(current: seq<Mood>, orderedIds: seq<string>): (r: seq<string>)
    ensures forall x :: x in r ==> x in ById(current)
  {
    CollectOrder(ById(current).Keys, KeyOrder(current), orderedIds)
  }

  /**
    * The order the two loops of `reorder` take the map's keys in: the known
    * requested keys (the first request of each) and then the keys left, in
    * the map's order.
    */
  function CollectOrder(known: set<string>, keys: seq<string>, orderedIds: seq<string>): (r: seq<string>)
    ensures forall x :: x in r ==> x in known || x in keys
  {
    var picked := PickedIds(orderedIds, known);
    picked + Without(keys, Elems(picked))
  }

  /**
    * The two loops of `reorder`: take each requested mood still in the map
    * (deleting it there), then every mood left, in the map's key order.
    * `byId` is the map and `keys` its insertion order.
    */
  method CollectReordered(byId: map<string, Mood>, keys: seq<string>, orderedIds: seq<string>) returns (reordered: seq<Mood>)
    requires forall x :: x in keys ==> x in byId
    ensures reordered == Lookup(byId, CollectOrder(byId.Keys, keys, orderedIds))
  {
    var remaining := byId;
    var remainingKeys := keys;
    ghost var picked: seq<string> := [];
    reordered := [];
    var k := 0;
    assert Elems(picked) == {};
    WithoutNothing(keys);
    while k < |orderedIds|
      invariant TakeState(byId, keys, orderedIds, k, picked, remaining, remainingKeys, reordered)
    {
      var id := orderedIds[k];
      TakeStep(byId, keys, orderedIds, k, picked, remaining, remainingKeys, reordered);
      if id in remaining {
        reordered := reordered + [remaining[id]];
        remaining := remaining - {id};
        remainingKeys := Without(remainingKeys, {id});
        picked := picked + [id];
      }
      k := k + 1;
    }
    RestStart(byId, keys, orderedIds, picked, remaining, remainingKeys, reordered);
    var j := 0;
    while j < |remainingKeys|
      invariant RestState(byId, picked, remaining, remainingKeys, j, reordered)
    {
      RestStep(byId, picked, remaining, remainingKeys, j, reordered);
      reordered := reordered + [remaining[remainingKeys[j]]];
      j := j + 1;
    }
    RestEnd(byId, picked, remaining, remainingKeys, reordered);
  }

  /** The moods of a map under a list of its keys. */
  function Lookup(byId: map<string, Mood>, ids: seq<string>): (r: seq<Mood>)
    requires forall x :: x in ids ==> x in byId
    ensures |r| == |ids|
    ensures forall i :: 0 <= i < |ids| ==> r[i] == byId[ids[i]]
  {
    seq(|ids|, i requires 0 <= i < |ids| => byId[ids[i]])
  }

  lemma LookupIds(byId: map<string, Mood>, ids: seq<string>)
    requires forall x :: x in ids ==> x in byId && byId[x].id == x
    ensures Ids(Lookup(byId, ids)) == ids
  {
  }

  /**
    * The list `reorder` hands to `write`, as corrected: the collected moods
    * renumbered by their new position.
    */
  function ReorderResult(current: seq<Mood>, orderedIds: seq<string>): (r: seq<Mood>)
    ensures Ids(r) == ReorderedIds(current, orderedIds)
    ensures forall i :: 0 <= i < |r| ==> r[i].order == i
  {
    var ids := ReorderedIds(current, orderedIds);
    LookupIds(ById(current), ids);
    Reindexed(Lookup(ById(current), ids))
  }

  /**
    * `reorder` as the source writes it: the collected moods keep the `order`
    * they had, so `write` sorts them straight back.
    */
  function ReorderAsWritten(current: seq<Mood>, orderedIds: seq<string>): (r: seq<Mood>)
    ensures IsNormalList(r)
    ensures Ids(r) == Ids(SortByOrder(Lookup(ById(current), ReorderedIds(current, orderedIds))))
  {
    Normalized(Lookup(ById(current), ReorderedIds(current, orderedIds)))
  }

  /** With distinct ids, the reordered ids are a permutation of the store's ids. */
  lemma ReorderedIdsPermutation(current: seq<Mood>, orderedIds: seq<string>)
    requires Distinct(Ids(current))
    ensures var r := ReorderedIds(current, orderedIds);
      && Distinct(r)
      && (forall x :: x in r <==> x in Ids(current))
      && |r| == |current|
  {
    var known := ById(current).Keys;
    var picked := PickedIds(orderedIds, known);
    var ps := Elems(picked);
    var rest := Without(KeyOrder(current), ps);
    WithoutKeepsDistinct(KeyOrder(current), ps);
    DedupOfDistinct(Ids(current));
    var r := picked + rest;
    assert Distinct(r) by {
      forall i, j | 0 <= i < j < |r| ensures r[i] != r[j] {
        if j >= |picked| && i < |picked| {
          assert r[j] in rest && r[i] in ps;
        }
      }
    }
    DistinctSameElementsSameLength(r, Ids(current));
  }

  /** A list without repetitions has as many elements as its set. */
  lemma {:induction false} DistinctCard(a: seq<string>)
    requires Distinct(a)
    ensures |Elems(a)| == |a|
    decreases |a|
  {
    if a != [] {
      assert Distinct(a[1..]);
      DistinctCard(a[1..]);
      assert Elems(a) == {a[0]} + Elems(a[1..]);
      assert a[0] !in Elems(a[1..]);
    } else {
      assert Elems(a) == {};
    }
  }

  /** Two lists without repetitions that hold the same elements have the same length. */
  lemma DistinctSameElementsSameLength(a: seq<string>, b: seq<string>)
    requires Distinct(a) && Distinct(b)
    requires forall x :: x in a <==> x in b
    ensures |a| == |b|
  {
    DistinctCard(a);
    DistinctCard(b);
    assert Elems(a) == Elems(b);
  }

  /** Known ids come first, each once, in the order first requested; unknown ones are skipped. */
  lemma ReorderPutsRequestedFirst(current: seq<Mood>, orderedIds: seq<string>)
    ensures var picked := PickedIds(orderedIds, ById(current).Keys);
      && ReorderedIds(current, orderedIds)[..|picked|] == picked
      && picked == Dedup(KeepKnown(orderedIds, ById(current).Keys))
      && (forall x :: x in picked <==> x in orderedIds && x in Ids(current))
  {
  }

  /** The moods not requested follow in the order the store had them. */
  lemma ReorderKeepsRestInOrder(current: seq<Mood>, orderedIds: seq<string>)
    ensures var picked := PickedIds(orderedIds, ById(current).Keys);
      ReorderedIds(current, orderedIds)[|picked|..] == Without(KeyOrder(current), Elems(picked))
  {
  }

  /** With two moods, asking for them in swapped order names both, swapped. */
  lemma SwapReorderedIds(a: Mood, b: Mood)
    requires a.id != b.id
    ensures ReorderedIds([a, b], [b.id, a.id]) == [b.id, a.id]
  {
    var current := [a, b];
    assert Ids(current) == [a.id, b.id];
    var known := ById(current).Keys;
    assert a.id in known && b.id in known by {
      assert a.id in Ids(current) && b.id in Ids(current);
    }
    SwapPicked(a.id, b.id, known);
    assert KeyOrder(current) == [a.id, b.id] by {
      DedupOfDistinct(Ids(current));
    }
    SwapLeftover(a.id, b.id);
  }

  lemma SwapPicked(x: string, y: string, known: set<string>)
    requires x != y && x in known && y in known
    ensures PickedIds([y, x], known) == [y, x]
  {
    assert KeepKnown([y], known) == [y] by {
      assert [y][..0] == [];
    }
    assert KeepKnown([y, x], known) == [y, x] by {
      assert [y, x][..1] == [y];
    }
    DedupOfDistinct([y, x]);
  }

  lemma SwapLeftover(x: string, y: string)
    ensures Without([x, y], Elems([y, x])) == []
  {
    var gone := Elems([y, x]);
    assert x in gone && y in gone;
    assert Without([y], gone) == [] by {
      assert [y][1..] == [];
    }
    assert [x, y][1..] == [y];
  }

  /** Two normal moods given in swapped order sort back into their stored order. */
  lemma NormalizedOfSwap(a: Mood, b: Mood)
    requires IsNormalList([a, b])
    ensures Normalized([b, a]) == [a, b]
  {
    assert a.order == 0 && b.order == 1 by {
      assert [a, b][0] == a && [a, b][1] == b;
    }
    SortSwap(a, b);
    NormalListIsSorted([a, b]);
    SortOfSorted([a, b]);
    NormalizedOfNormalList([a, b]);
  }

  lemma SortSwap(a: Mood, b: Mood)
    requires a.order < b.order
    ensures SortByOrder([b, a]) == [a, b]
  {
    assert SortByOrder([a]) == [a] by {
      assert [a][1..] == [];
    }
    assert InsertByOrder(b, [a]) == [a, b] by {
      assert [a][1..] == [];
    }
    assert [b, a][1..] == [a];
  }

  /**
    * What the source's `reorder` does with two moods asked for in swapped
    * order: the list comes back as it was, while the corrected reorder puts
    * the second mood first.
    */
  lemma ReorderAsWrittenIgnoresSwap(a: Mood, b: Mood)
    requires IsNormalList([a, b]) && a.id != b.id
    ensures ReorderAsWritten([a, b], [b.id, a.id]) == [a, b]
    ensures ReorderResult([a, b], [b.id, a.id]) == [b.(order := 0), a.(order := 1)]
    ensures ReorderAsWritten([a, b], [b.id, a.id]) != ReorderResult([a, b], [b.id, a.id])
  {
    AsWrittenSwap(a, b);
    CorrectedSwap(a, b);
    assert [a, b][0].id != [b.(order := 0), a.(order := 1)][0].id;
  }

  /**
    * The same for any request: on a list as `write` leaves it, with distinct
    * ids, the source's `reorder` gives back the list it started from.
    */
  lemma ReorderAsWrittenChangesNothing(current: seq<Mood>, orderedIds: seq<string>)
    requires IsNormalList(current) && Distinct(Ids(current))
    ensures ReorderAsWritten(current, orderedIds) == current
  {
    var ids := ReorderedIds(current, orderedIds);
    ReorderedIdsPermutation(current, orderedIds);
    var looked := Lookup(ById(current), ids);
    LookupPermutation(current, ids);
    NormalListIsSorted(current);
    SortedUnique(current, SortByOrder(looked));
    SameSortSameNormalized(looked, current);
    NormalizedOfNormalList(current);
  }

  /** Lists that sort to the same sorted list normalise alike. */
  lemma SameSortSameNormalized(a: seq<Mood>, b: seq<Mood>)
    requires SortByOrder(a) == b && SortedByOrder(b)
    ensures Normalized(a) == Normalized(b)
  {
    SortOfSorted(b);
  }

  /** Looking up a permutation of the ids gives a permutation of the moods. */
  lemma LookupPermutation(current: seq<Mood>, ids: seq<string>)
    requires Distinct(Ids(current)) && Distinct(ids)
    requires forall x :: x in ids <==> x in Ids(current)
    ensures forall x :: x in ids ==> x in ById(current)
    ensures multiset(Lookup(ById(current), ids)) == multiset(current)
  {
    LookupSameMoods(current, ids);
    LookupIds(ById(current), ids);
    PermutationByIds(current, Lookup(ById(current), ids));
  }

  /** Lists of moods with distinct ids holding the same moods are permutations of each other. */
  lemma PermutationByIds(current: seq<Mood>, looked: seq<Mood>)
    requires Distinct(Ids(current)) && Distinct(Ids(looked))
    requires forall m :: m in looked <==> m in current
    ensures multiset(looked) == multiset(current)
  {
    DistinctIdsDistinctMoods(looked);
    DistinctIdsDistinctMoods(current);
    SameElementsSameMultiset(looked, current);
  }

  /** Two lists without repetitions that hold the same moods are permutations of each other. */
  lemma SameElementsSameMultiset(a: seq<Mood>, b: seq<Mood>)
    requires Distinct(a) && Distinct(b)
    requires forall m :: m in a <==> m in b
    ensures multiset(a) == multiset(b)
  {
    DistinctCounts(a);
    DistinctCounts(b);
  }

  lemma LookupSameMoods(current: seq<Mood>, ids: seq<string>)
    requires Distinct(Ids(current))
    requires forall x :: x in ids <==> x in Ids(current)
    ensures forall m :: m in Lookup(ById(current), ids) <==> m in current
  {
    forall m ensures m in Lookup(ById(current), ids) <==> m in current {
      LookupHolds(current, ids, m);
    }
  }

  lemma LookupHolds(current: seq<Mood>, ids: seq<string>, m: Mood)
    requires Distinct(Ids(current))
    requires forall x :: x in ids <==> x in Ids(current)
    ensures m in Lookup(ById(current), ids) <==> m in current
  {
    var looked := Lookup(ById(current), ids);
    if m in looked {
      var i :| 0 <= i < |looked| && looked[i] == m;
      assert ids[i] in Ids(current);
      var j :| 0 <= j < |current| && Ids(current)[j] == ids[i];
      ByIdOfDistinct(current, j);
    }
    if m in current {
      var j :| 0 <= j < |current| && current[j] == m;
      assert Ids(current)[j] in ids;
      var i :| 0 <= i < |ids| && ids[i] == Ids(current)[j];
      ByIdOfDistinct(current, j);
      assert looked[i] == m;
    }
  }

  lemma DistinctIdsDistinctMoods(ms: seq<Mood>)
    requires Distinct(Ids(ms))
    ensures Distinct(ms)
  {
    forall i, j | 0 <= i < j < |ms| ensures ms[i] != ms[j] {
      assert Ids(ms)[i] != Ids(ms)[j];
    }
  }

  /** A list without repetitions holds each of its elements once. */
  lemma {:induction false} DistinctCounts(s: seq<Mood>)
    requires Distinct(s)
    ensures forall m :: multiset(s)[m] == if m in s then 1 else 0
    decreases |s|
  {
    if s != [] {
      assert Distinct(s[1..]);
      DistinctCounts(s[1..]);
      assert s == [s[0]] + s[1..];
      assert s[0] !in s[1..];
    }
  }

  /**
    * A list sorted by strictly increasing `order` is the only list sorted by
    * `order` with its elements.
    */
  lemma {:induction false} SortedUnique(x: seq<Mood>, y: seq<Mood>)
    requires forall i, j :: 0 <= i < j < |x| ==> x[i].order < x[j].order
    requires SortedByOrder(y) && multiset(y) == multiset(x)
    ensures y == x
    decreases |x|
  {
    assert |y| == |multiset(y)| == |x|;
    if x != [] {
      SortedHeads(x, y);
      DropHead(x, y);
      SortedUnique(x[1..], y[1..]);
    }
  }

  /** Both lists start with the mood of least `order`, which only `x` can hold once. */
  lemma SortedHeads(x: seq<Mood>, y: seq<Mood>)
    requires forall i, j :: 0 <= i < j < |x| ==> x[i].order < x[j].order
    requires SortedByOrder(y) && multiset(y) == multiset(x)
    requires x != [] && y != []
    ensures y[0] == x[0]
  {
    assert x[0] in multiset(y);
    assert y[0] in multiset(x);
    var k :| 0 <= k < |y| && y[k] == x[0];
    var m :| 0 <= m < |x| && x[m] == y[0];
    assert y[0].order <= x[0].order;
    assert m == 0;
  }

  lemma DropHead(x: seq<Mood>, y: seq<Mood>)
    requires x != [] && y != [] && x[0] == y[0] && multiset(y) == multiset(x)
    ensures multiset(y[1..]) == multiset(x[1..])
  {
    assert x == [x[0]] + x[1..] && y == [y[0]] + y[1..];
    assert multiset(x) == multiset{x[0]} + multiset(x[1..]);
    assert multiset(y) == multiset{x[0]} + multiset(y[1..]);
    forall e ensures multiset(y[1..])[e] == multiset(x[1..])[e] {
      assert multiset(y)[e] == multiset(x)[e];
    }
  }

  lemma AsWrittenSwap(a: Mood, b: Mood)
    requires IsNormalList([a, b]) && a.id != b.id
    ensures ReorderAsWritten([a, b], [b.id, a.id]) == [a, b]
  {
    SwapReorderedIds(a, b);
    LookupSwap(a, b);
    NormalizedOfSwap(a, b);
  }

  lemma CorrectedSwap(a: Mood, b: Mood)
    requires a.id != b.id
    ensures ReorderResult([a, b], [b.id, a.id]) == [b.(order := 0), a.(order := 1)]
  {
    SwapReorderedIds(a, b);
    LookupSwap(a, b);
    var r := Reindexed([b, a]);
    assert r[0] == b.(order := 0) && r[1] == a.(order := 1);
  }

  lemma LookupSwap(a: Mood, b: Mood)
    requires a.id != b.id
    ensures a.id in ById([a, b]) && b.id in ById([a, b])
    ensures Lookup(ById([a, b]), [b.id, a.id]) == [b, a]
  {
    var current := [a, b];
    assert Ids(current) == [a.id, b.id];
    ByIdOfDistinct(current, 0);
    ByIdOfDistinct(current, 1);
  }

  // ---------------------------------------------------------------------
  // Import and export
  // ---------------------------------------------------------------------

  /** `{ schemaVersion, moods }` as `toExportPayload` returns it. */
  datatype ExportPayload = ExportPayload(schemaVersion: int, moods: seq<Mood>)

  /**
    * One entry of an imported `moods` array, as parsed JSON: `None` is an
    * absent (or `null`) key.
    */
  datatype RawMood = RawMood(
    id: Option<string>,
    title: Option<string>,
    subtitle: Option<string>,
    energyLevel: Option<JsNumber>,
    tags: Option<seq<string>>,
    icon: Option<string>,
    colorAccent: Option<string>)

  /**
    * The value `importPayload` receives: not an object at all, or an object
    * whose `schemaVersion` (`None` when absent or not a number) and `moods`
    * (`None` when not an array) are given.
    */
  datatype ImportInput = NotAnObject | Payload(schemaVersion: Option<JsNumber>, entries: Option<seq<RawMood>>)

  const InvalidPayload: string := "Invalid import payload"
  const UnsupportedFormat: string := "Unsupported JSON format"
  const IdTitleRequired: string := "Mood id/title is required"
  const AtLeastOneMood: string := "At least one mood is required"

  /** `mood.id` and `mood.title` are both truthy. */
  predicate EntryValid(raw: RawMood) {
    raw.id.Some? && raw.id.value != "" && raw.title.Some? && raw.title.value != ""
  }

  function Or<T>(o: Option<T>, fallback: T): T {
    if o.Some? then o.value else fallback
  }

  /** One imported entry as a stored mood: defaults for missing fields, then `normalizeMood`. */
  function ImportEntry(raw: RawMood, index: int): (m: Mood)
    requires EntryValid(raw)
    ensures IsNormalMood(m) && m.order == index && m.id == raw.id.value
  {
    NormalizeMood(
      Mood(raw.id.value, raw.title.value, Or(raw.subtitle, ""), Or(raw.energyLevel, Finite(0.5)),
           Or(raw.tags, []), raw.icon, raw.colorAccent, index),
      index)
  }

  predicate IsVersionOneArray(input: ImportInput) {
    input.Payload? && input.schemaVersion == Some(Finite(1.0)) && input.entries.Some?
  }

  /**
    * The validation and mapping of `importPayload`, checked in the source's
    * order. The second `map` of the source rewrites `id` and `order` with the
    * values they already have (the id is non-empty there), so it is the identity.
    */
  function ImportMoods(input: ImportInput): (r: Result<seq<Mood>, string>)
    ensures input.NotAnObject? <==> r == Err(InvalidPayload)
    ensures input.Payload? && !IsVersionOneArray(input) <==> r == Err(UnsupportedFormat)
    ensures r == Err(IdTitleRequired) <==>
      IsVersionOneArray(input) && exists i :: 0 <= i < |input.entries.value| && !EntryValid(input.entries.value[i])
    ensures r == Err(AtLeastOneMood) <==> IsVersionOneArray(input) && input.entries.value == []
    ensures r.Ok? ==> IsVersionOneArray(input) && |r.value| == |input.entries.value| >= 1
    ensures r.Ok? ==> IsNormalList(r.value)
    ensures r.Ok? ==> forall i :: 0 <= i < |r.value| ==>
      EntryValid(input.entries.value[i]) && r.value[i] == ImportEntry(input.entries.value[i], i)
  {
    match input
    case NotAnObject => Err(InvalidPayload)
    case Payload(version, entries) =>
      if version != Some(Finite(1.0)) || entries.None? then Err(UnsupportedFormat)
      else
        var raws := entries.value;
        if !(forall i :: 0 <= i < |raws| ==> EntryValid(raws[i])) then Err(IdTitleRequired)
        else
          var normalized := seq(|raws|, i requires 0 <= i < |raws| => ImportEntry(raws[i], i));
          if |normalized| == 0 then Err(AtLeastOneMood) else Ok(normalized)
  }

  /** A stored mood as the JSON export writes it: an absent icon or accent leaves its key out. */
  function ExportEntry(m: Mood): RawMood {
    RawMood(Some(m.id), Some(m.title), Some(m.subtitle), Some(m.energyLevel), Some(m.tags), m.icon, m.colorAccent)
  }

  function AsImportInput(p: ExportPayload): ImportInput {
    Payload(Some(Finite(p.schemaVersion as real)),
            Some(seq(|p.moods|, i requires 0 <= i < |p.moods| => ExportEntry(p.moods[i]))))
  }

  /** Importing an export gives back the exported list, provided it is non-empty and its ids are non-empty. */
  lemma ImportOfExport(ms: seq<Mood>)
    requires IsNormalList(ms) && |ms| >= 1
    requires forall i :: 0 <= i < |ms| ==> ms[i].id != ""
    ensures ImportMoods(AsImportInput(ExportPayload(1, ms))) == Ok(ms)
  {
    var input := AsImportInput(ExportPayload(1, ms));
    var raws := input.entries.value;
    forall i | 0 <= i < |raws| ensures EntryValid(raws[i]) && ImportEntry(raws[i], i) == ms[i] {
      assert raws[i] == ExportEntry(ms[i]);
      ImportEntryOfExport(ms[i], i);
    }
    var r := ImportMoods(input);
    assert r.Ok?;
    assert r.value == ms;
  }

  /** One exported mood imports as itself. */
  lemma ImportEntryOfExport(m: Mood, i: int)
    requires IsNormalMood(m) && m.order == i && m.id != ""
    ensures EntryValid(ExportEntry(m)) && ImportEntry(ExportEntry(m), i) == m
  {
    var raw := ExportEntry(m);
    assert Mood(m.id, m.title, Or(raw.subtitle, ""), Or(raw.energyLevel, Finite(0.5)),
                Or(raw.tags, []), m.icon, m.colorAccent, i) == m;
    NormalizeMoodOfNormal(m, i);
  }

  // ---------------------------------------------------------------------
  // The repository
  // ---------------------------------------------------------------------

  /** The store's `moods` list and `meta.defaultsInitialized` flag, held in memory. */
  class MoodRepository {
    var moods: seq<Mood>
    var defaultsInitialized: bool

    /** Opens a store holding `storedMoods` and `storedFlag`, then seeds it if needed. */
    constructor (storedMoods: seq<Mood>, storedFlag: bool)
      ensures !storedFlag || |storedMoods| == 0 ==> moods == DefaultMoods.CreateDefaultMoods() && defaultsInitialized
      ensures storedFlag && |storedMoods| > 0 ==> moods == storedMoods && defaultsInitialized
    {
      moods := storedMoods;
      defaultsInitialized := storedFlag;
      new;
      EnsureDefaults();
    }

    /** `ensureDefaults`: seed the four default moods when never seeded or when the list is empty. */
    method EnsureDefaults()
      modifies this
      ensures !old(defaultsInitialized) || |old(moods)| == 0 ==>
        moods == DefaultMoods.CreateDefaultMoods() && defaultsInitialized
      ensures old(defaultsInitialized) && |old(moods)| > 0 ==>
        moods == old(moods) && defaultsInitialized
    {
      if !defaultsInitialized || |moods| == 0 {
        moods := DefaultMoods.CreateDefaultMoods();
        defaultsInitialized := true;
      }
    }

    /** `list`: the stored moods sorted by `order` and renumbered. */
    function List(): (r: seq<Mood>)
      reads this
      ensures |r| == |moods|
      ensures IsNormalList(r)
      ensures multiset(Ids(r)) == multiset(Ids(moods))
    {
      Normalized(moods)
    }

    /** `write`: store the moods sorted and renumbered, and return what was stored. */
    method Write(ms: seq<Mood>) returns (r: seq<Mood>)
      modifies this
      ensures r == Normalized(ms) && moods == r
      ensures defaultsInitialized == old(defaultsInitialized)
    {
      r := Normalized(ms);
      moods := r;
    }

    /** `create`: append the normalised draft under `freshId` (the generated UUID) at the end. */
    method Create(draft: MoodDraft, freshId: string) returns (r: seq<Mood>)
      modifies this
      ensures r == old(List()) + [NewMood(freshId, draft, |old(List())|)]
      ensures moods == r && List() == r
      ensures defaultsInitialized == old(defaultsInitialized)
    {
      var base := List();
      var ms := base + [NewMood(freshId, draft, |base|)];
      AppendKeepsNormal(base, NewMood(freshId, draft, |base|));
      r := Write(ms);
    }

    /**
      * `update`: an unknown id leaves everything as it is; a known one gets
      * the normalised patch applied and keeps its id and position.
      */
    method Update(id: string, patch: MoodPatch) returns (r: seq<Mood>)
      modifies this
      ensures FindById(old(List()), id).None? ==> r == old(List()) && moods == old(moods)
      ensures FindById(old(List()), id).Some? ==>
        var i := FindById(old(List()), id).value;
        && r == old(List())[i := NormalizeMood(ApplyPatch(old(List())[i], NormalizeMoodPatch(patch)), i)]
        && moods == r
      ensures defaultsInitialized == old(defaultsInitialized)
    {
      var ms := List();
      var normalizedPatch := NormalizeMoodPatch(patch);
      var target := FindById(ms, id);
      if target.None? {
        return ms;
      }
      var i := target.value;
      ms := ms[i := NormalizeMood(ApplyPatch(ms[i], normalizedPatch), ms[i].order)];
      UpdateKeepsNormal(old(List()), i, normalizedPatch);
      r := Write(ms);
    }

    /** `delete`: drop every mood with that id; the rest keep their relative order. */
    method Delete(id: string) returns (r: seq<Mood>)
      modifies this
      ensures r == Reindexed(RemoveId(old(List()), id)) && moods == r
      ensures defaultsInitialized == old(defaultsInitialized)
    {
      var current := List();
      var ms := RemoveId(current, id);
      NormalListIsSorted(current);
      RemoveIdKeepsSorted(current, id);
      NormalizedOfSortedNormal(ms);
      r := Write(ms);
    }

    /**
      * `reorder`, corrected: the moods named in `orderedIds` first, in that
      * order, then the others in their stored order, each renumbered by its
      * new position before the write.
      */
    method Reorder(orderedIds: seq<string>) returns (r: seq<Mood>)
      modifies this
      ensures r == ReorderResult(old(List()), orderedIds) && moods == r
      ensures defaultsInitialized == old(defaultsInitialized)
    {
      var current := List();
      var reordered := CollectReordered(ById(current), KeyOrder(current), orderedIds);
      ReorderWriteKeeps(current, orderedIds);
      r := Write(Reindexed(reordered));
    }

    /** `toExportPayload`: schema version 1 and the listed moods. */
    function ToExportPayload(): (p: ExportPayload)
      reads this
      ensures p.schemaVersion == 1 && p.moods == List()
    {
      ExportPayload(1, List())
    }

    /** `importPayload`: on success the imported moods replace the store; on failure nothing changes. */
    method ImportPayload(input: ImportInput) returns (r: Result<seq<Mood>, string>)
      modifies this
      ensures r == ImportMoods(input)
      ensures r.Ok? ==> moods == r.value
      ensures r.Err? ==> moods == old(moods)
      ensures defaultsInitialized == old(defaultsInitialized)
    {
      r := ImportMoods(input);
      if r.Ok? {
        NormalizedOfNormalList(r.value);
        var written := Write(r.value);
        r := Ok(written);
      }
    }
  }

  /** One step of the first `reorder` loop: a request is taken exactly when it is known and not yet taken. */
  lemma PickStep(orderedIds: seq<string>, k: nat, known: set<string>)
    requires k < |orderedIds|
    ensures var id := orderedIds[k];
      var before := PickedIds(orderedIds[..k], known);
      PickedIds(orderedIds[..k + 1], known)
        == if id in known && id !in before then before + [id] else before
  {
    var prefix := orderedIds[..k + 1];
    assert prefix[..|prefix| - 1] == orderedIds[..k];
    var kk := KeepKnown(prefix, known);
    if orderedIds[k] in known {
      assert kk[..|kk| - 1] == KeepKnown(orderedIds[..k], known);
    } else {
      assert kk == KeepKnown(orderedIds[..k], known);
    }
  }
}
