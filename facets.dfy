/**
 * Facet reconciliation, `merge_facets!` in app/concerns/api_response_merger.rb:
 * incoming facet groups are folded into the accumulator group by group; items
 * are deduplicated by `eid`, their counts summed, and every touched group is
 * re-sorted by count, largest first.
 */
module Facets {
  import opened Wrappers
  import opened JsonValues
  import opened Sequences

  /** A facet entry as the accumulator stores it: `{"name", "eid", "count", "children"}`. */
  datatype FacetItem = FacetItem(name: Json, eid: Json, count: int, children: Json)

  /** Facet group name to its items. */
  type FacetMap = map<string, seq<FacetItem>>

  /**
   * An incoming item as the loop reads it: a hash with a truthy `eid`, its
   * `count` (0 when missing) and its `children` ([] when missing). Anything
   * else is skipped.
   */
  function Incoming(item: Json): (r: Option<FacetItem>)
    ensures r.Some? <==> item.JObj? && Truthy(Lookup(item.fields, "eid"))
    ensures r.Some? ==> r.value.eid == Lookup(item.fields, "eid") && Truthy(r.value.eid)
    ensures r.Some? && !HasKey(item.fields, "count") ==> r.value.count == 0
    ensures r.Some? && Lookup(item.fields, "name") == JBool(false) ==> r.value.name == JNull
  {
    if item.JObj? && Truthy(Lookup(item.fields, "eid")) then
      var fs := item.fields;
      LookupMissing(fs, "count");
      Some(FacetItem(Get(fs, "name"), Lookup(fs, "eid"), ToI(Or(Lookup(fs, "count"), JInt(0))),
                     Or(Lookup(fs, "children"), JArr([]))))
    else None
  }

  lemma {:induction false} LookupMissing(fs: Fields, k: string)
    ensures !HasKey(fs, k) ==> Lookup(fs, k) == JNull
  {
    if fs != [] && !HasKey(fs, k) {
      assert fs[0].0 != k;
      forall i | 0 <= i < |fs[1..]| ensures fs[1..][i].0 != k {
        assert fs[1..][i] == fs[i + 1];
      }
      LookupMissing(fs[1..], k);
    }
  }

  /** What one item contributes: itself normalised, or nothing. */
  function Contribution(item: Json): seq<FacetItem> {
    match Incoming(item)
    case None => []
    case Some(x) => [x]
  }

  /** The contributions of an items array, in order. */
  function IncomingOf(items: seq<Json>): seq<FacetItem>
    decreases |items|
  {
    if items == [] then [] else IncomingOf(items[..|items| - 1]) + Contribution(items[|items| - 1])
  }

  /** `group.find { |i| i["eid"] == eid }`, as the index of the first match. */
  function IndexOfEid(group: seq<FacetItem>, eid: Json): (r: Option<nat>)
    ensures r.Some? ==> r.value < |group| && group[r.value].eid == eid
    ensures r.Some? ==> forall j :: 0 <= j < r.value ==> group[j].eid != eid
    ensures r.None? ==> forall j :: 0 <= j < |group| ==> group[j].eid != eid
  {
    if group == [] then None
    else if group[0].eid == eid then Some(0)
    else
      match IndexOfEid(group[1..], eid)
      case None => None
      case Some(i) => Some(i + 1)
  }

  /** `any?` on the value stored as children: an array with a truthy element, or a non-empty hash. */
  predicate AnyChildren(v: Json) {
    match v
    case JArr(xs) => exists i :: 0 <= i < |xs| && Truthy(xs[i])
    case JObj(fs) => fs != []
    case _ => false
  }

  /**
   * Lines 84-92, an eid collision: counts add up, the first truthy name and
   * eid stay, and existing children are kept when they hold anything,
   * otherwise the incoming array (or []) replaces them wholesale.
   */
  function Reconcile(existing: FacetItem, inc: FacetItem): FacetItem {
    var kept := Or(existing.children, JArr([]));
    FacetItem(
      Or(existing.name, inc.name),
      Or(existing.eid, inc.eid),
      existing.count + inc.count,
      if AnyChildren(kept) then kept else if inc.children.JArr? then inc.children else JArr([]))
  }

  /**
   * One iteration of `items.each`: a skipped item changes nothing, a new eid
   * is appended, and a known eid updates only the item `find` returns, whose
   * count grows by the incoming count, whose name and eid stay when truthy,
   * and whose children stay when they hold anything and are otherwise
   * replaced by the incoming array (or []).
   */
  function MergeItem(group: seq<FacetItem>, item: Json): (r: seq<FacetItem>)
    ensures Incoming(item).None? ==> r == group
    ensures Incoming(item).Some? && IndexOfEid(group, Incoming(item).value.eid).None?
            ==> r == group + [Incoming(item).value]
    ensures Incoming(item).Some? && IndexOfEid(group, Incoming(item).value.eid).Some? ==>
              var inc, i := Incoming(item).value, IndexOfEid(group, Incoming(item).value.eid).value;
              var kept := Or(group[i].children, JArr([]));
              && |r| == |group|
              && (forall j :: 0 <= j < |group| && j != i ==> r[j] == group[j])
              && r[i].count == group[i].count + inc.count
              && r[i].name == Or(group[i].name, inc.name)
              && r[i].eid == group[i].eid
              && (AnyChildren(kept) ==> r[i].children == kept)
              && (!AnyChildren(kept) ==> r[i].children == (if inc.children.JArr? then inc.children else JArr([])))
  {
    match Incoming(item)
    case None => group
    case Some(inc) =>
      match IndexOfEid(group, inc.eid)
      case None => group + [inc]
      case Some(i) => group[i := Reconcile(group[i], inc)]
  }

  /** The whole `items.each` loop over one group. */
  function MergeItems(group: seq<FacetItem>, items: seq<Json>): seq<FacetItem>
    decreases |items|
  {
    if items == [] then group
    else MergeItem(MergeItems(group, items[..|items| - 1]), items[|items| - 1])
  }

  /** The order `sort_by! { |i| -count }` establishes. */
  predicate CountGe(a: FacetItem, b: FacetItem) {
    a.count >= b.count
  }

  function SortGroup(g: seq<FacetItem>): seq<FacetItem> {
    SortBy(g, CountGe)
  }

  /**
   * One iteration of `new_facets.each`: the group is created if missing; an
   * array of items is merged into it and the group re-sorted; any other value
   * leaves it as it was.
   */
  function MergeGroup(acc: FacetMap, key: string, items: Json): FacetMap {
    var base := if key in acc then acc[key] else [];
    acc[key := NewGroup(base, items)]
  }

  /** The group after one iteration: merged and re-sorted for an array of items, else unchanged. */
  function NewGroup(base: seq<FacetItem>, items: Json): seq<FacetItem> {
    if items.JArr? then SortGroup(MergeItems(base, items.elems)) else base
  }

  /** `merge_facets!(accumulator, new_facets)` for a hash `new_facets`. */
  function MergeFacets(acc: FacetMap, newFacets: Fields): FacetMap
    decreases |newFacets|
  {
    if newFacets == [] then acc
    else
      var p := newFacets[|newFacets| - 1];
      MergeGroup(MergeFacets(acc, newFacets[..|newFacets| - 1]), p.0, p.1)
  }

  // ---------------------------------------------------------------------------
  // Per-eid measures of a group

  /** How many items of `g` carry eid `e`. */
  function Occurrences(g: seq<FacetItem>, e: Json): nat {
    if g == [] then 0 else (if g[0].eid == e then 1 else 0) + Occurrences(g[1..], e)
  }

  /** The summed count of the items of `g` that carry eid `e`. */
  function EidTotal(g: seq<FacetItem>, e: Json): int {
    if g == [] then 0 else (if g[0].eid == e then g[0].count else 0) + EidTotal(g[1..], e)
  }

  predicate Present(g: seq<FacetItem>, e: Json) {
    Occurrences(g, e) > 0
  }

  /** At most one item per eid. */
  ghost predicate UniqueEids(g: seq<FacetItem>) {
    forall e :: Occurrences(g, e) <= 1
  }

  /** The invariant every group of the accumulator keeps. */
  ghost predicate GroupOk(g: seq<FacetItem>) {
    UniqueEids(g) && SortedBy(g, CountGe)
  }

  ghost predicate FacetsOk(m: FacetMap) {
    forall k :: k in m ==> GroupOk(m[k])
  }

  lemma {:induction false} MeasuresAppend(a: seq<FacetItem>, b: seq<FacetItem>, e: Json)
    ensures Occurrences(a + b, e) == Occurrences(a, e) + Occurrences(b, e)
    ensures EidTotal(a + b, e) == EidTotal(a, e) + EidTotal(b, e)
  {
    if a == [] {
      assert a + b == b;
    } else {
      assert (a + b)[1..] == a[1..] + b;
      MeasuresAppend(a[1..], b, e);
    }
  }

  lemma {:induction false} MeasuresUpdate(g: seq<FacetItem>, i: nat, y: FacetItem, e: Json)
    requires i < |g| && y.eid == g[i].eid
    ensures Occurrences(g[i := y], e) == Occurrences(g, e)
    ensures EidTotal(g[i := y], e) == EidTotal(g, e) + (if y.eid == e then y.count - g[i].count else 0)
  {
    if i == 0 {
      assert g[i := y][1..] == g[1..];
    } else {
      assert g[i := y][1..] == g[1..][i - 1 := y];
      MeasuresUpdate(g[1..], i - 1, y, e);
    }
  }

  lemma {:induction false} AbsentHasNoOccurrence(g: seq<FacetItem>, e: Json)
    requires forall j :: 0 <= j < |g| ==> g[j].eid != e
    ensures Occurrences(g, e) == 0 && EidTotal(g, e) == 0
  {
    if g != [] {
      AbsentHasNoOccurrence(g[1..], e);
    }
  }

  lemma {:induction false} FoundHasOccurrence(g: seq<FacetItem>, i: nat, e: Json)
    requires i < |g| && g[i].eid == e
    ensures Occurrences(g, e) >= 1
  {
    if i > 0 {
      FoundHasOccurrence(g[1..], i - 1, e);
    }
  }

  lemma {:induction false} InsertMeasures(x: FacetItem, s: seq<FacetItem>, e: Json)
    ensures Occurrences(Insert(x, s, CountGe), e) == Occurrences(s, e) + (if x.eid == e then 1 else 0)
    ensures EidTotal(Insert(x, s, CountGe), e) == EidTotal(s, e) + (if x.eid == e then x.count else 0)
  {
    if s != [] && !CountGe(x, s[0]) {
      InsertMeasures(x, s[1..], e);
    }
  }

  lemma {:induction false} SortGroupMeasures(s: seq<FacetItem>, e: Json)
    ensures Occurrences(SortGroup(s), e) == Occurrences(s, e)
    ensures EidTotal(SortGroup(s), e) == EidTotal(s, e)
  {
    if s != [] {
      SortGroupMeasures(s[1..], e);
      InsertMeasures(s[0], SortBy(s[1..], CountGe), e);
    }
  }

  lemma CountGeTotalPreorder()
    ensures TotalPreorder(CountGe)
  {
  }

  /** Sorting a group keeps its eids unique and orders it by count. */
  lemma SortGroupOk(s: seq<FacetItem>)
    requires UniqueEids(s)
    ensures GroupOk(SortGroup(s))
  {
    forall e ensures Occurrences(SortGroup(s), e) <= 1 {
      SortGroupMeasures(s, e);
    }
    CountGeTotalPreorder();
    SortBySorted(s, CountGe);
  }

  /** The exact effect of one item on the measures of eid `e`. */
  lemma MergeItemMeasures(g: seq<FacetItem>, item: Json, e: Json)
    ensures Occurrences(MergeItem(g, item), e)
         == Occurrences(g, e) + (if Present(Contribution(item), e) && !Present(g, e) then 1 else 0)
    ensures EidTotal(MergeItem(g, item), e) == EidTotal(g, e) + EidTotal(Contribution(item), e)
  {
    match Incoming(item)
    case None =>
    case Some(inc) =>
      assert Contribution(item) == [inc];
      assert Occurrences([inc], e) == (if inc.eid == e then 1 else 0);
      assert EidTotal([inc], e) == (if inc.eid == e then inc.count else 0);
      match IndexOfEid(g, inc.eid)
      case None =>
        MeasuresAppend(g, [inc], e);
        if inc.eid == e {
          AbsentHasNoOccurrence(g, e);
        }
      case Some(i) =>
        MeasuresUpdate(g, i, Reconcile(g[i], inc), e);
        if inc.eid == e {
          FoundHasOccurrence(g, i, e);
        }
  }

  /**
   * Merging an items array into a group with unique eids: eids stay unique, an
   * eid is present exactly when it was or some item brings it, and its count
   * is the old count plus the counts the items bring.
   */
  lemma {:induction false} MergeItemsMeasures(g: seq<FacetItem>, items: seq<Json>, e: Json)
    requires UniqueEids(g)
    ensures UniqueEids(MergeItems(g, items))
    ensures Present(MergeItems(g, items), e) <==> Present(g, e) || Present(IncomingOf(items), e)
    ensures EidTotal(MergeItems(g, items), e) == EidTotal(g, e) + EidTotal(IncomingOf(items), e)
  {
    if items != [] {
      var front := items[..|items| - 1];
      var last := items[|items| - 1];
      var mid := MergeItems(g, front);
      MergeItemsMeasures(g, front, e);
      forall e' ensures Occurrences(MergeItem(mid, last), e') <= 1 {
        MergeItemMeasures(mid, last, e');
      }
      MergeItemMeasures(mid, last, e);
      MeasuresAppend(IncomingOf(front), Contribution(last), e);
    }
  }

  /** The items one facet value brings to its group. */
  function ItemsStream(items: Json): seq<FacetItem> {
    if items.JArr? then IncomingOf(items.elems) else []
  }

  /** The items a whole facets hash brings to group `g`, in iteration order. */
  function PairStream(newFacets: Fields, g: string): seq<FacetItem>
    decreases |newFacets|
  {
    if newFacets == [] then []
    else
      var p := newFacets[|newFacets| - 1];
      PairStream(newFacets[..|newFacets| - 1], g) + (if p.0 == g then ItemsStream(p.1) else [])
  }

  predicate GroupPresent(m: FacetMap, g: string, e: Json) {
    g in m && Present(m[g], e)
  }

  function GroupTotal(m: FacetMap, g: string, e: Json): int {
    if g in m then EidTotal(m[g], e) else 0
  }

  function KeysOf(fs: Fields): set<string> {
    set i | 0 <= i < |fs| :: fs[i].0
  }

  lemma NewGroupMeasures(base: seq<FacetItem>, items: Json, e: Json)
    requires GroupOk(base)
    ensures GroupOk(NewGroup(base, items))
    ensures Present(NewGroup(base, items), e) <==> Present(base, e) || Present(ItemsStream(items), e)
    ensures EidTotal(NewGroup(base, items), e) == EidTotal(base, e) + EidTotal(ItemsStream(items), e)
  {
    if items.JArr? {
      var merged := MergeItems(base, items.elems);
      MergeItemsMeasures(base, items.elems, e);
      SortGroupOk(merged);
      SortGroupMeasures(merged, e);
    }
  }

  lemma MergeGroupMeasures(acc: FacetMap, key: string, items: Json, g: string, e: Json)
    requires FacetsOk(acc)
    ensures FacetsOk(MergeGroup(acc, key, items))
    ensures MergeGroup(acc, key, items).Keys == acc.Keys + {key}
    ensures GroupPresent(MergeGroup(acc, key, items), g, e)
        <==> GroupPresent(acc, g, e) || (g == key && Present(ItemsStream(items), e))
    ensures GroupTotal(MergeGroup(acc, key, items), g, e)
         == GroupTotal(acc, g, e) + (if g == key then EidTotal(ItemsStream(items), e) else 0)
  {
    var base := if key in acc then acc[key] else [];
    assert GroupOk(base);
    NewGroupMeasures(base, items, e);
    FacetsOkUpdate(acc, key, NewGroup(base, items));
  }

  lemma FacetsOkUpdate(acc: FacetMap, key: string, group: seq<FacetItem>)
    requires FacetsOk(acc) && GroupOk(group)
    ensures FacetsOk(acc[key := group])
  {
    var m := acc[key := group];
    forall k | k in m ensures GroupOk(m[k]) {
      if k != key {
        assert m[k] == acc[k];
      }
    }
  }

  /**
   * The reconciliation invariant of `merge_facets!`: every group keeps unique
   * eids and count order; a group exists exactly when it existed or the hash
   * names it; an eid is present in a group exactly when it was or an item of
   * that group brings it; and its count is the old one plus every count
   * brought for it.
   */
  lemma {:induction false} MergeFacetsMeasures(acc: FacetMap, newFacets: Fields, g: string, e: Json)
    requires FacetsOk(acc)
    ensures FacetsOk(MergeFacets(acc, newFacets))
    ensures MergeFacets(acc, newFacets).Keys == acc.Keys + KeysOf(newFacets)
    ensures GroupPresent(MergeFacets(acc, newFacets), g, e)
        <==> GroupPresent(acc, g, e) || Present(PairStream(newFacets, g), e)
    ensures GroupTotal(MergeFacets(acc, newFacets), g, e)
         == GroupTotal(acc, g, e) + EidTotal(PairStream(newFacets, g), e)
  {
    if newFacets != [] {
      var front := newFacets[..|newFacets| - 1];
      var p := newFacets[|newFacets| - 1];
      MergeFacetsMeasures(acc, front, g, e);
      MergeGroupMeasures(MergeFacets(acc, front), p.0, p.1, g, e);
      MeasuresAppend(PairStream(front, g), if p.0 == g then ItemsStream(p.1) else [], e);
      KeysOfSnoc(newFacets);
    }
  }

  lemma KeysOfSnoc(fs: Fields)
    requires fs != []
    ensures KeysOf(fs) == KeysOf(fs[..|fs| - 1]) + {fs[|fs| - 1].0}
  {
    var front := fs[..|fs| - 1];
    forall k | k in KeysOf(fs) ensures k in KeysOf(front) + {fs[|fs| - 1].0} {
      var i :| 0 <= i < |fs| && fs[i].0 == k;
      if i < |front| { assert front[i].0 == k; }
    }
    forall k | k in KeysOf(front) ensures k in KeysOf(fs) {
      var i :| 0 <= i < |front| && front[i].0 == k;
      assert fs[i].0 == k;
    }
  }

  /** In a group with unique eids, `find` by eid returns the item holding the eid's whole count. */
  lemma {:induction false} FindHoldsTotal(g: seq<FacetItem>, e: Json)
    requires UniqueEids(g) && Present(g, e)
    ensures IndexOfEid(g, e).Some? && g[IndexOfEid(g, e).value].count == EidTotal(g, e)
  {
    if g[0].eid == e {
      assert Occurrences(g[1..], e) == 0;
      OccurrenceZeroTotal(g[1..], e);
    } else {
      assert forall e' :: Occurrences(g[1..], e') <= Occurrences(g, e');
      FindHoldsTotal(g[1..], e);
    }
  }

  lemma {:induction false} OccurrenceZeroTotal(g: seq<FacetItem>, e: Json)
    requires Occurrences(g, e) == 0
    ensures EidTotal(g, e) == 0
  {
    if g != [] {
      OccurrenceZeroTotal(g[1..], e);
    }
  }

  /** A facet entry as a node sends it: name, eid and count. */
  function SentItem(name: string, eid: string, count: int): Json {
    JObj([("name", JStr(name)), ("eid", JStr(eid)), ("count", JInt(count))])
  }

  /** The entry the accumulator keeps for a sent item that met no other. */
  function KeptItem(name: string, eid: string, count: int): FacetItem {
    FacetItem(JStr(name), JStr(eid), count, JArr([]))
  }

  lemma IncomingSent(name: string, eid: string, count: int)
    ensures Incoming(SentItem(name, eid, count)) == Some(KeptItem(name, eid, count))
  {
    var fs := SentItem(name, eid, count).fields;
    LookupAt(fs, 1, "eid");
    LookupAt(fs, 0, "name");
    LookupAt(fs, 2, "count");
    LookupMissing(fs, "children");
  }

  /**
   * The count-order example of the merger's tests, group by group: providers
   * x (2) from one node, then y (9) and x (1) from another, give y (9) before
   * x (3).
   */
  lemma ProvidersExample()
    ensures NewGroup(NewGroup([], JArr([SentItem("X", "x", 2)])), JArr([SentItem("Y", "y", 9), SentItem("X", "x", 1)]))
            == [KeptItem("Y", "y", 9), KeptItem("X", "x", 3)]
  {
    FirstNodeProviders();
    SecondNodeProviders();
    SortProviders();
  }

  lemma FirstNodeProviders()
    ensures NewGroup([], JArr([SentItem("X", "x", 2)])) == [KeptItem("X", "x", 2)]
  {
    var x2 := SentItem("X", "x", 2);
    IncomingSent("X", "x", 2);
    assert [x2][..0] == [];
    assert MergeItems([], [x2]) == [KeptItem("X", "x", 2)];
  }

  lemma SecondNodeProviders()
    ensures MergeItems([KeptItem("X", "x", 2)], [SentItem("Y", "y", 9), SentItem("X", "x", 1)])
            == [KeptItem("X", "x", 3), KeptItem("Y", "y", 9)]
  {
    var y9, x1 := SentItem("Y", "y", 9), SentItem("X", "x", 1);
    IncomingSent("Y", "y", 9);
    IncomingSent("X", "x", 1);
    var g := [KeptItem("X", "x", 2)];
    assert [y9, x1][..1] == [y9];
    assert [y9][..0] == [];
    assert MergeItems(g, [y9]) == MergeItem(g, y9);
    assert IndexOfEid(g, JStr("y")) == None;
    var g' := [KeptItem("X", "x", 2), KeptItem("Y", "y", 9)];
    assert MergeItem(g, y9) == g';
    assert IndexOfEid(g', JStr("x")) == Some(0);
  }

  lemma SortProviders()
    ensures SortGroup([KeptItem("X", "x", 3), KeptItem("Y", "y", 9)]) == [KeptItem("Y", "y", 9), KeptItem("X", "x", 3)]
  {
    var s := [KeptItem("X", "x", 3), KeptItem("Y", "y", 9)];
    assert s[1..] == [KeptItem("Y", "y", 9)];
    assert s[1..][1..] == [];
  }
}
