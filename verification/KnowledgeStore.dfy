/**
 * The knowledge list held by the application shell (App.tsx): newest-first
 * items, the flattened context string every study mode reads, and the
 * add / delete / import updates. Each update replaces the list with a pure
 * function of the old one; the class below holds the list and performs them.
 */
module KnowledgeStore {
  import opened Types
  import opened Text

  /** What separates two items in the flattened context. */
  const Separator := "\n\n---\n\n"

  /** How one item is rendered into the context. */
  function Entry(k: KnowledgeItem): string {
    "Tema: " + k.title + "\n" + k.content
  }

  function Entries(items: seq<KnowledgeItem>): (r: seq<string>)
    ensures |r| == |items|
    ensures forall i :: 0 <= i < |items| ==> r[i] == Entry(items[i])
  {
    if items == [] then [] else [Entry(items[0])] + Entries(items[1..])
  }

  /**
   * The context string: every item's entry, in list order, separated; it
   * opens with the newest item's entry.
   */
  function Flatten(items: seq<KnowledgeItem>): (r: string)
    ensures items != [] ==> Entry(items[0]) <= r
  {
    Join(Entries(items), Separator)
  }

  /** An empty store yields the empty context, and a non-empty one never does. */
  lemma FlattenEmptyIff(items: seq<KnowledgeItem>)
    ensures Flatten(items) == "" <==> items == []
  {
    if items != [] {
      var es := Entries(items);
      assert |Entry(items[0])| > 0;
      if |es| == 1 {
        assert Flatten(items) == Entry(items[0]);
      } else {
        assert Flatten(items) == es[0] + Separator + Join(es[1..], Separator);
      }
    }
  }

  /** Prepending an item puts its entry first, then one separator, then the old context. */
  lemma FlattenPrepend(k: KnowledgeItem, items: seq<KnowledgeItem>)
    ensures items == [] ==> Flatten([k] + items) == Entry(k)
    ensures items != [] ==> Flatten([k] + items) == Entry(k) + Separator + Flatten(items)
  {
    assert Entries([k] + items) == [Entry(k)] + Entries(items);
    if items != [] {
      JoinAppend([Entry(k)], Entries(items), Separator);
    }
  }

  /** Where the entry of item `i` starts inside the flattened context. */
  function EntryOffset(items: seq<KnowledgeItem>, i: nat): nat
    requires i <= |items|
  {
    if i == 0 then 0 else |Entry(items[0])| + |Separator| + EntryOffset(items[1..], i - 1)
  }

  /** Offsets grow strictly with the index: flattening keeps the list order. */
  lemma {:induction false} EntryOffsetIncreasing(items: seq<KnowledgeItem>, i: nat, j: nat)
    requires i < j <= |items|
    ensures EntryOffset(items, i) < EntryOffset(items, j)
  {
    if i > 0 {
      EntryOffsetIncreasing(items[1..], i - 1, j - 1);
    }
  }

  /** Every item's entry sits in the flattened context at its offset. */
  lemma {:induction false} FlattenEntryAt(items: seq<KnowledgeItem>, i: nat)
    requires i < |items|
    ensures EntryOffset(items, i) + |Entry(items[i])| <= |Flatten(items)|
    ensures Flatten(items)[EntryOffset(items, i)..EntryOffset(items, i) + |Entry(items[i])|] == Entry(items[i])
  {
    var head, rest := items[0], items[1..];
    assert items == [head] + rest;
    FlattenPrepend(head, rest);
    if i > 0 {
      FlattenEntryAt(rest, i - 1);
      var pre, tail := Entry(head) + Separator, Flatten(rest);
      assert Flatten(items) == pre + tail;
      SliceAfterPrefix(pre, tail, EntryOffset(rest, i - 1), |Entry(rest[i - 1])|);
    } else {
      var e := Entry(head);
      assert Flatten(items)[..|e|] == e;
    }
  }

  lemma SliceAfterPrefix(pre: string, s: string, off: nat, len: nat)
    requires off + len <= |s|
    ensures (pre + s)[|pre| + off..|pre| + off + len] == s[off..off + len]
  {
  }

  /** The ids present in a list. */
  function Ids(items: seq<KnowledgeItem>): set<string> {
    set k | k in items :: k.id
  }

  /** No two positions of the list carry the same id. */
  ghost predicate UniqueIds(items: seq<KnowledgeItem>) {
    forall i, j :: 0 <= i < j < |items| ==> items[i].id != items[j].id
  }

  /** A prepended item keeps ids unique exactly when its id was fresh. */
  lemma PrependUnique(k: KnowledgeItem, items: seq<KnowledgeItem>)
    requires UniqueIds(items)
    ensures UniqueIds([k] + items) <==> k.id !in Ids(items)
  {
    var s := [k] + items;
    if k.id in Ids(items) {
      var k' :| k' in items && k'.id == k.id;
      var j :| 0 <= j < |items| && items[j] == k';
      assert s[0].id == s[j + 1].id;
    } else {
      forall i, j | 0 <= i < j < |s| ensures s[i].id != s[j].id {
        if i == 0 {
          assert s[j] in items;
        }
      }
    }
  }

  /** `list.filter(k => k.id !== id)`: every item except those with the id. */
  function WithoutId(items: seq<KnowledgeItem>, id: string): (r: seq<KnowledgeItem>)
    ensures |r| <= |items|
    ensures forall k :: k in r <==> k in items && k.id != id
  {
    if items == [] then []
    else (if items[0].id == id then [] else [items[0]]) + WithoutId(items[1..], id)
  }

  /** Filtering distributes over concatenation, so the kept items stay in their order. */
  lemma {:induction false} WithoutIdAppend(a: seq<KnowledgeItem>, b: seq<KnowledgeItem>, id: string)
    ensures WithoutId(a + b, id) == WithoutId(a, id) + WithoutId(b, id)
  {
    if a != [] {
      assert (a + b)[1..] == a[1..] + b;
      WithoutIdAppend(a[1..], b, id);
    } else {
      assert a + b == b;
    }
  }

  /** Deleting an id that is not present changes nothing. */
  lemma {:induction false} WithoutAbsentId(items: seq<KnowledgeItem>, id: string)
    requires id !in Ids(items)
    ensures WithoutId(items, id) == items
  {
    if items != [] {
      assert items[0] in items;
      assert Ids(items[1..]) <= Ids(items) by {
        forall x | x in Ids(items[1..]) ensures x in Ids(items) {
          var k :| k in items[1..] && k.id == x;
          assert k in items;
        }
      }
      WithoutAbsentId(items[1..], id);
      assert items == [items[0]] + items[1..];
    }
  }

  /** Deleting removes exactly the id from the id set, and deleting twice is deleting once. */
  lemma DeleteIdempotent(items: seq<KnowledgeItem>, id: string)
    ensures Ids(WithoutId(items, id)) == Ids(items) - {id}
    ensures WithoutId(WithoutId(items, id), id) == WithoutId(items, id)
  {
    var r := WithoutId(items, id);
    assert Ids(r) == Ids(items) - {id} by {
      forall x | x in Ids(items) - {id} ensures x in Ids(r) {
        var k :| k in items && k.id == x;
        assert k in r;
      }
    }
    WithoutAbsentId(r, id);
  }

  /** Filtering keeps ids unique. */
  lemma {:induction false} WithoutIdUnique(items: seq<KnowledgeItem>, id: string)
    requires UniqueIds(items)
    ensures UniqueIds(WithoutId(items, id))
  {
    if items != [] {
      var rest := WithoutId(items[1..], id);
      WithoutIdUnique(items[1..], id);
      if items[0].id != id {
        assert items[0].id !in Ids(rest) by {
          forall k | k in rest ensures k.id != items[0].id {
            assert k in items[1..];
            var j :| 0 <= j < |items[1..]| && items[1..][j] == k;
            assert items[j + 1] == k;
          }
        }
        PrependUnique(items[0], rest);
      }
    }
  }

  /** `pack.filter(item => !ids.has(item.id))`: the pack items whose id is not in `ids`. */
  function Unseen(pack: seq<KnowledgeItem>, ids: set<string>): (r: seq<KnowledgeItem>)
    ensures |r| <= |pack|
    ensures forall k :: k in r <==> k in pack && k.id !in ids
  {
    if pack == [] then []
    else (if pack[0].id in ids then [] else [pack[0]]) + Unseen(pack[1..], ids)
  }

  /** Filtering distributes over concatenation, so the unseen items keep the pack's order. */
  lemma {:induction false} UnseenAppend(a: seq<KnowledgeItem>, b: seq<KnowledgeItem>, ids: set<string>)
    ensures Unseen(a + b, ids) == Unseen(a, ids) + Unseen(b, ids)
  {
    if a != [] {
      assert (a + b)[1..] == a[1..] + b;
      UnseenAppend(a[1..], b, ids);
    } else {
      assert a + b == b;
    }
  }

  /**
   * The import rule: unseen pack items first, then the current list
   * untouched; afterwards the store knows every id of the store and the pack.
   */
  function Merge(current: seq<KnowledgeItem>, pack: seq<KnowledgeItem>): (r: seq<KnowledgeItem>)
    ensures Ids(r) == Ids(current) + Ids(pack)
  {
    var u := Unseen(pack, Ids(current));
    assert Ids(u + current) == Ids(current) + Ids(pack) by {
      forall x | x in Ids(pack) ensures x in Ids(u + current) {
        var k :| k in pack && k.id == x;
        if x in Ids(current) {
          var c :| c in current && c.id == x;
          assert c in u + current;
        } else {
          assert k in u + current;
        }
      }
    }
    u + current
  }

  /** Import never brings in an id the store already holds, and the old list stays a suffix. */
  lemma MergeAddsOnlyNewIds(current: seq<KnowledgeItem>, pack: seq<KnowledgeItem>)
    ensures var m := Merge(current, pack);
      |m| >= |current| && m[|m| - |current|..] == current
      && forall i :: 0 <= i < |m| - |current| ==> m[i] in pack && m[i].id !in Ids(current)
  {
    var u := Unseen(pack, Ids(current));
    var m := u + current;
    forall i | 0 <= i < |m| - |current| ensures m[i] in pack && m[i].id !in Ids(current) {
      assert m[i] == u[i] && u[i] in u;
    }
  }

  /** Importing into an empty store yields the pack verbatim. */
  lemma {:induction false} MergeIntoEmpty(pack: seq<KnowledgeItem>)
    ensures Merge([], pack) == pack
  {
    assert Ids([]) == {};
    UnseenNone(pack);
  }

  lemma {:induction false} UnseenNone(pack: seq<KnowledgeItem>)
    ensures Unseen(pack, {}) == pack
  {
    if pack != [] {
      UnseenNone(pack[1..]);
      assert pack == [pack[0]] + pack[1..];
    }
  }

  /** When every pack id is already known, nothing of the pack is unseen. */
  lemma {:induction false} UnseenAllKnown(pack: seq<KnowledgeItem>, ids: set<string>)
    requires forall k :: k in pack ==> k.id in ids
    ensures Unseen(pack, ids) == []
  {
    if pack != [] {
      assert pack[0] in pack;
      forall k | k in pack[1..] ensures k.id in ids {
        assert k in pack;
      }
      UnseenAllKnown(pack[1..], ids);
    }
  }

  /** Importing the same pack twice equals importing it once. */
  lemma MergeIdempotent(current: seq<KnowledgeItem>, pack: seq<KnowledgeItem>)
    ensures Merge(Merge(current, pack), pack) == Merge(current, pack)
  {
    var m := Merge(current, pack);
    var u := Unseen(pack, Ids(current));
    forall k | k in pack ensures k.id in Ids(m) {
      if k.id in Ids(current) {
        var c :| c in current && c.id == k.id;
        assert c in m;
      } else {
        assert k in u;
        assert k in m;
      }
    }
    UnseenAllKnown(pack, Ids(m));
  }

  /** Filtering keeps a pack's ids distinct when they were distinct to begin with. */
  lemma {:induction false} UnseenUnique(pack: seq<KnowledgeItem>, ids: set<string>)
    requires UniqueIds(pack)
    ensures UniqueIds(Unseen(pack, ids))
  {
    if pack != [] {
      var rest := Unseen(pack[1..], ids);
      UnseenUnique(pack[1..], ids);
      if pack[0].id !in ids {
        assert pack[0].id !in Ids(rest) by {
          forall k | k in rest ensures k.id != pack[0].id {
            assert k in pack[1..];
            var j :| 0 <= j < |pack[1..]| && pack[1..][j] == k;
            assert pack[j + 1] == k;
          }
        }
        PrependUnique(pack[0], rest);
      }
    }
  }

  /**
   * Ids stay unique after an import exactly when the current list and the
   * unseen part of the pack are each free of repeats; in particular a pack
   * with distinct ids always keeps a unique store unique.
   */
  lemma MergeUnique(current: seq<KnowledgeItem>, pack: seq<KnowledgeItem>)
    ensures UniqueIds(Merge(current, pack)) <==> UniqueIds(current) && UniqueIds(Unseen(pack, Ids(current)))
    ensures UniqueIds(current) && UniqueIds(pack) ==> UniqueIds(Merge(current, pack))
  {
    var u := Unseen(pack, Ids(current));
    var m := u + current;
    if UniqueIds(current) && UniqueIds(u) {
      forall i, j | 0 <= i < j < |m| ensures m[i].id != m[j].id {
        if i < |u| && j >= |u| {
          assert m[i] in u && m[j] == current[j - |u|] && m[j] in current;
        } else if i >= |u| {
          assert m[i] == current[i - |u|] && m[j] == current[j - |u|];
        } else {
          assert m[i] == u[i] && m[j] == u[j];
        }
      }
    }
    if UniqueIds(m) {
      forall i, j | 0 <= i < j < |current| ensures current[i].id != current[j].id {
        assert m[|u| + i] == current[i] && m[|u| + j] == current[j];
      }
      forall i, j | 0 <= i < j < |u| ensures u[i].id != u[j].id {
        assert m[i] == u[i] && m[j] == u[j];
      }
    }
    if UniqueIds(current) && UniqueIds(pack) {
      UnseenUnique(pack, Ids(current));
    }
  }

  /** A pack that repeats an id not yet in the store brings in both copies. */
  lemma DuplicateInPackSurvives(current: seq<KnowledgeItem>, a: KnowledgeItem, b: KnowledgeItem)
    requires a.id == b.id && a.id !in Ids(current)
    ensures !UniqueIds(Merge(current, [a, b]))
  {
    var m := Merge(current, [a, b]);
    assert Unseen([a, b], Ids(current)) == [a, b] by {
      assert [a, b][1..] == [b];
    }
    assert m[0] == a && m[1] == b;
  }

  /** The knowledge state of the application shell. */
  class Store {
    var items: seq<KnowledgeItem>

    /** The list starts empty. */
    constructor ()
      ensures items == []
    {
      items := [];
    }

    /** `addKnowledge`: a new item with the generated id and clock value goes in front. */
    method Add(title: string, content: string, id: string, now: int)
      requires id !in Ids(items)
      modifies this
      ensures items == [KnowledgeItem(id, title, content, now)] + old(items)
      ensures UniqueIds(old(items)) ==> UniqueIds(items)
    {
      var newItem := KnowledgeItem(id, title, content, now);
      if UniqueIds(items) {
        PrependUnique(newItem, items);
      }
      items := [newItem] + items;
    }

    /** `deleteKnowledge`: every item with the id is dropped. */
    method Delete(id: string)
      modifies this
      ensures items == WithoutId(old(items), id)
      ensures id !in Ids(items)
      ensures UniqueIds(old(items)) ==> UniqueIds(items)
    {
      if UniqueIds(items) {
        WithoutIdUnique(items, id);
      }
      items := WithoutId(items, id);
    }

    /** `importKnowledge`: pack items with unknown ids are prepended. */
    method Import(pack: seq<KnowledgeItem>)
      modifies this
      ensures items == Merge(old(items), pack)
      ensures UniqueIds(old(items)) && UniqueIds(pack) ==> UniqueIds(items)
    {
      MergeUnique(items, pack);
      var existingIds := Ids(items);
      var newItems := Unseen(pack, existingIds);
      items := newItems + items;
    }
  }
}
