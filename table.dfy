/**
 * The DynamoDB table, standing in for the SDK calls the services make:
 * a map from key to item, the three writes (batch put, update, delete), the
 * point read, and scans/queries that return their matches as a sequence of pages.
 */
module Table {
  import opened Wrappers
  import opened DocumentModel
  import opened Keys
  import opened Permutations

  type Rows = map<Key, Document>

  /** Every row carries its own key in its `RestaurantId` and `SortKey` attributes. */
  ghost predicate KeysAgree(rows: Rows) {
    forall k | k in rows :: KeyOf(rows[k]) == Some(k)
  }

  /** A batch-write put request: the item replaces the whole row at its key. */
  function Put(rows: Rows, item: Document): (r: Rows)
    requires KeyOf(item).Some?
    ensures r.Keys == rows.Keys + {KeyOf(item).value}
    ensures r[KeyOf(item).value] == item
    ensures forall k | k in rows && k != KeyOf(item).value :: r[k] == rows[k]
  {
    rows[KeyOf(item).value := item]
  }

  /**
   * `UpdateItem` with a document: the attributes present in the document are set,
   * the others of an existing row are kept, and a missing row is created.
   */
  function Updated(rows: Rows, document: Document): (r: Rows)
    requires KeyOf(document).Some?
    ensures r.Keys == rows.Keys + {KeyOf(document).value}
    ensures forall k | k in rows && k != KeyOf(document).value :: r[k] == rows[k]
    ensures var k := KeyOf(document).value;
            && r[k].Keys == document.Keys + (if k in rows then rows[k].Keys else {})
            && (forall a | a in document :: r[k][a] == document[a])
            && (k in rows ==> forall a | a in rows[k] && a !in document :: r[k][a] == rows[k][a])
  {
    var k := KeyOf(document).value;
    var previous := if k in rows then rows[k] else map[];
    rows[k := previous + document]
  }

  /** `DeleteItem`: the row at the key is gone, if there was one. */
  function Removed(rows: Rows, key: Key): (r: Rows)
    ensures r.Keys == rows.Keys - {key}
    ensures forall k | k in r :: r[k] == rows[k]
  {
    rows - {key}
  }

  /**
   * `UpdateItem` with a REMOVE action on attribute `name`: an existing row loses that
   * attribute and keeps the others; no other row changes.
   */
  function AttributeRemoved(rows: Rows, key: Key, name: string): (r: Rows)
    ensures r.Keys == rows.Keys
    ensures forall k | k in rows && k != key :: r[k] == rows[k]
    ensures key in rows ==> && r[key].Keys == rows[key].Keys - {name}
                            && forall a | a in rows[key] && a != name :: r[key][a] == rows[key][a]
  {
    if key in rows then rows[key := rows[key] - {name}] else rows
  }

  /** The two searches the services run: a scan on sort key, a query on partition and sort-key prefix. */
  datatype Filter =
    | SortKeyEquals(sort: string)
    | PartitionAndSortPrefix(partition: string, prefix: string)

  predicate Matches(f: Filter, k: Key) {
    match f
    case SortKeyEquals(s) => k.sort == s
    case PartitionAndSortPrefix(p, pre) => k.partition == p && pre <= k.sort
  }

  /** The keys of the rows a search selects. */
  function Selected(rows: Rows, f: Filter): (ks: set<Key>)
    ensures ks <= rows.Keys
    ensures forall k :: k in ks <==> k in rows && Matches(f, k)
  {
    set k | k in rows && Matches(f, k)
  }

  /** `order` lists every key of `keys` exactly once. */
  ghost predicate Enumerates(order: seq<Key>, keys: set<Key>) {
    && (forall i, j | 0 <= i < j < |order| :: order[i] != order[j])
    && (forall i | 0 <= i < |order| :: order[i] in keys)
    && (forall k | k in keys :: k in order)
  }

  /** The rows at the listed keys, in order. */
  function RowsAt(rows: Rows, order: seq<Key>): (docs: seq<Document>)
    requires forall i | 0 <= i < |order| :: order[i] in rows
    ensures |docs| == |order|
    ensures forall i | 0 <= i < |order| :: docs[i] == rows[order[i]]
  {
    seq(|order|, i requires 0 <= i < |order| => rows[order[i]])
  }

  /** The concatenation of all pages of a search. */
  function Flatten(pages: seq<seq<Document>>): seq<Document> {
    if pages == [] then [] else Flatten(pages[..|pages| - 1]) + pages[|pages| - 1]
  }

  /** Cutting the matches into pages of at most `size` items; there is always a first page. */
  function Chunk(items: seq<Document>, size: nat): (pages: seq<seq<Document>>)
    requires size > 0
    ensures |pages| >= 1
    ensures Flatten(pages) == items
    decreases |items|
  {
    if |items| <= size then
      [items]
    else
      var rest := Chunk(items[size..], size);
      FlattenCons(items[..size], rest);
      assert items[..size] + items[size..] == items;
      [items[..size]] + rest
  }

  lemma {:induction false} FlattenCons(page: seq<Document>, pages: seq<seq<Document>>)
    ensures Flatten([page] + pages) == page + Flatten(pages)
    decreases |pages|
  {
    if pages != [] {
      var whole := [page] + pages;
      assert whole[..|whole| - 1] == [page] + pages[..|pages| - 1];
      FlattenCons(page, pages[..|pages| - 1]);
    }
  }

  /** Flattening one more page appends it. */
  lemma FlattenSnoc(pages: seq<seq<Document>>, i: nat)
    requires i < |pages|
    ensures Flatten(pages[..i + 1]) == Flatten(pages[..i]) + pages[i]
  {
    assert pages[..i + 1][..i] == pages[..i];
  }

  class Store {
    var rows: Rows
    const pageSize: nat

    ghost predicate Valid()
      reads this
    {
      pageSize > 0 && KeysAgree(rows)
    }

    constructor (pageSize: nat)
      requires pageSize > 0
      ensures Valid() && rows == map[] && this.pageSize == pageSize
    {
      rows := map[];
      this.pageSize := pageSize;
    }

    /** `BatchWriteItemAsync` with one put request. */
    method BatchWritePut(item: Document)
      requires Valid() && KeyOf(item).Some?
      modifies this
      ensures Valid()
      ensures rows == Put(old(rows), item)
    {
      rows := rows[KeyOf(item).value := item];
    }

    /** `Table.UpdateItemAsync(document)`. */
    method UpdateItem(document: Document)
      requires Valid() && KeyOf(document).Some?
      modifies this
      ensures Valid()
      ensures rows == Updated(old(rows), document)
    {
      var k := KeyOf(document).value;
      var previous := if k in rows then rows[k] else map[];
      rows := rows[k := previous + document];
    }

    /** `Table.UpdateItemAsync` removing attribute `name` from the row at `(partition, sort)`. */
    method RemoveAttribute(partition: string, sort: string, name: string)
      requires Valid() && name != PartitionAttribute && name != SortKeyAttribute
      modifies this
      ensures Valid()
      ensures rows == AttributeRemoved(old(rows), Key(partition, sort), name)
    {
      var k := Key(partition, sort);
      if k in rows {
        AttributeRemovedKeepsKeysAgree(rows, k, name);
        rows := rows[k := rows[k] - {name}];
      }
    }

    /** `Table.DeleteItemAsync(partition, sort)`. */
    method DeleteItem(partition: string, sort: string)
      requires Valid()
      modifies this
      ensures Valid()
      ensures rows == Removed(old(rows), Key(partition, sort))
    {
      rows := rows - {Key(partition, sort)};
    }

    /** `Table.GetItemAsync(partition, sort)`: the row, or null. */
    method GetItem(partition: string, sort: string) returns (r: Option<Document>)
      ensures Key(partition, sort) in rows ==> r == Some(rows[Key(partition, sort)])
      ensures Key(partition, sort) !in rows ==> r == None
    {
      r := if Key(partition, sort) in rows then Some(rows[Key(partition, sort)]) else None;
    }

    /**
     * `Table.Scan` / `Table.Query`: a search over the rows matching `f`. Its `order` is
     * the order, left open by the store, in which the rows come out, page by page.
     */
    method Search(f: Filter) returns (search: Search)
      requires Valid()
      ensures fresh(search) && search.position == 0 && |search.pages| >= 1
      ensures IsListing(rows, f, search.order)
      ensures Flatten(search.pages) == RowsAt(rows, search.order)
    {
      var selected := Selected(rows, f);
      var remaining := selected;
      var listed: seq<Document> := [];
      ghost var order: seq<Key> := [];
      while remaining != {}
        invariant remaining <= selected
        invariant forall i, j | 0 <= i < j < |order| :: order[i] != order[j]
        invariant forall i | 0 <= i < |order| :: order[i] in selected && order[i] !in remaining
        invariant forall k | k in selected :: k in remaining || k in order
        invariant listed == RowsAt(rows, order)
        decreases remaining
      {
        var k :| k in remaining;
        listed := listed + [rows[k]];
        order := order + [k];
        remaining := remaining - {k};
      }
      search := new Search(Chunk(listed, pageSize), order);
    }
  }

  /** `search.GetNextSetAsync()` and `search.IsDone` over the pages of one search. */
  class Search {
    const pages: seq<seq<Document>>
    ghost const order: seq<Key>
    var position: nat

    constructor (pages: seq<seq<Document>>, ghost order: seq<Key>)
      ensures this.pages == pages && this.order == order && position == 0
    {
      this.pages := pages;
      this.order := order;
      position := 0;
    }

    predicate IsDone()
      reads this
    {
      position >= |pages|
    }

    /** The next page; an empty one once the search is done. */
    method GetNextSet() returns (page: seq<Document>)
      modifies this
      ensures old(position) < |pages| ==> page == pages[old(position)] && position == old(position) + 1
      ensures old(position) >= |pages| ==> page == [] && position == old(position)
    {
      if position < |pages| {
        page := pages[position];
        position := position + 1;
      } else {
        page := [];
      }
    }
  }

  /** `order` lists the rows a search with `f` selects, each once. */
  ghost predicate IsListing(rows: Rows, f: Filter, order: seq<Key>) {
    && Enumerates(order, Selected(rows, f))
    && (forall i | 0 <= i < |order| :: order[i] in rows)
  }

  /** The scan `GetAllRestaurants` runs: every summary row. */
  const SummaryFilter: Filter := SortKeyEquals(SummarySortKey)

  /** The query `GetAllReviewsForRestaurant` runs: the review rows of one partition. */
  function ReviewFilter(restaurantId: string): Filter {
    PartitionAndSortPrefix(restaurantId, ReviewPrefix)
  }

  /** A listing has as many entries as there are keys. */
  lemma {:induction false} EnumerationSize(order: seq<Key>, keys: set<Key>)
    requires Enumerates(order, keys)
    ensures |order| == |keys|
    decreases |order|
  {
    if |order| > 0 {
      var last := order[|order| - 1];
      var rest := order[..|order| - 1];
      forall k | k in keys - {last}
        ensures k in rest
      {
        var i :| 0 <= i < |order| && order[i] == k;
        assert rest[i] == k;
      }
      EnumerationSize(rest, keys - {last});
    } else {
      assert keys == {};
    }
  }

  /** A listing of a single key is that key. */
  lemma EnumeratesOne(order: seq<Key>, k: Key)
    requires Enumerates(order, {k})
    ensures order == [k]
  {
    EnumerationSize(order, {k});
  }

  /** A listing of two keys is one of their two orders. */
  lemma EnumeratesTwo(order: seq<Key>, k1: Key, k2: Key)
    requires k1 != k2 && Enumerates(order, {k1, k2})
    ensures order == [k1, k2] || order == [k2, k1]
  {
    EnumerationSize(order, {k1, k2});
    assert order[0] in {k1, k2} && order[1] in {k1, k2};
  }

  /** A listing of no keys is empty. */
  lemma EnumeratesNone(order: seq<Key>)
    requires Enumerates(order, {})
    ensures order == []
  {
    EnumerationSize(order, {});
  }

  /** Two listings of the same keys hold the same keys in possibly different orders. */
  lemma ListingsArePermutations(order1: seq<Key>, order2: seq<Key>, keys: set<Key>)
    requires Enumerates(order1, keys) && Enumerates(order2, keys)
    ensures multiset(order1) == multiset(order2)
  {
    DistinctPermutation(order1, order2);
  }

  /** A put adds its key to the searches that match it, and changes no other selection. */
  lemma SelectedAfterPut(rows: Rows, item: Document, f: Filter)
    requires KeyOf(item).Some?
    ensures Selected(Put(rows, item), f)
         == Selected(rows, f) + (if Matches(f, KeyOf(item).value) then {KeyOf(item).value} else {})
  {
  }

  /** An update of an existing row selects the same rows as before. */
  lemma SelectedAfterUpdate(rows: Rows, document: Document, f: Filter)
    requires KeyOf(document).Some? && KeyOf(document).value in rows
    ensures Selected(Updated(rows, document), f) == Selected(rows, f)
  {
  }

  /** A delete takes its key out of every selection. */
  lemma SelectedAfterRemove(rows: Rows, key: Key, f: Filter)
    ensures Selected(Removed(rows, key), f) == Selected(rows, f) - {key}
  {
  }

  /** Putting an item at its own key keeps every row carrying its key. */
  lemma PutKeepsKeysAgree(rows: Rows, item: Document)
    requires KeysAgree(rows) && KeyOf(item).Some?
    ensures KeysAgree(Put(rows, item))
  {
  }

  /** Merging a document that carries its key keeps every row carrying its key. */
  lemma UpdatedKeepsKeysAgree(rows: Rows, document: Document)
    requires KeysAgree(rows) && KeyOf(document).Some?
    ensures KeysAgree(Updated(rows, document))
  {
    var k := KeyOf(document).value;
    var merged := Updated(rows, document)[k];
    assert merged[PartitionAttribute] == document[PartitionAttribute];
    assert merged[SortKeyAttribute] == document[SortKeyAttribute];
  }

  /** Removing an attribute other than the two key attributes keeps every row carrying its key. */
  lemma AttributeRemovedKeepsKeysAgree(rows: Rows, key: Key, name: string)
    requires KeysAgree(rows) && name != PartitionAttribute && name != SortKeyAttribute
    ensures KeysAgree(AttributeRemoved(rows, key, name))
  {
    if key in rows {
      var row := AttributeRemoved(rows, key, name)[key];
      assert KeyOf(rows[key]) == Some(key);
      assert row[PartitionAttribute] == rows[key][PartitionAttribute];
      assert row[SortKeyAttribute] == rows[key][SortKeyAttribute];
    }
  }

  lemma RemovedKeepsKeysAgree(rows: Rows, key: Key)
    requires KeysAgree(rows)
    ensures KeysAgree(Removed(rows, key))
  {
  }
}
