/** The search screen (frontend/app/search.tsx): a fixed list of five items
    filtered by a case-insensitive substring test on each name. */
module Search {

  datatype Item = Item(id: string, name: string)

  const DummyData: seq<Item> := [
    Item("1", "Rectangle 1"),
    Item("2", "Circle 2"),
    Item("3", "Triangle 3"),
    Item("4", "Component A"),
    Item("5", "Frame 5")
  ]

  /** `toLowerCase` on one character (ASCII letters only). */
  function LowerChar(c: char): (r: char)
    ensures 'A' <= c <= 'Z' ==> r as int == c as int + 32
    ensures !('A' <= c <= 'Z') ==> r == c
  {
    if 'A' <= c <= 'Z' then (c as int + 32) as char else c
  }

  function Lower(s: string): (r: string)
    ensures |r| == |s|
    ensures forall i :: 0 <= i < |s| ==> r[i] == LowerChar(s[i])
  {
    if |s| == 0 then "" else [LowerChar(s[0])] + Lower(s[1..])
  }

  /** The needle occurs in the haystack starting at index i. */
  ghost predicate OccursAt(haystack: string, needle: string, i: int) {
    0 <= i && i + |needle| <= |haystack| && haystack[i..i + |needle|] == needle
  }

  lemma OccursShift(haystack: string, needle: string, i: int)
    requires |haystack| > 0 && i >= 1
    ensures OccursAt(haystack, needle, i) <==> OccursAt(haystack[1..], needle, i - 1)
  {
    if i + |needle| <= |haystack| {
      assert haystack[1..][i - 1..i - 1 + |needle|] == haystack[i..i + |needle|];
    }
  }

  /** `includes`: true exactly when the needle occurs somewhere in the haystack. */
  function Includes(haystack: string, needle: string): (r: bool)
    ensures r <==> exists i :: OccursAt(haystack, needle, i)
    decreases |haystack|
  {
    if |needle| > |haystack| then
      false
    else if haystack[..|needle|] == needle then
      assert OccursAt(haystack, needle, 0);
      true
    else
      var rest := Includes(haystack[1..], needle);
      assert rest ==> exists i :: OccursAt(haystack, needle, i) by {
        if rest {
          var j :| OccursAt(haystack[1..], needle, j);
          OccursShift(haystack, needle, j + 1);
        }
      }
      assert (exists i :: OccursAt(haystack, needle, i)) ==> rest by {
        if exists i :: OccursAt(haystack, needle, i) {
          var i :| OccursAt(haystack, needle, i);
          assert i != 0;
          OccursShift(haystack, needle, i);
        }
      }
      rest
  }

  /** The filter's test: the lowercased name contains the lowercased query. */
  function Matches(item: Item, query: string): bool {
    Includes(Lower(item.name), Lower(query))
  }

  function Filter(items: seq<Item>, query: string): seq<Item>
    decreases |items|
  {
    if |items| == 0 then []
    else if Matches(items[0], query) then [items[0]] + Filter(items[1..], query)
    else Filter(items[1..], query)
  }

  /** xs is a subsequence of ys: ys with some entries dropped, order kept. */
  ghost predicate Subsequence<T>(xs: seq<T>, ys: seq<T>)
    decreases |ys|
  {
    if |ys| == 0 then |xs| == 0
    else (|xs| > 0 && xs[0] == ys[0] && Subsequence(xs[1..], ys[1..])) || Subsequence(xs, ys[1..])
  }

  /** The result is the input with the non-matching items dropped, in their
      original order, and an item is kept exactly when it matches. */
  lemma {:induction false} FilterKeepsOrder(items: seq<Item>, query: string)
    ensures Subsequence(Filter(items, query), items)
    ensures forall x :: x in Filter(items, query) <==> x in items && Matches(x, query)
    ensures |Filter(items, query)| <= |items|
    decreases |items|
  {
    if |items| > 0 {
      FilterKeepsOrder(items[1..], query);
      var rest := Filter(items[1..], query);
      if Matches(items[0], query) {
        assert ([items[0]] + rest)[1..] == rest;
      }
      assert items == [items[0]] + items[1..];
    }
  }

  /** The empty string occurs in every name, so an empty query keeps every item. */
  lemma {:induction false} EmptyQueryKeepsAll(items: seq<Item>)
    ensures Filter(items, "") == items
    decreases |items|
  {
    if |items| > 0 {
      assert OccursAt(Lower(items[0].name), "", 0);
      EmptyQueryKeepsAll(items[1..]);
    }
  }

  lemma EmptySearchShowsFive()
    ensures Filter(DummyData, "") == DummyData && |Filter(DummyData, "")| == 5
  {
    EmptyQueryKeepsAll(DummyData);
  }

  /** A needle of a needle is a needle. */
  lemma OccursTransitive(h: string, n: string, m: string, i: int, j: int)
    requires OccursAt(h, n, i) && OccursAt(n, m, j)
    ensures OccursAt(h, m, i + j)
  {
    assert forall k :: 0 <= k < |n| ==> n[k] == h[i + k];
    assert forall k :: 0 <= k < |m| ==> m[k] == n[j + k];
  }

  /** Widening a query (to one contained in it, ignoring case) keeps every item the
      narrower query kept, so deleting characters brings items back. */
  lemma {:induction false} WideningKeeps(items: seq<Item>, narrow: string, wide: string)
    requires Includes(Lower(narrow), Lower(wide))
    ensures forall x :: x in Filter(items, narrow) ==> x in Filter(items, wide)
  {
    FilterKeepsOrder(items, narrow);
    FilterKeepsOrder(items, wide);
    forall x | x in Filter(items, narrow)
      ensures Matches(x, wide)
    {
      var i :| OccursAt(Lower(x.name), Lower(narrow), i);
      var j :| OccursAt(Lower(narrow), Lower(wide), j);
      OccursTransitive(Lower(x.name), Lower(narrow), Lower(wide), i, j);
    }
  }

  /** The screen's state: the full list, the query text and the list shown. */
  class SearchScreen {
    const data: seq<Item>
    var searchQuery: string
    var filtered: seq<Item>

    constructor()
      ensures data == DummyData && searchQuery == "" && filtered == DummyData
    {
      data := DummyData;
      searchQuery, filtered := "", DummyData;
    }

    /** `handleSearch(text)`: store the text and filter the full list afresh. */
    method HandleSearch(text: string)
      modifies this
      ensures searchQuery == text
      ensures filtered == Filter(data, text)
    {
      searchQuery := text;
      filtered := Filter(data, text);
    }
  }

  /** Since every search starts from the full list, the list shown depends on the
      latest text alone: typing and then clearing the query shows all five
      items again. */
  method TypeThenClear(text: string) returns (shown: seq<Item>, query: string)
    ensures query == "" && shown == DummyData
  {
    var screen := new SearchScreen();
    screen.HandleSearch(text);
    screen.HandleSearch("");
    EmptyQueryKeepsAll(screen.data);
    shown, query := screen.filtered, screen.searchQuery;
  }
}
