/** The array idioms the stores apply to their shape lists, keyed by shape id:
    `findIndex`, `find`, `filter(s => s.id !== id)` and `map` over the matching shapes. */
module ShapeList {
  import opened ShapeTypes

  /** No two shapes share an id. */
  ghost predicate UniqueIds(s: seq<Shape>) {
    forall i, j :: 0 <= i < j < |s| ==> s[i].id != s[j].id
  }

  ghost predicate HasId(s: seq<Shape>, id: string) {
    exists i :: 0 <= i < |s| && s[i].id == id
  }

  /** `findIndex(s => s.id === id)`: the first index holding the id, or -1. */
  function IndexOf(s: seq<Shape>, id: string): (r: int)
    ensures -1 <= r < |s|
    ensures r >= 0 ==> s[r].id == id && forall j :: 0 <= j < r ==> s[j].id != id
    ensures r == -1 <==> !HasId(s, id)
  {
    if |s| == 0 then -1
    else if s[0].id == id then 0
    else
      var k := IndexOf(s[1..], id);
      if k == -1 then
        assert forall j :: 1 <= j < |s| ==> s[j].id == s[1..][j - 1].id;
        -1
      else k + 1
  }

  /** `find(s => s.id === id)`: the first shape with the id. */
  function FindById(s: seq<Shape>, id: string): (r: Option<Shape>)
    ensures r.Some? <==> HasId(s, id)
    ensures r.Some? ==> r.value.id == id && r.value in s
  {
    var k := IndexOf(s, id);
    if k == -1 then None else Some(s[k])
  }

  /** A found value as a list of zero or one elements, for `[...xs, found]` guarded by `if (found)`. */
  function Found(o: Option<Shape>): (r: seq<Shape>)
    ensures |r| <= 1
    ensures o.Some? ==> r == [o.value]
    ensures o.None? ==> r == []
  {
    if o.Some? then [o.value] else []
  }

  /** `filter(s => s.id !== id)`: every shape except those with the id, in order. */
  function WithoutId(s: seq<Shape>, id: string): (r: seq<Shape>)
    ensures |r| <= |s|
    ensures forall k :: 0 <= k < |r| ==> r[k].id != id
    ensures !HasId(s, id) ==> r == s
  {
    if |s| == 0 then []
    else if s[0].id == id then WithoutId(s[1..], id)
    else [s[0]] + WithoutId(s[1..], id)
  }

  /** Exactly the shapes of s without the id survive the filter. */
  lemma {:induction false} WithoutIdMembers(s: seq<Shape>, id: string, x: Shape)
    ensures x in WithoutId(s, id) <==> x in s && x.id != id
  {
    if |s| > 0 {
      WithoutIdMembers(s[1..], id, x);
      assert x in s <==> x == s[0] || x in s[1..];
    }
  }

  /** Removing the only shape with an id takes out exactly the element at its index. */
  lemma {:induction false} WithoutUniqueId(s: seq<Shape>, i: int)
    requires 0 <= i < |s|
    requires forall j :: 0 <= j < |s| && j != i ==> s[j].id != s[i].id
    ensures WithoutId(s, s[i].id) == s[..i] + s[i + 1..]
  {
    var id := s[i].id;
    var t := s[1..];
    if i == 0 {
      assert !HasId(t, id) by {
        forall j | 0 <= j < |t| ensures t[j].id != id { assert t[j] == s[j + 1]; }
      }
      assert s[..0] + s[1..] == t;
    } else {
      assert s[0].id != id;
      assert t[i - 1] == s[i];
      forall j | 0 <= j < |t| && j != i - 1 ensures t[j].id != t[i - 1].id { assert t[j] == s[j + 1]; }
      WithoutUniqueId(t, i - 1);
      DropAfterHead(s, i);
    }
  }

  /** Dropping index i of s is keeping its head and dropping index i - 1 of its tail. */
  lemma DropAfterHead<T>(s: seq<T>, i: int)
    requires 0 < i < |s|
    ensures [s[0]] + (s[1..][..i - 1] + s[1..][i..]) == s[..i] + s[i + 1..]
  {
    assert s[1..][..i - 1] == s[1..i];
    assert s[1..][i..] == s[i + 1..];
    assert [s[0]] + s[1..i] == s[..i];
  }

  /** `map(s => s.id === id ? f(s) : s)`: every matching shape replaced by f of it, the rest left alone. */
  function MapById(s: seq<Shape>, id: string, f: Shape -> Shape): (r: seq<Shape>)
    ensures |r| == |s|
    ensures forall i :: 0 <= i < |s| ==> r[i] == if s[i].id == id then f(s[i]) else s[i]
  {
    if |s| == 0 then []
    else [if s[0].id == id then f(s[0]) else s[0]] + MapById(s[1..], id, f)
  }

  /** The ids of a list, in order. */
  function Ids(s: seq<Shape>): (r: seq<string>)
    ensures |r| == |s| && forall i :: 0 <= i < |s| ==> r[i] == s[i].id
  {
    if |s| == 0 then [] else [s[0].id] + Ids(s[1..])
  }

  /** A map whose function keeps ids leaves the id sequence, and hence uniqueness, unchanged. */
  lemma {:induction false} MapByIdKeepsIds(s: seq<Shape>, id: string, f: Shape -> Shape)
    requires forall x :: f(x).id == x.id
    ensures Ids(MapById(s, id, f)) == Ids(s)
    ensures UniqueIds(s) ==> UniqueIds(MapById(s, id, f))
  {
    var m := MapById(s, id, f);
    assert forall i :: 0 <= i < |s| ==> m[i].id == s[i].id;
    assert forall i :: 0 <= i < |s| ==> Ids(m)[i] == Ids(s)[i];
  }

  /** Filtering keeps ids unique. */
  lemma {:induction false} WithoutIdKeepsUnique(s: seq<Shape>, id: string)
    requires UniqueIds(s)
    ensures UniqueIds(WithoutId(s, id))
  {
    if |s| > 0 {
      WithoutIdKeepsUnique(s[1..], id);
      if s[0].id != id {
        var r := WithoutId(s[1..], id);
        forall j | 0 <= j < |r| ensures r[j].id != s[0].id {
          WithoutIdMembers(s[1..], id, r[j]);
          var k :| 0 <= k < |s[1..]| && s[1..][k] == r[j];
          assert s[1..][k] == s[k + 1];
        }
      }
    }
  }

  /** Filtering distributes over concatenation. */
  lemma {:induction false} WithoutIdAppend(a: seq<Shape>, b: seq<Shape>, id: string)
    ensures WithoutId(a + b, id) == WithoutId(a, id) + WithoutId(b, id)
  {
    if |a| > 0 {
      var t := a[1..];
      WithoutIdAppend(t, b, id);
      assert (a + b)[1..] == t + b;
      var x, y := WithoutId(t, id), WithoutId(b, id);
      if a[0].id == id {
        assert WithoutId(a + b, id) == WithoutId(t + b, id);
        assert WithoutId(a, id) == x;
      } else {
        assert WithoutId(a + b, id) == [a[0]] + WithoutId(t + b, id);
        assert WithoutId(a, id) == [a[0]] + x;
        assert [a[0]] + (x + y) == ([a[0]] + x) + y;
      }
    } else {
      assert a + b == b;
    }
  }

  /** `find` on a non-empty list: the head if it has the id, else `find` on the tail. */
  lemma FindByIdCons(s: seq<Shape>, id: string)
    requires |s| > 0
    ensures FindById(s, id) == if s[0].id == id then Some(s[0]) else FindById(s[1..], id)
    ensures s[0].id != id ==> (HasId(s, id) <==> HasId(s[1..], id))
  {
    if s[0].id != id {
      var k := IndexOf(s[1..], id);
      assert IndexOf(s, id) == if k == -1 then -1 else k + 1;
      if k != -1 {
        assert s[k + 1] == s[1..][k];
      }
    }
  }

  /** The first shape with the id in a + b comes from a when a has one, else from b. */
  lemma {:induction false} FindByIdAppend(a: seq<Shape>, b: seq<Shape>, id: string)
    ensures FindById(a + b, id) == if HasId(a, id) then FindById(a, id) else FindById(b, id)
  {
    if |a| > 0 {
      FindByIdAppend(a[1..], b, id);
      FindByIdCons(a + b, id);
      FindByIdCons(a, id);
      assert (a + b)[0] == a[0];
      assert (a + b)[1..] == a[1..] + b;
    } else {
      assert a + b == b;
    }
  }

  /** In a list with unique ids, the shape at index i is the one `find` returns for its id. */
  lemma FindUnique(s: seq<Shape>, i: int)
    requires 0 <= i < |s|
    requires forall j :: 0 <= j < |s| && j != i ==> s[j].id != s[i].id
    ensures IndexOf(s, s[i].id) == i
    ensures FindById(s, s[i].id) == Some(s[i])
  {
  }
}
