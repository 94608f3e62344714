/**
 The array methods the handlers apply to one collection, all matching a
 record by strict equality of its `id` with the requested one: `find`
 (get), `findIndex` (update), `some` (appointment validation) and `filter`
 (delete). An id is an `Option<Value>` because an absent field reads as
 `undefined`, and `undefined === undefined` holds in JavaScript.
 */
module Collections {
  import opened Records

  /** No record of `s` has this id. */
  ghost predicate NoMatch(s: seq<Record>, id: Option<Value>)
  {
    forall i :: 0 <= i < |s| ==> IdOf(s[i]) != id
  }

  /** `i` is the position of the first record of `s` with this id. */
  ghost predicate FirstMatch(s: seq<Record>, id: Option<Value>, i: int)
  {
    && 0 <= i < |s|
    && IdOf(s[i]) == id
    && forall j :: 0 <= j < i ==> IdOf(s[j]) != id
  }

  /** `s.findIndex(x => x.id === id)`: -1 on a miss, else the first hit. */
  function FindIndex(s: seq<Record>, id: Option<Value>): (r: int)
    ensures r == -1 <==> NoMatch(s, id)
    ensures r != -1 ==> FirstMatch(s, id, r)
  {
    if s == [] then -1
    else if IdOf(s[0]) == id then 0
    else
      var k := FindIndex(s[1..], id);
      if k == -1 then -1 else k + 1
  }

  /** `s.find(x => x.id === id)`: `undefined` (None) on a miss. */
  function Find(s: seq<Record>, id: Option<Value>): (r: Option<Record>)
    ensures r.None? <==> NoMatch(s, id)
    ensures r.Some? ==> exists i :: FirstMatch(s, id, i) && r.value == s[i]
  {
    if s == [] then None
    else if IdOf(s[0]) == id then Some(s[0])
    else Find(s[1..], id)
  }

  /** `s.some(x => x.id === id)`. */
  function Occurs(s: seq<Record>, id: Option<Value>): (b: bool)
    ensures b <==> exists x :: x in s && IdOf(x) == id
  {
    if s == [] then false
    else IdOf(s[0]) == id || Occurs(s[1..], id)
  }

  /** `s.filter(x => x.id !== id)`. */
  function Without(s: seq<Record>, id: Option<Value>): (r: seq<Record>)
    ensures |r| <= |s|
    ensures forall x :: x in r <==> x in s && IdOf(x) != id
    ensures forall x :: multiset(r)[x] == if IdOf(x) == id then 0 else multiset(s)[x]
  {
    if s == [] then []
    else
      assert s == [s[0]] + s[1..];
      if IdOf(s[0]) == id then Without(s[1..], id)
      else [s[0]] + Without(s[1..], id)
  }

  /** `find` returns the record at the index `findIndex` reports. */
  lemma FindAtFindIndex(s: seq<Record>, id: Option<Value>)
    ensures Find(s, id) == if FindIndex(s, id) == -1 then None else Some(s[FindIndex(s, id)])
  {
  }

  /** Appending a record never changes what an earlier hit finds; on a miss
      the appended record is found when it carries the id. */
  lemma {:induction false} FindAppend(s: seq<Record>, x: Record, id: Option<Value>)
    ensures Find(s + [x], id) ==
      if Find(s, id).Some? then Find(s, id)
      else if IdOf(x) == id then Some(x)
      else None
  {
    if s == [] {
      assert s + [x] == [x];
    } else {
      assert (s + [x])[0] == s[0];
      assert (s + [x])[1..] == s[1..] + [x];
      FindAppend(s[1..], x, id);
    }
  }

  /** `filter` keeps the relative order: it distributes over concatenation. */
  lemma {:induction false} WithoutAppend(a: seq<Record>, b: seq<Record>, id: Option<Value>)
    ensures Without(a + b, id) == Without(a, id) + Without(b, id)
  {
    if a == [] {
      assert a + b == b;
    } else {
      assert (a + b)[0] == a[0];
      assert (a + b)[1..] == a[1..] + b;
      WithoutAppend(a[1..], b, id);
    }
  }

  /** On a single record `filter` keeps it exactly when its id differs. */
  lemma WithoutSingle(x: Record, id: Option<Value>)
    ensures Without([x], id) == if IdOf(x) == id then [] else [x]
  {
  }

  /** When nothing matches, `filter` returns the collection as it was. */
  lemma {:induction false} WithoutNoMatch(s: seq<Record>, id: Option<Value>)
    requires NoMatch(s, id)
    ensures Without(s, id) == s
  {
    if s != [] {
      assert NoMatch(s[1..], id) by {
        forall i | 0 <= i < |s[1..]| ensures IdOf(s[1..][i]) != id {
          assert s[1..][i] == s[i + 1];
        }
      }
      WithoutNoMatch(s[1..], id);
    }
  }

  /** After `filter`, `find` and `findIndex` miss the removed id. */
  lemma FindWithout(s: seq<Record>, id: Option<Value>)
    ensures Find(Without(s, id), id).None?
    ensures FindIndex(Without(s, id), id) == -1
  {
  }

  /** Deleting twice removes nothing more. */
  lemma WithoutIdempotent(s: seq<Record>, id: Option<Value>)
    ensures Without(Without(s, id), id) == Without(s, id)
  {
    FindWithout(s, id);
    WithoutNoMatch(Without(s, id), id);
  }

  /** Applying the same update twice at the first hit is the same as once,
      as long as the body leaves the record's id as it was. */
  lemma UpdateIdempotent(s: seq<Record>, id: Option<Value>, body: Record)
    requires FindIndex(s, id) != -1
    requires IdOf(Spread(s[FindIndex(s, id)], body)) == id
    ensures
      var i := FindIndex(s, id);
      var t := s[i := Spread(s[i], body)];
      FindIndex(t, id) == i && t[i := Spread(t[i], body)] == t
  {
    var i := FindIndex(s, id);
    var t := s[i := Spread(s[i], body)];
    assert FirstMatch(t, id, i);
    SpreadIdempotent(s[i], body);
  }
}
