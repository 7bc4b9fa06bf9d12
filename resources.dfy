/**
 * Page-local resource lists: comments, playlists, tweets and channel videos
 * are each held as a sequence of backend records keyed by `_id`. A page
 * prepends what it adds, filters out what it deletes, replaces in place
 * what it edits, and swaps the whole list for what a refetch returns.
 */
module Resources {
  import opened Js

  /** `r._id` */
  function IdOf(r: Json): Json {
    Get(r, "_id")
  }

  /** The user id a page's list fetch asks for: none when `user?._id` is
      falsy, and then the page makes no call. */
  function FetchRequest(user: Json): (r: Option<Json>)
    ensures r.Some? <==> Truthy(Get(user, "_id"))
    ensures r.Some? ==> r.value == Get(user, "_id")
  {
    if Truthy(Get(user, "_id")) then Some(Get(user, "_id")) else None
  }

  /** The list a page keeps from a payload: the array's elements, and the
      empty list for anything else. */
  function AsList(j: Json): (r: seq<Json>)
    ensures j.Arr? ==> r == j.items
    ensures !j.Arr? ==> r == []
  {
    if j.Arr? then j.items else []
  }

  /** `j || []` tested with `.length === 0` and then mapped over: the
      elements to go on with, or None where the value has no `.map` and the
      call throws. An object whose `length` field is 0 passes the emptiness
      test and counts as empty. */
  function ListToMap(j: Json): (r: Option<seq<Json>>)
    ensures j.Arr? ==> r == Some(j.items)
    ensures !Truthy(j) ==> r == Some([])
    ensures r.Some? && r.value != [] ==> j.Arr?
    ensures r.None? <==> Truthy(j) && !j.Arr? && !(j.Obj? && Get(j, "length") == Num(0))
  {
    if j.Arr? then Some(j.items)
    else if !Truthy(j) || (j.Obj? && Get(j, "length") == Num(0)) then Some([])
    else None
  }

  /** `res.data?.data?.[0]`: the single video record the video-by-id
      endpoint wraps in an array. */
  function FirstRecord(body: Json): Json {
    First(Get(body, "data"))
  }

  /** `[x, ...s]` */
  function Prepend(x: Json, s: seq<Json>): (r: seq<Json>)
    ensures |r| == |s| + 1 && r[0] == x && r[1..] == s
  {
    [x] + s
  }

  /** `s.filter(x => x._id !== id)` */
  function RemoveById(s: seq<Json>, id: Json): (r: seq<Json>)
    ensures |r| <= |s|
  {
    if s == [] then []
    else (if IdOf(s[0]) != id then [s[0]] else []) + RemoveById(s[1..], id)
  }

  /** A record survives a delete exactly when its id is not the one
      deleted. */
  lemma {:induction false} RemoveByIdMembers(s: seq<Json>, id: Json)
    ensures forall x :: x in RemoveById(s, id) <==> x in s && IdOf(x) != id
  {
    if s != [] {
      RemoveByIdMembers(s[1..], id);
      assert s == [s[0]] + s[1..];
    }
  }

  /** Deleting an id no record carries changes nothing. */
  lemma {:induction false} RemoveByIdAbsent(s: seq<Json>, id: Json)
    requires forall x :: x in s ==> IdOf(x) != id
    ensures RemoveById(s, id) == s
  {
    if s != [] {
      assert s[0] in s;
      RemoveByIdAbsent(s[1..], id);
      assert s == [s[0]] + s[1..];
    }
  }

  /** `s.map(x => x._id === id ? rec : x)` */
  function ReplaceById(s: seq<Json>, id: Json, rec: Json): (r: seq<Json>)
    ensures |r| == |s|
    ensures forall i :: 0 <= i < |s| && IdOf(s[i]) == id ==> r[i] == rec
    ensures forall i :: 0 <= i < |s| && IdOf(s[i]) != id ==> r[i] == s[i]
  {
    if s == [] then []
    else [if IdOf(s[0]) == id then rec else s[0]] + ReplaceById(s[1..], id, rec)
  }

  /** Deleting keeps the survivors in their order: filtering a list cut in
      two is filtering each part and gluing them back. */
  lemma {:induction false} RemoveByIdKeepsOrder(a: seq<Json>, b: seq<Json>, id: Json)
    ensures RemoveById(a + b, id) == RemoveById(a, id) + RemoveById(b, id)
  {
    if a == [] {
      assert a + b == b;
    } else {
      var head := if IdOf(a[0]) != id then [a[0]] else [];
      assert (a + b)[0] == a[0] && (a + b)[1..] == a[1..] + b;
      RemoveByIdKeepsOrder(a[1..], b, id);
      calc {
        RemoveById(a + b, id);
        head + RemoveById(a[1..] + b, id);
        head + (RemoveById(a[1..], id) + RemoveById(b, id));
        (head + RemoveById(a[1..], id)) + RemoveById(b, id);
      }
    }
  }

  /** Deleting the same id twice changes nothing the second time. */
  lemma RemoveByIdIdempotent(s: seq<Json>, id: Json)
    ensures RemoveById(RemoveById(s, id), id) == RemoveById(s, id)
  {
    RemoveByIdMembers(s, id);
    RemoveByIdAbsent(RemoveById(s, id), id);
  }

  /** Deleting a record that was just prepended gives back the list it was
      prepended to, when no older record shares its id. */
  lemma PrependThenRemove(x: Json, s: seq<Json>)
    requires forall y :: y in s ==> IdOf(y) != IdOf(x)
    ensures RemoveById(Prepend(x, s), IdOf(x)) == s
  {
    assert Prepend(x, s)[1..] == s;
    RemoveByIdAbsent(s, IdOf(x));
  }

  /** An edit never changes which records a later delete of that id leaves:
      when the server's record keeps the id, replacing then deleting is
      deleting. */
  lemma {:induction false} RemoveAfterReplace(s: seq<Json>, id: Json, rec: Json)
    requires IdOf(rec) == id
    ensures RemoveById(ReplaceById(s, id, rec), id) == RemoveById(s, id)
  {
    if s != [] {
      RemoveAfterReplace(s[1..], id, rec);
      assert ReplaceById(s, id, rec)[1..] == ReplaceById(s[1..], id, rec);
    }
  }
}
