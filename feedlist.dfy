/** The list transformations the feed handlers of src/chatter.jsx apply to
    `chatters`: replacing entries by `_id` (the `map` of handleUpdateChatter)
    and dropping entries by `_id` (the `filter` of handleDeleteChatter). Both
    compare `_id` only; nothing else of a post is looked at. */
module FeedList {
  import opened Entities

  /** The `_id` of every entry, in list order. */
  function Ids(s: seq<Post>): seq<string>
  {
    seq(|s|, i requires 0 <= i < |s| => s[i].id)
  }

  /** No two entries share an `_id`. The source never checks this; the lemmas
      below say which operations keep it. */
  ghost predicate UniqueIds(s: seq<Post>)
  {
    forall i, j :: 0 <= i < j < |s| ==> s[i].id != s[j].id
  }

  /** `chatters.map(c => c._id === u._id ? u : c)`. */
  function ReplaceById(s: seq<Post>, u: Post): (r: seq<Post>)
    ensures |r| == |s|
  {
    if s == [] then []
    else [if s[0].id == u.id then u else s[0]] + ReplaceById(s[1..], u)
  }

  /** `chatters.filter(c => c._id !== id)`. */
  function RemoveById(s: seq<Post>, id: string): (r: seq<Post>)
    ensures |r| <= |s|
  {
    if s == [] then []
    else (if s[0].id == id then [] else [s[0]]) + RemoveById(s[1..], id)
  }

  // ---------------------------------------------------------------------------
  // Update

  /** Position by position, an update puts `u` exactly where the old entry had
      `u`'s `_id` and keeps every other entry where it was. */
  lemma {:induction false} ReplaceByIdAt(s: seq<Post>, u: Post, i: nat)
    requires i < |s|
    ensures ReplaceById(s, u)[i] == if s[i].id == u.id then u else s[i]
  {
    if i > 0 {
      ReplaceByIdAt(s[1..], u, i - 1);
    }
  }

  /** An update never changes which `_id` sits at which position. */
  lemma ReplaceByIdKeepsIds(s: seq<Post>, u: Post)
    ensures Ids(ReplaceById(s, u)) == Ids(s)
  {
    forall i | 0 <= i < |s|
      ensures ReplaceById(s, u)[i].id == s[i].id
    {
      ReplaceByIdAt(s, u, i);
    }
  }

  /** Updating a post that is not in the list (deleted, or dropped by a
      refresh) leaves the list as it was. */
  lemma ReplaceByIdAbsent(s: seq<Post>, u: Post)
    requires u.id !in Ids(s)
    ensures ReplaceById(s, u) == s
  {
    forall i | 0 <= i < |s|
      ensures ReplaceById(s, u)[i] == s[i]
    {
      assert Ids(s)[i] == s[i].id;
      ReplaceByIdAt(s, u, i);
    }
  }

  /** The updated post is in the list afterwards exactly when its `_id` was. */
  lemma ReplaceByIdInstalls(s: seq<Post>, u: Post)
    ensures u in ReplaceById(s, u) <==> u.id in Ids(s)
  {
    var r := ReplaceById(s, u);
    if u.id in Ids(s) {
      var i :| 0 <= i < |s| && Ids(s)[i] == u.id;
      ReplaceByIdAt(s, u, i);
      assert r[i] == u;
    }
    if u in r {
      var i :| 0 <= i < |r| && r[i] == u;
      ReplaceByIdAt(s, u, i);
      assert Ids(s)[i] == u.id;
    }
  }

  /** Applying the same update twice is the same as applying it once. */
  lemma {:induction false} ReplaceByIdIdempotent(s: seq<Post>, u: Post)
    ensures ReplaceById(ReplaceById(s, u), u) == ReplaceById(s, u)
  {
    var r := ReplaceById(s, u);
    forall i | 0 <= i < |s|
      ensures ReplaceById(r, u)[i] == r[i]
    {
      ReplaceByIdAt(s, u, i);
      ReplaceByIdAt(r, u, i);
    }
  }

  /** An update keeps the `_id`s unique when they were. */
  lemma ReplaceByIdKeepsUnique(s: seq<Post>, u: Post)
    requires UniqueIds(s)
    ensures UniqueIds(ReplaceById(s, u))
  {
    ReplaceByIdKeepsIds(s, u);
    var r := ReplaceById(s, u);
    forall i, j | 0 <= i < j < |r|
      ensures r[i].id != r[j].id
    {
      assert Ids(r)[i] == Ids(s)[i] && Ids(r)[j] == Ids(s)[j];
    }
  }

  // ---------------------------------------------------------------------------
  // Delete

  /** A post survives a delete exactly when it was there and has another `_id`;
      in particular no entry with the deleted `_id` is left. */
  lemma {:induction false} RemoveByIdMembers(s: seq<Post>, id: string, p: Post)
    ensures p in RemoveById(s, id) <==> p in s && p.id != id
  {
    if s != [] {
      RemoveByIdMembers(s[1..], id, p);
      assert s == [s[0]] + s[1..];
    }
  }

  /** Deleting from a list made of two parts deletes from each part and keeps
      them in order: the survivors keep their relative order. */
  lemma {:induction false} RemoveByIdConcat(a: seq<Post>, b: seq<Post>, id: string)
    ensures RemoveById(a + b, id) == RemoveById(a, id) + RemoveById(b, id)
  {
    if a == [] {
      assert a + b == b;
    } else {
      assert (a + b)[0] == a[0] && (a + b)[1..] == a[1..] + b;
      RemoveByIdConcat(a[1..], b, id);
    }
  }

  /** The list shrinks by exactly the number of entries carrying the id. */
  lemma {:induction false} RemoveByIdLength(s: seq<Post>, id: string)
    ensures |RemoveById(s, id)| == |s| - multiset(Ids(s))[id]
  {
    if s != [] {
      RemoveByIdLength(s[1..], id);
      assert Ids(s) == [s[0].id] + Ids(s[1..]);
    }
  }

  /** Deleting an id that no entry carries changes nothing. */
  lemma {:induction false} RemoveByIdAbsent(s: seq<Post>, id: string)
    requires id !in Ids(s)
    ensures RemoveById(s, id) == s
  {
    if s != [] {
      assert Ids(s) == [s[0].id] + Ids(s[1..]);
      RemoveByIdAbsent(s[1..], id);
      assert s == [s[0]] + s[1..];
    }
  }

  /** Deleting the same id a second time changes nothing. */
  lemma RemoveByIdIdempotent(s: seq<Post>, id: string)
    ensures RemoveById(RemoveById(s, id), id) == RemoveById(s, id)
  {
    var r := RemoveById(s, id);
    if id in Ids(r) {
      var i :| 0 <= i < |r| && Ids(r)[i] == id;
      RemoveByIdMembers(s, id, r[i]);
    }
    RemoveByIdAbsent(r, id);
  }

  /** A delete keeps the `_id`s unique when they were. */
  lemma {:induction false} RemoveByIdKeepsUnique(s: seq<Post>, id: string)
    requires UniqueIds(s)
    ensures UniqueIds(RemoveById(s, id))
  {
    if s != [] {
      RemoveByIdKeepsUnique(s[1..], id);
      var rest := RemoveById(s[1..], id);
      forall q | q in rest
        ensures q.id != s[0].id
      {
        RemoveByIdMembers(s[1..], id, q);
        var j :| 0 <= j < |s[1..]| && s[1..][j] == q;
        assert s[j + 1] == q;
      }
    }
  }

  /** Editing a post and then deleting it leaves the same list as deleting it
      straight away. */
  lemma {:induction false} RemoveAfterReplace(s: seq<Post>, u: Post)
    ensures RemoveById(ReplaceById(s, u), u.id) == RemoveById(s, u.id)
  {
    if s != [] {
      RemoveAfterReplace(s[1..], u);
      var r := ReplaceById(s, u);
      assert r[0] == (if s[0].id == u.id then u else s[0]) && r[1..] == ReplaceById(s[1..], u);
    }
  }

  // ---------------------------------------------------------------------------
  // Append

  /** Appending keeps the `_id`s unique exactly when the new post's `_id` is
      fresh; the source does not check this. */
  lemma AppendKeepsUnique(s: seq<Post>, p: Post)
    requires UniqueIds(s)
    ensures UniqueIds(s + [p]) <==> p.id !in Ids(s)
  {
    var t := s + [p];
    if p.id in Ids(s) {
      var i :| 0 <= i < |s| && Ids(s)[i] == p.id;
      assert t[i].id == t[|s|].id;
    } else {
      forall i, j | 0 <= i < j < |t|
        ensures t[i].id != t[j].id
      {
        if j == |s| {
          assert Ids(s)[i] == t[i].id;
        }
      }
    }
  }
}
