/** The room's member list (`users` in Room.jsx) and the three list updates the
    socket handlers perform on it: `find` by id, idempotent append, and
    `filter` by id. */
module Members {
  import opened Wrappers

  /** A socket connection identifier. */
  type Id = string

  /** The `joinedAt` stamp; the model receives it instead of reading a clock. */
  type Timestamp = int

  datatype Member = Member(id: Id, username: string, isHost: bool, joinedAt: Timestamp)

  /** Some member of `users` carries `id`. */
  predicate HasId(users: seq<Member>, id: Id) {
    exists i :: 0 <= i < |users| && users[i].id == id
  }

  /** No two positions of `users` carry the same id. */
  predicate UniqueIds(users: seq<Member>) {
    forall i, j :: 0 <= i < |users| && 0 <= j < |users| && i != j ==> users[i].id != users[j].id
  }

  /** `users.find(u => u.id === id)`. */
  function FindById(users: seq<Member>, id: Id): (r: Option<Member>)
    ensures r.Some? <==> HasId(users, id)
    ensures r.Some? ==> r.value in users && r.value.id == id
  {
    if |users| == 0 then None
    else if users[0].id == id then Some(users[0])
    else
      var r := FindById(users[1..], id);
      assert HasId(users[1..], id) ==> HasId(users, id) by {
        if HasId(users[1..], id) {
          var i :| 0 <= i < |users[1..]| && users[1..][i].id == id;
          assert users[i + 1].id == id;
        }
      }
      r
  }

  /** The `user-joined` update: the list unchanged when `id` is already a
      member, otherwise the list with one new member appended at the end. */
  function Join(users: seq<Member>, id: Id, username: string, isHost: bool, joinedAt: Timestamp): (r: seq<Member>)
    ensures HasId(r, id)
    ensures |r| == if HasId(users, id) then |users| else |users| + 1
    ensures r[..|users|] == users
    ensures !HasId(users, id) ==> r[|users|] == Member(id, username, isHost, joinedAt)
  {
    if FindById(users, id).Some? then users
    else
      var r := users + [Member(id, username, isHost, joinedAt)];
      assert r[|users|].id == id;
      r
  }

  /** The `user-left` update: `users.filter(user => user.id !== id)`. */
  function RemoveById(users: seq<Member>, id: Id): (r: seq<Member>)
    ensures !HasId(r, id)
    ensures forall m :: m in r <==> m in users && m.id != id
    ensures |r| <= |users|
  {
    if |users| == 0 then []
    else if users[0].id == id then RemoveById(users[1..], id)
    else [users[0]] + RemoveById(users[1..], id)
  }

  /** `a` is `b` with some elements dropped and the rest kept in order. */
  ghost predicate IsSubsequence(a: seq<Member>, b: seq<Member>)
    decreases |b|
  {
    if a == [] then true
    else if b == [] then false
    else if a[0] == b[0] then IsSubsequence(a[1..], b[1..])
    else IsSubsequence(a, b[1..])
  }

  lemma {:induction false} UniqueCons(h: Member, t: seq<Member>)
    ensures UniqueIds([h] + t) <==> UniqueIds(t) && !HasId(t, h.id)
  {
    var s := [h] + t;
    assert s[1..] == t;
    if UniqueIds(s) {
      forall i, j | 0 <= i < |t| && 0 <= j < |t| && i != j ensures t[i].id != t[j].id {
        assert s[i + 1] == t[i] && s[j + 1] == t[j];
      }
      forall i | 0 <= i < |t| ensures t[i].id != h.id {
        assert s[i + 1] == t[i] && s[0] == h;
        assert i + 1 != 0;
      }
    }
    if UniqueIds(t) && !HasId(t, h.id) {
      forall i, j | 0 <= i < |s| && 0 <= j < |s| && i != j ensures s[i].id != s[j].id {
        if i == 0 {
          assert s[j] == t[j - 1];
        } else if j == 0 {
          assert s[i] == t[i - 1];
        } else {
          assert s[i] == t[i - 1] && s[j] == t[j - 1];
        }
      }
    }
  }

  /** Joining twice with the same id is the same as joining once, whatever
      the second payload carries. */
  lemma JoinIdempotent(users: seq<Member>, id: Id, name1: string, host1: bool, at1: Timestamp,
                       name2: string, host2: bool, at2: Timestamp)
    ensures Join(Join(users, id, name1, host1, at1), id, name2, host2, at2) == Join(users, id, name1, host1, at1)
  {
  }

  /** Joining keeps ids pairwise distinct. */
  lemma JoinPreservesUnique(users: seq<Member>, id: Id, username: string, isHost: bool, joinedAt: Timestamp)
    requires UniqueIds(users)
    ensures UniqueIds(Join(users, id, username, isHost, joinedAt))
  {
  }

  /** Leaving drops members and keeps the survivors in their original order. */
  lemma {:induction false} RemoveIsSubsequence(users: seq<Member>, id: Id)
    ensures IsSubsequence(RemoveById(users, id), users)
  {
    var r := RemoveById(users, id);
    if |users| > 0 {
      RemoveIsSubsequence(users[1..], id);
      if users[0].id != id {
        assert r[0] == users[0] && r[1..] == RemoveById(users[1..], id);
      } else if r != [] {
        assert r[0] in r;
      }
    }
  }

  /** Filtering distributes over concatenation: the relative order of the
      survivors of the two halves is kept. */
  lemma {:induction false} RemoveAppend(a: seq<Member>, b: seq<Member>, id: Id)
    ensures RemoveById(a + b, id) == RemoveById(a, id) + RemoveById(b, id)
  {
    if |a| > 0 {
      assert (a + b)[0] == a[0] && (a + b)[1..] == a[1..] + b;
      RemoveAppend(a[1..], b, id);
    } else {
      assert a + b == b;
    }
  }

  /** Removing an id that no member carries leaves the list unchanged. */
  lemma {:induction false} RemoveAbsent(users: seq<Member>, id: Id)
    requires !HasId(users, id)
    ensures RemoveById(users, id) == users
  {
    if |users| > 0 {
      assert users[0].id != id;
      forall i | 0 <= i < |users[1..]| ensures users[1..][i].id != id {
        assert users[1..][i] == users[i + 1];
      }
      RemoveAbsent(users[1..], id);
      assert users == [users[0]] + users[1..];
    }
  }

  /** Leaving keeps ids pairwise distinct. */
  lemma {:induction false} RemovePreservesUnique(users: seq<Member>, id: Id)
    requires UniqueIds(users)
    ensures UniqueIds(RemoveById(users, id))
  {
    if |users| > 0 {
      assert users == [users[0]] + users[1..];
      UniqueCons(users[0], users[1..]);
      RemovePreservesUnique(users[1..], id);
      if users[0].id != id {
        var t := RemoveById(users[1..], id);
        forall i | 0 <= i < |t| ensures t[i].id != users[0].id {
          assert t[i] in t;
          var k :| 0 <= k < |users[1..]| && users[1..][k] == t[i];
        }
        UniqueCons(users[0], t);
      }
    }
  }

  /** With distinct ids, leaving removes exactly one member when the id is
      present and none otherwise. */
  lemma {:induction false} RemoveLength(users: seq<Member>, id: Id)
    requires UniqueIds(users)
    ensures |RemoveById(users, id)| == if HasId(users, id) then |users| - 1 else |users|
  {
    if !HasId(users, id) {
      RemoveAbsent(users, id);
    } else {
      assert users == [users[0]] + users[1..];
      UniqueCons(users[0], users[1..]);
      if users[0].id == id {
        RemoveAbsent(users[1..], id);
      } else {
        assert HasId(users[1..], id) by {
          var i :| 0 <= i < |users| && users[i].id == id;
          assert i > 0 && users[1..][i - 1].id == id;
        }
        RemoveLength(users[1..], id);
      }
    }
  }

  /** Leaving undoes a join of a new id. */
  lemma JoinThenLeave(users: seq<Member>, id: Id, username: string, isHost: bool, joinedAt: Timestamp)
    requires !HasId(users, id)
    ensures RemoveById(Join(users, id, username, isHost, joinedAt), id) == users
  {
    var m := Member(id, username, isHost, joinedAt);
    assert Join(users, id, username, isHost, joinedAt) == users + [m];
    RemoveAppend(users, [m], id);
    RemoveAbsent(users, id);
    assert [m][1..] == [];
  }
}
