/** What the friendship reads of models.py answer.  FRIENDS_WITH is stored
    directed, as add_friend MERGEs it, and read without regard to direction. */
module Friendship {
  import opened Models

  /** are_friends does not depend on the order of its arguments, and agrees
      with get_friends. */
  lemma AreFriendsSymmetric(g: Graph, a: Id, b: Id)
    requires g.Valid()
    ensures g.AreFriends(a, b) == g.AreFriends(b, a)
    ensures b in g.users ==> (g.AreFriends(a, b) <==> g.users[b] in g.Friends(a))
  {
  }

  /** With no self-friendship stored, nobody is among their own friends. */
  lemma FriendsExcludeSelf(g: Graph, u: Id)
    requires g.Valid() && g.NoSelfFriendship()
    ensures forall x :: x in g.Friends(u) ==> x.id != u
  {
    forall x | x in g.Friends(u)
      ensures x.id != u
    {
      assert g.Adjacent(u, x.id);
    }
  }

  /** The two FRIENDS_WITH relationships chosen from a stored orientation of
      u-m and of m-o can only coincide when u == o. */
  lemma DistinctLinks(g: Graph, u: Id, m: Id, o: Id) returns (e1: Edge, e2: Edge)
    requires g.Adjacent(u, m) && g.Adjacent(m, o) && u != o
    ensures e1 in g.edges && e2 in g.edges && e1 != e2
    ensures Connects(e1, u, m) && Connects(e2, m, o)
  {
    e1 := if Edge(FriendsWith, u, m) in g.edges then Edge(FriendsWith, u, m) else Edge(FriendsWith, m, u);
    e2 := if Edge(FriendsWith, m, o) in g.edges then Edge(FriendsWith, m, o) else Edge(FriendsWith, o, m);
  }

  /** For two different users, get_mutual_friends is exactly the
      intersection of their two get_friends neighbourhoods. */
  lemma {:induction false} MutualFriendsIntersection(g: Graph, u: Id, o: Id)
    requires g.Valid()
    requires u != o
    ensures g.MutualFriends(u, o) == g.Friends(u) * g.Friends(o)
  {
    forall x | x in g.MutualFriends(u, o)
      ensures x in g.Friends(u) && x in g.Friends(o)
    {
      var e1, e2, k :| e1 in g.edges && e2 in g.edges && k in g.users && u in g.users && o in g.users
                       && e1 != e2 && Connects(e1, u, k) && Connects(e2, k, o) && x == g.users[k];
      assert g.Adjacent(u, k) && g.Adjacent(k, o);
    }
    forall x | x in g.Friends(u) && x in g.Friends(o)
      ensures x in g.MutualFriends(u, o)
    {
      assert g.Adjacent(u, x.id) && g.Adjacent(o, x.id) && u in g.users && o in g.users;
      var e1, e2 := DistinctLinks(g, u, x.id, o);
      assert x == g.users[x.id];
    }
  }

  /** get_mutual_friends does not depend on the order of its arguments: the
      path u-m-o read backwards is o-m-u. */
  lemma {:induction false} MutualFriendsSymmetric(g: Graph, u: Id, o: Id)
    requires g.Valid()
    ensures g.MutualFriends(u, o) == g.MutualFriends(o, u)
  {
    forall a, b | {a, b} == {u, o} && a != b
      ensures g.MutualFriends(a, b) <= g.MutualFriends(b, a)
    {
      forall x | x in g.MutualFriends(a, b)
        ensures x in g.MutualFriends(b, a)
      {
        var e1, e2, k :| e1 in g.edges && e2 in g.edges && k in g.users && a in g.users && b in g.users
                         && e1 != e2 && Connects(e1, a, k) && Connects(e2, k, b) && x == g.users[k];
        assert Connects(e2, b, k) && Connects(e1, k, a);
      }
    }
    if u != o {
      assert {u, o} == {o, u};
    }
  }

  /** With no self-friendship stored, get_mutual_friends never returns
      either of the two users it was asked about. */
  lemma {:induction false} MutualFriendsExcludeEnds(g: Graph, u: Id, o: Id)
    requires g.Valid() && g.NoSelfFriendship()
    ensures forall x :: x in g.MutualFriends(u, o) ==> x.id != u && x.id != o
  {
    forall x | x in g.MutualFriends(u, o)
      ensures x.id != u && x.id != o
    {
      var e1, e2, k :| e1 in g.edges && e2 in g.edges && k in g.users && u in g.users && o in g.users
                       && e1 != e2 && Connects(e1, u, k) && Connects(e2, k, o) && x == g.users[k];
    }
  }

  /** Asked about one user twice, get_mutual_friends returns only the
      friends whose friendship is stored in both directions (the one
      pattern needs two distinct relationships to the same user), and never
      the user itself, even when a self-friendship is stored. */
  lemma {:induction false} MutualFriendsOfSelf(g: Graph, u: Id)
    requires g.Valid()
    ensures forall k :: k in g.users && k != u ==>
      (g.users[k] in g.MutualFriends(u, u) <==>
         u in g.users && Edge(FriendsWith, u, k) in g.edges && Edge(FriendsWith, k, u) in g.edges)
    ensures u in g.users ==> g.users[u] !in g.MutualFriends(u, u)
  {
    forall k | k in g.users && k != u
      ensures g.users[k] in g.MutualFriends(u, u) <==>
              u in g.users && Edge(FriendsWith, u, k) in g.edges && Edge(FriendsWith, k, u) in g.edges
    {
      var x := g.users[k];
      if x in g.MutualFriends(u, u) {
        var e1, e2, j :| e1 in g.edges && e2 in g.edges && j in g.users && u in g.users
                         && e1 != e2 && Connects(e1, u, j) && Connects(e2, j, u) && x == g.users[j];
        assert j == k;
      }
      if u in g.users && Edge(FriendsWith, u, k) in g.edges && Edge(FriendsWith, k, u) in g.edges {
        assert Connects(Edge(FriendsWith, u, k), u, k) && Connects(Edge(FriendsWith, k, u), k, u);
      }
    }
  }

  /** For two different users, get_mutual_friends returns one of them
      exactly when that user has a stored self-friendship and the two are
      friends: the pattern then runs u-u-o over two distinct relationships. */
  lemma {:induction false} MutualFriendsEnds(g: Graph, u: Id, o: Id)
    requires g.Valid()
    requires u != o && u in g.users
    ensures g.users[u] in g.MutualFriends(u, o) <==>
            o in g.users && Edge(FriendsWith, u, u) in g.edges && g.Adjacent(u, o)
  {
    if g.users[u] in g.MutualFriends(u, o) {
      var e1, e2, j :| e1 in g.edges && e2 in g.edges && j in g.users && u in g.users && o in g.users
                       && e1 != e2 && Connects(e1, u, j) && Connects(e2, j, o) && g.users[u] == g.users[j];
      assert j == u;
      assert e1 == Edge(FriendsWith, u, u);
    }
    if o in g.users && Edge(FriendsWith, u, u) in g.edges && g.Adjacent(u, o) {
      var e2 := if Edge(FriendsWith, u, o) in g.edges then Edge(FriendsWith, u, o) else Edge(FriendsWith, o, u);
      assert Connects(Edge(FriendsWith, u, u), u, u) && Connects(e2, u, o);
      assert Edge(FriendsWith, u, u) != e2;
    }
  }

  /** In the worked example, the friends u and o share are y and z. */
  lemma ExampleCommonFriends(g: Graph, u: Id, o: Id, x: Id, y: Id, z: Id, w: Id)
    requires g.Valid()
    requires {u, o, x, y, z, w} <= g.users.Keys
    requires x != y && x != z && x != w && y != z && y != w && z != w
    requires forall m :: g.Adjacent(u, m) <==> m == x || m == y || m == z
    requires forall m :: g.Adjacent(o, m) <==> m == y || m == z || m == w
    ensures g.Friends(u) * g.Friends(o) == {g.users[y], g.users[z]}
  {
    assert g.Adjacent(u, y) && g.Adjacent(o, y) && g.Adjacent(u, z) && g.Adjacent(o, z);
    var fu, fo := g.Friends(u), g.Friends(o);
    assert g.users[y] in fu && g.users[y] in fo;
    assert g.users[z] in fu && g.users[z] in fo;
    forall r | r in fu && r in fo
      ensures r == g.users[y] || r == g.users[z]
    {
      var k := r.id;
      assert k in g.users && g.users[k] == r;
      assert g.Adjacent(u, k) && g.Adjacent(o, k);
      assert k == x || k == y || k == z;
      assert k == y || k == z || k == w;
      assert k == y || k == z;
    }
  }

  /** The worked example: when u's friends are x, y, z and o's friends are
      y, z, w, whichever direction each friendship was stored in, the mutual
      friends of u and o are exactly y and z. */
  lemma MutualFriendsExample(g: Graph, u: Id, o: Id, x: Id, y: Id, z: Id, w: Id)
    requires g.Valid()
    requires {u, o, x, y, z, w} <= g.users.Keys
    requires u != o && x != y && x != z && x != w && y != z && y != w && z != w
    requires forall m :: g.Adjacent(u, m) <==> m == x || m == y || m == z
    requires forall m :: g.Adjacent(o, m) <==> m == y || m == z || m == w
    ensures g.MutualFriends(u, o) == {g.users[y], g.users[z]}
  {
    ExampleCommonFriends(g, u, o, x, y, z, w);
    MutualFriendsIntersection(g, u, o);
  }
}
