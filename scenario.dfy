/** Clients of the store, each starting from an empty database, that walk
    through short sessions and assert what the method contracts promise at
    each step. */
module Scenario {
  import opened Wrappers
  import opened Models
  import opened Friendship
  import opened Authorship

  /** Two users, a refused post, a post and a comment on it. */
  method CreateContent()
  {
    var g := new Graph();
    var ann := g.SaveUser(1, "Ann", "ann@example.org", 10.0);
    var bob := g.SaveUser(2, "Bob", "bob@example.org", 11.0);

    // saving the same user again changes nothing
    var again := g.SaveUser(1, "Ann", "ann@example.org", 10.0);
    assert g.users == map[1 := ann, 2 := bob];

    // a post by an unknown author is refused and nothing is stored
    var orphan := g.SavePost(9, "T", "C", 12.0, 7);
    assert orphan == Failure(UserNotFound(7)) && g.posts == map[];

    var post := g.SavePost(3, "T", "C", 12.0, 1);
    assert post.Success? && post.value in g.PostsByUser(1);
    var comment := g.SaveComment(4, "nice", 13.0, 2, 3);
    assert comment.Success? && g.comments == map[4 := comment.value];
    assert g.CommentsByPost(3) == {comment.value};
  }

  /** One friendship: two users with no third friend have no mutual friends. */
  method Befriend()
  {
    var g := new Graph();
    var ann := g.SaveUser(1, "Ann", "ann@example.org", 10.0);
    var bob := g.SaveUser(2, "Bob", "bob@example.org", 11.0);
    var matched := g.AddFriend(1, 2);
    assert matched && g.AreFriends(1, 2) && g.AreFriends(2, 1);
    assert g.edges == {Edge(FriendsWith, 1, 2)};
    MutualFriendsIntersection(g, 1, 2);
    forall x | x in g.Friends(1)
      ensures x == bob
    {
      assert x.id in g.users && g.Adjacent(1, x.id);
    }
    assert g.MutualFriends(1, 2) == {} by {
      assert bob !in g.Friends(2) by {
        assert !g.Adjacent(2, 2);
      }
    }
  }

  /** A friendship stored in both directions: a user's mutual friends with
      itself then include the friend. */
  method BefriendBothWays()
  {
    var g := new Graph();
    var ann := g.SaveUser(1, "Ann", "ann@example.org", 10.0);
    var bob := g.SaveUser(2, "Bob", "bob@example.org", 11.0);
    assert g.edges == {} && g.NoSelfFriendship();
    var matched := g.AddFriend(1, 2);
    matched := g.AddFriend(2, 1);
    assert g.NoSelfFriendship() && g.users[2] == bob;
    assert Edge(FriendsWith, 1, 2) in g.edges && Edge(FriendsWith, 2, 1) in g.edges;
    MutualFriendsOfSelf(g, 1);
    assert bob in g.MutualFriends(1, 1);
  }

  /** Liking a post twice records one relationship. */
  method LikeTwice()
  {
    var g := new Graph();
    var ann := g.SaveUser(1, "Ann", "ann@example.org", 10.0);
    var post := g.SavePost(3, "T", "C", 12.0, 1);
    var matched := g.AddPostLike(3, 1);
    var oneLike := g.edges;
    assert Edge(Likes, 1, 3) in oneLike;
    matched := g.AddPostLike(3, 1);
    assert g.edges == oneLike;
  }

  /** Deleting an author keeps the post, detached from its author. */
  method DeleteAuthor()
  {
    var g := new Graph();
    var ann := g.SaveUser(1, "Ann", "ann@example.org", 10.0);
    var post := g.SavePost(3, "T", "C", 12.0, 1);
    assert post.Success?;
    g.DeleteUser(1);
    assert g.FindPost(3) == Some(post.value);
    assert g.edges == {};
  }

  /** Saving a post, liking it and deleting it again leaves any valid store
      as it was: the delete takes back both relationships the post gained. */
  method PostRoundTrip(g: Graph, postId: Id, userId: Id)
    requires g.Valid() && !g.HasNode(postId) && userId in g.users
    modifies g
    ensures g.users == old(g.users) && g.posts == old(g.posts) && g.comments == old(g.comments)
    ensures g.edges == old(g.edges)
  {
    NoDanglingEdges(g);
    var before := g.edges;
    var post := g.SavePost(postId, "T", "C", 12.0, userId);
    var matched := g.AddPostLike(postId, userId);
    assert g.edges == before + {Edge(Created, userId, postId)} + {Edge(Likes, userId, postId)};
    g.DeletePost(postId);
    DetachAfterLink(before + {Edge(Created, userId, postId)}, Edge(Likes, userId, postId), postId);
    DetachAfterLink(before, Edge(Created, userId, postId), postId);
    DetachIsolated(before, postId);
  }
}
