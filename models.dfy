/** The social-graph engine: User, Post and Comment nodes and the typed,
    directed relationships between them (CREATED, FRIENDS_WITH, LIKES,
    HAS_COMMENT), held in one shared store.  Every operation of the User,
    Post and Comment classes is one atomic step on that store; the reads
    are functions of it. */
module Models {
  import opened Wrappers

  /** Node identifiers.  The store generates them as uuid strings and only
      ever compares them for equality, so any type with equality serves. */
  type Id = int

  /** Creation time in seconds since the epoch, as stored on the node. */
  type Timestamp = real

  datatype UserNode = UserNode(id: Id, name: string, email: string, createdAt: Timestamp)

  datatype PostNode = PostNode(id: Id, title: string, content: string, createdAt: Timestamp)

  datatype CommentNode = CommentNode(id: Id, content: string, createdAt: Timestamp)

  /** Relationship types. */
  datatype Kind = Created | FriendsWith | Likes | HasComment

  /** A typed relationship from node src to node dst.  A set of edges holds
      at most one relationship of a type per ordered pair, which is what
      MERGE keeps. */
  datatype Edge = Edge(kind: Kind, src: Id, dst: Id)

  /** The ValueError raised when a referenced node does not resolve. */
  datatype Error = UserNotFound(userId: Id) | PostNotFound(postId: Id)

  /** Python truthiness of an optional string argument: given and not empty. */
  predicate Truthy(s: Option<string>)
  {
    s.Some? && s.value != ""
  }

  /** e is a FRIENDS_WITH relationship between a and b, in either direction
      (the undirected pattern `(a)-[:FRIENDS_WITH]-(b)`). */
  predicate Connects(e: Edge, a: Id, b: Id)
  {
    e.kind == FriendsWith && ((e.src == a && e.dst == b) || (e.src == b && e.dst == a))
  }

  /** The relationships left after deleting every one incident to id, of
      any type and in either direction (`MATCH (n {id: $id})-[r]-() DELETE r`). */
  function Detach(edges: set<Edge>, id: Id): set<Edge>
  {
    set e | e in edges && e.src != id && e.dst != id
  }

  /** Detaching a node that has no relationships changes nothing. */
  lemma DetachIsolated(edges: set<Edge>, id: Id)
    requires forall e :: e in edges ==> e.src != id && e.dst != id
    ensures Detach(edges, id) == edges
  {
  }

  /** Detaching a node twice is detaching it once. */
  lemma DetachIdempotent(edges: set<Edge>, id: Id)
    ensures Detach(Detach(edges, id), id) == Detach(edges, id)
  {
  }

  /** Two deletes leave the same relationships in either order. */
  lemma DetachCommutes(edges: set<Edge>, a: Id, b: Id)
    ensures Detach(Detach(edges, a), b) == Detach(Detach(edges, b), a)
  {
  }

  /** Deleting a node undoes adding a relationship incident to it: a post
      saved and then deleted leaves the other relationships as they were. */
  lemma DetachAfterLink(edges: set<Edge>, e: Edge, id: Id)
    requires e.src == id || e.dst == id
    ensures Detach(edges + {e}, id) == Detach(edges, id)
  {
  }

  /** The graph database: labelled nodes keyed by their id property, and the
      relationships between them. */
  class Graph {
    var users: map<Id, UserNode>
    var posts: map<Id, PostNode>
    var comments: map<Id, CommentNode>
    var edges: set<Edge>

    /** The two endpoints of e exist and carry the labels its type connects. */
    predicate WellTyped(e: Edge)
      reads this
    {
      match e.kind
      case Created => e.src in users && (e.dst in posts || e.dst in comments)
      case FriendsWith => e.src in users && e.dst in users
      case Likes => e.src in users && (e.dst in posts || e.dst in comments)
      case HasComment => e.src in posts && e.dst in comments
    }

    /** The store invariant every operation keeps. */
    ghost predicate Valid()
      reads this
    {
      // an id names at most one node, whatever its label
      && users.Keys !! posts.Keys
      && users.Keys !! comments.Keys
      && posts.Keys !! comments.Keys
      && StoredUnderOwnId()
      // no relationship refers to a missing node
      && (forall e :: e in edges ==> WellTyped(e))
      // a post or comment has at most one author, a comment at most one post
      && (forall e1, e2 :: e1 in edges && e2 in edges ==>
            (e1.kind == Created && e2.kind == Created && e1.dst == e2.dst ==> e1.src == e2.src))
      && (forall e1, e2 :: e1 in edges && e2 in edges ==>
            (e1.kind == HasComment && e2.kind == HasComment && e1.dst == e2.dst ==> e1.src == e2.src))
    }

    /** Every node is stored under its own id property. */
    ghost predicate StoredUnderOwnId()
      reads this
    {
      && (forall k :: k in users ==> users[k].id == k)
      && (forall k :: k in posts ==> posts[k].id == k)
      && (forall k :: k in comments ==> comments[k].id == k)
    }

    /** No user is stored as a friend of itself.  models.py does not enforce
        this (the HTTP route refuses self-friendship); AddFriend keeps it for
        two different users. */
    ghost predicate NoSelfFriendship()
      reads this
    {
      forall e :: e in edges && e.kind == FriendsWith ==> e.src != e.dst
    }

    /** A node with this id exists, under any label. */
    predicate HasNode(id: Id)
      reads this
    {
      id in users || id in posts || id in comments
    }

    /** There is a FRIENDS_WITH relationship between a and b, stored in
        either direction. */
    predicate Adjacent(a: Id, b: Id)
      reads this
    {
      Edge(FriendsWith, a, b) in edges || Edge(FriendsWith, b, a) in edges
    }

    /** An empty database. */
    constructor ()
      ensures Valid() && NoSelfFriendship()
      ensures users == map[] && posts == map[] && comments == map[] && edges == {}
    {
      users, posts, comments, edges := map[], map[], map[], {};
    }

    // ---------------------------------------------------------------- User

    /** User.save: creates the User node unless one with this id exists. */
    method SaveUser(id: Id, name: string, email: string, createdAt: Timestamp) returns (u: UserNode)
      requires Valid()
      requires id !in posts && id !in comments
      modifies this
      ensures Valid()
      ensures u == UserNode(id, name, email, createdAt)
      ensures users == if id in old(users) then old(users) else old(users)[id := u]
      ensures posts == old(posts) && comments == old(comments) && edges == old(edges)
      ensures id in users
    {
      u := UserNode(id, name, email, createdAt);
      var existing := FindUser(id);
      if existing.Some? {
        return;
      }
      users := users[id := u];
    }

    /** User.find_all. */
    function FindAllUsers(): (r: set<UserNode>)
      reads this
      requires Valid()
      ensures forall k :: k in users ==> users[k] in r
      ensures forall x :: x in r ==> x.id in users && users[x.id] == x
    {
      set k | k in users :: users[k]
    }

    /** User.find_by_id: the node, or None when no User has this id. */
    function FindUser(id: Id): (r: Option<UserNode>)
      reads this
      requires Valid()
      ensures r.Some? <==> id in users
      ensures r.Some? ==> r.value == users[id] && r.value.id == id
    {
      if id in users then Some(users[id]) else None
    }

    /** User.update: sets each of name and email that is truthy, and returns
        the node as found afterwards. */
    method UpdateUser(id: Id, name: Option<string>, email: Option<string>) returns (r: Option<UserNode>)
      requires Valid()
      modifies this
      ensures Valid()
      ensures posts == old(posts) && comments == old(comments) && edges == old(edges)
      ensures id !in old(users) ==> users == old(users) && r == None
      ensures id in old(users) ==>
        var was := old(users[id]);
        var now := UserNode(id, if Truthy(name) then name.value else was.name,
                                if Truthy(email) then email.value else was.email, was.createdAt);
        users == old(users)[id := now] && r == Some(now)
    {
      if Truthy(name) && Truthy(email) {
        if id in users {
          users := users[id := users[id].(name := name.value, email := email.value)];
        }
      } else if Truthy(name) {
        if id in users {
          users := users[id := users[id].(name := name.value)];
        }
      } else if Truthy(email) {
        if id in users {
          users := users[id := users[id].(email := email.value)];
        }
      }
      r := FindUser(id);
    }

    /** User.delete: removes every relationship of the user, then the user.
        The user's posts and comments stay, without an author. */
    method DeleteUser(id: Id)
      requires Valid()
      modifies this
      ensures Valid()
      ensures users == old(users) - {id}
      ensures edges == if id in old(users) then Detach(old(edges), id) else old(edges)
      ensures posts == old(posts) && comments == old(comments)
      ensures id in old(users) ==> forall e :: e in edges ==> e.src != id && e.dst != id
      ensures PostsByUser(id) == {}
    {
      if id in users {
        edges := Detach(edges, id);
        users := users - {id};
      }
    }

    /** User.add_friend: MERGEs the directed relationship user -> friend when
        both users exist; reports whether both matched. */
    method AddFriend(userId: Id, friendId: Id) returns (matched: bool)
      requires Valid()
      modifies this
      ensures Valid()
      ensures matched <==> userId in users && friendId in users
      ensures users == old(users) && posts == old(posts) && comments == old(comments)
      ensures edges == if matched then old(edges) + {Edge(FriendsWith, userId, friendId)} else old(edges)
      ensures Edge(FriendsWith, userId, friendId) in old(edges) ==> edges == old(edges)
      ensures matched ==> AreFriends(userId, friendId) && AreFriends(friendId, userId)
      ensures old(NoSelfFriendship()) && userId != friendId ==> NoSelfFriendship()
    {
      matched := userId in users && friendId in users;
      if matched {
        edges := edges + {Edge(FriendsWith, userId, friendId)};
      }
    }

    /** User.remove_friend: deletes the FRIENDS_WITH relationships between
        the two users, in both directions. */
    method RemoveFriend(userId: Id, friendId: Id)
      requires Valid()
      modifies this
      ensures Valid()
      ensures users == old(users) && posts == old(posts) && comments == old(comments)
      ensures edges == if userId in users && friendId in users
                       then old(edges) - {Edge(FriendsWith, userId, friendId), Edge(FriendsWith, friendId, userId)}
                       else old(edges)
      ensures !AreFriends(userId, friendId) && !AreFriends(friendId, userId)
      ensures old(NoSelfFriendship()) ==> NoSelfFriendship()
    {
      if userId in users && friendId in users {
        edges := edges - {Edge(FriendsWith, userId, friendId), Edge(FriendsWith, friendId, userId)};
      }
    }

    /** User.get_friends: the users at the other end of a FRIENDS_WITH
        relationship of the user, whichever way it points. */
    function Friends(userId: Id): (r: set<UserNode>)
      reads this
      requires Valid()
      ensures forall k :: k in users ==> (users[k] in r <==> userId in users && Adjacent(userId, k))
      ensures forall x :: x in r ==> x.id in users && users[x.id] == x
    {
      set e, k | e in edges && k in users && userId in users && Connects(e, userId, k) :: users[k]
    }

    /** User.are_friends: whether the count of FRIENDS_WITH relationships
        between the two users, in either direction, is positive; false when
        either user is missing. */
    function AreFriends(userId: Id, friendId: Id): (r: bool)
      reads this
      ensures r <==> userId in users && friendId in users && Adjacent(userId, friendId)
    {
      var matched := if userId in users && friendId in users
                     then set e | e in edges && Connects(e, userId, friendId)
                     else {};
      assert Edge(FriendsWith, userId, friendId) in edges && userId in users && friendId in users
        ==> Edge(FriendsWith, userId, friendId) in matched;
      assert Edge(FriendsWith, friendId, userId) in edges && userId in users && friendId in users
        ==> Edge(FriendsWith, friendId, userId) in matched;
      |matched| > 0
    }

    /** User.get_mutual_friends: the users m on a path
        user -[:FRIENDS_WITH]- m -[:FRIENDS_WITH]- other whose two
        relationships are distinct, as a Cypher pattern demands.  Which users
        these are is proved in module Friendship. */
    function MutualFriends(userId: Id, otherId: Id): (r: set<UserNode>)
      reads this
      requires Valid()
      ensures forall x :: x in r ==> x.id in users && users[x.id] == x
      ensures r != {} ==> userId in users && otherId in users
    {
      set e1, e2, k | e1 in edges && e2 in edges && k in users && userId in users && otherId in users
                      && e1 != e2 && Connects(e1, userId, k) && Connects(e2, k, otherId) :: users[k]
    }

    // ---------------------------------------------------------------- Post

    /** Post.save: fails, changing nothing, when the author does not exist;
        otherwise creates the post and CREATED(author -> post) in one step. */
    method SavePost(id: Id, title: string, content: string, createdAt: Timestamp, userId: Id)
      returns (r: Result<PostNode, Error>)
      requires Valid()
      requires !HasNode(id)
      modifies this
      ensures Valid()
      ensures userId !in old(users) ==> r == Failure(UserNotFound(userId)) && unchanged(this)
      ensures userId in old(users) ==>
        && r == Success(PostNode(id, title, content, createdAt))
        && posts == old(posts)[id := r.value]
        && edges == old(edges) + {Edge(Created, userId, id)}
        && users == old(users) && comments == old(comments)
      ensures r.Success? ==> r.value in PostsByUser(userId)
    {
      var post := PostNode(id, title, content, createdAt);
      var author := FindUser(userId);
      if author.None? {
        return Failure(UserNotFound(userId));
      }
      posts := posts[id := post];
      edges := edges + {Edge(Created, userId, id)};
      r := Success(post);
    }

    /** Post.find_all. */
    function FindAllPosts(): (r: set<PostNode>)
      reads this
      requires Valid()
      ensures forall k :: k in posts ==> posts[k] in r
      ensures forall x :: x in r ==> x.id in posts && posts[x.id] == x
    {
      set k | k in posts :: posts[k]
    }

    /** Post.find_by_id. */
    function FindPost(id: Id): (r: Option<PostNode>)
      reads this
      requires Valid()
      ensures r.Some? <==> id in posts
      ensures r.Some? ==> r.value == posts[id] && r.value.id == id
    {
      if id in posts then Some(posts[id]) else None
    }

    /** Post.find_by_user: the Post nodes the user CREATED; the :Post label
        leaves the user's comments out. */
    function PostsByUser(userId: Id): (r: set<PostNode>)
      reads this
      requires Valid()
      ensures forall k :: k in posts ==> (posts[k] in r <==> userId in users && Edge(Created, userId, k) in edges)
      ensures forall x :: x in r ==> x.id in posts && posts[x.id] == x && x.id !in comments
    {
      set k | k in posts && userId in users && Edge(Created, userId, k) in edges :: posts[k]
    }

    /** Post.update: sets each of title and content that is truthy. */
    method UpdatePost(id: Id, title: Option<string>, content: Option<string>) returns (r: Option<PostNode>)
      requires Valid()
      modifies this
      ensures Valid()
      ensures users == old(users) && comments == old(comments) && edges == old(edges)
      ensures id !in old(posts) ==> posts == old(posts) && r == None
      ensures id in old(posts) ==>
        var was := old(posts[id]);
        var now := PostNode(id, if Truthy(title) then title.value else was.title,
                                if Truthy(content) then content.value else was.content, was.createdAt);
        posts == old(posts)[id := now] && r == Some(now)
    {
      if Truthy(title) && Truthy(content) {
        if id in posts {
          posts := posts[id := posts[id].(title := title.value, content := content.value)];
        }
      } else if Truthy(title) {
        if id in posts {
          posts := posts[id := posts[id].(title := title.value)];
        }
      } else if Truthy(content) {
        if id in posts {
          posts := posts[id := posts[id].(content := content.value)];
        }
      }
      r := FindPost(id);
    }

    /** Post.delete: removes every relationship of the post (its CREATED,
        LIKES and HAS_COMMENT ones), then the post.  Its comments stay. */
    method DeletePost(id: Id)
      requires Valid()
      modifies this
      ensures Valid()
      ensures posts == old(posts) - {id}
      ensures edges == if id in old(posts) then Detach(old(edges), id) else old(edges)
      ensures users == old(users) && comments == old(comments)
      ensures id in old(posts) ==> forall e :: e in edges ==> e.src != id && e.dst != id
      ensures CommentsByPost(id) == {}
    {
      if id in posts {
        edges := Detach(edges, id);
        posts := posts - {id};
      }
    }

    /** Post.add_like: MERGEs LIKES(user -> post) when both exist. */
    method AddPostLike(postId: Id, userId: Id) returns (matched: bool)
      requires Valid()
      modifies this
      ensures Valid()
      ensures matched <==> userId in users && postId in posts
      ensures users == old(users) && posts == old(posts) && comments == old(comments)
      ensures edges == if matched then old(edges) + {Edge(Likes, userId, postId)} else old(edges)
      ensures Edge(Likes, userId, postId) in old(edges) ==> edges == old(edges)
    {
      matched := userId in users && postId in posts;
      if matched {
        edges := edges + {Edge(Likes, userId, postId)};
      }
    }

    /** Post.remove_like: deletes LIKES(user -> post) only. */
    method RemovePostLike(postId: Id, userId: Id)
      requires Valid()
      modifies this
      ensures Valid()
      ensures users == old(users) && posts == old(posts) && comments == old(comments)
      ensures edges == if userId in users && postId in posts
                       then old(edges) - {Edge(Likes, userId, postId)}
                       else old(edges)
      ensures postId in posts ==> Edge(Likes, userId, postId) !in edges
    {
      if userId in users && postId in posts {
        edges := edges - {Edge(Likes, userId, postId)};
      }
    }

    // ------------------------------------------------------------- Comment

    /** Comment.save: fails on a missing user, then on a missing post,
        changing nothing; otherwise creates the comment with
        CREATED(user -> comment) and HAS_COMMENT(post -> comment) in one step. */
    method SaveComment(id: Id, content: string, createdAt: Timestamp, userId: Id, postId: Id)
      returns (r: Result<CommentNode, Error>)
      requires Valid()
      requires !HasNode(id)
      modifies this
      ensures Valid()
      ensures userId !in old(users) ==> r == Failure(UserNotFound(userId)) && unchanged(this)
      ensures userId in old(users) && postId !in old(posts) ==>
        r == Failure(PostNotFound(postId)) && unchanged(this)
      ensures userId in old(users) && postId in old(posts) ==>
        && r == Success(CommentNode(id, content, createdAt))
        && comments == old(comments)[id := r.value]
        && edges == old(edges) + {Edge(Created, userId, id), Edge(HasComment, postId, id)}
        && users == old(users) && posts == old(posts)
      ensures r.Success? ==> r.value in CommentsByPost(postId)
    {
      var comment := CommentNode(id, content, createdAt);
      var author := FindUser(userId);
      var post := FindPost(postId);
      if author.None? {
        return Failure(UserNotFound(userId));
      }
      if post.None? {
        return Failure(PostNotFound(postId));
      }
      comments := comments[id := comment];
      edges := edges + {Edge(Created, userId, id), Edge(HasComment, postId, id)};
      r := Success(comment);
    }

    /** Comment.find_all. */
    function FindAllComments(): (r: set<CommentNode>)
      reads this
      requires Valid()
      ensures forall k :: k in comments ==> comments[k] in r
      ensures forall x :: x in r ==> x.id in comments && comments[x.id] == x
    {
      set k | k in comments :: comments[k]
    }

    /** Comment.find_by_id. */
    function FindComment(id: Id): (r: Option<CommentNode>)
      reads this
      requires Valid()
      ensures r.Some? <==> id in comments
      ensures r.Some? ==> r.value == comments[id] && r.value.id == id
    {
      if id in comments then Some(comments[id]) else None
    }

    /** Comment.find_by_post: the comments the post HAS_COMMENT to. */
    function CommentsByPost(postId: Id): (r: set<CommentNode>)
      reads this
      requires Valid()
      ensures forall k :: k in comments ==>
        (comments[k] in r <==> postId in posts && Edge(HasComment, postId, k) in edges)
      ensures forall x :: x in r ==> x.id in comments && comments[x.id] == x
    {
      set k | k in comments && postId in posts && Edge(HasComment, postId, k) in edges :: comments[k]
    }

    /** Comment.update: sets the content when it is truthy. */
    method UpdateComment(id: Id, content: Option<string>) returns (r: Option<CommentNode>)
      requires Valid()
      modifies this
      ensures Valid()
      ensures users == old(users) && posts == old(posts) && edges == old(edges)
      ensures id !in old(comments) ==> comments == old(comments) && r == None
      ensures id in old(comments) ==>
        var was := old(comments[id]);
        var now := CommentNode(id, if Truthy(content) then content.value else was.content, was.createdAt);
        comments == old(comments)[id := now] && r == Some(now)
    {
      if Truthy(content) {
        if id in comments {
          comments := comments[id := comments[id].(content := content.value)];
        }
      }
      r := FindComment(id);
    }

    /** Comment.delete: removes every relationship of the comment, then the
        comment. */
    method DeleteComment(id: Id)
      requires Valid()
      modifies this
      ensures Valid()
      ensures comments == old(comments) - {id}
      ensures edges == if id in old(comments) then Detach(old(edges), id) else old(edges)
      ensures users == old(users) && posts == old(posts)
      ensures id in old(comments) ==> forall e :: e in edges ==> e.src != id && e.dst != id
    {
      if id in comments {
        edges := Detach(edges, id);
        comments := comments - {id};
      }
    }

    /** Comment.add_like: MERGEs LIKES(user -> comment) when both exist. */
    method AddCommentLike(commentId: Id, userId: Id) returns (matched: bool)
      requires Valid()
      modifies this
      ensures Valid()
      ensures matched <==> userId in users && commentId in comments
      ensures users == old(users) && posts == old(posts) && comments == old(comments)
      ensures edges == if matched then old(edges) + {Edge(Likes, userId, commentId)} else old(edges)
      ensures Edge(Likes, userId, commentId) in old(edges) ==> edges == old(edges)
    {
      matched := userId in users && commentId in comments;
      if matched {
        edges := edges + {Edge(Likes, userId, commentId)};
      }
    }

    /** Comment.remove_like: deletes LIKES(user -> comment) only. */
    method RemoveCommentLike(commentId: Id, userId: Id)
      requires Valid()
      modifies this
      ensures Valid()
      ensures users == old(users) && posts == old(posts) && comments == old(comments)
      ensures edges == if userId in users && commentId in comments
                       then old(edges) - {Edge(Likes, userId, commentId)}
                       else old(edges)
      ensures commentId in comments ==> Edge(Likes, userId, commentId) !in edges
    {
      if userId in users && commentId in comments {
        edges := edges - {Edge(Likes, userId, commentId)};
      }
    }
  }
}
