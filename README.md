# Social graph engine, in Dafny

This project models the graph-data engine of a small social network: the
`User`, `Post` and `Comment` classes of `models.py`, whose static methods
send Cypher queries to one shared Neo4j database. The database is modelled
as one object, `Models.Graph`, with four fields:

- `users`, `posts`, `comments`: maps from a node's `id` property to its
  record (`UserNode`, `PostNode`, `CommentNode`);
- `edges`: a set of typed directed relationships `Edge(kind, src, dst)`,
  where `kind` is `Created`, `FriendsWith`, `Likes` or `HasComment`. A set
  holds at most one relationship of a type per ordered pair, which is what
  `MERGE` maintains.

Every operation that writes (`save`, `update`, `delete`, `add_friend`,
`remove_friend`, `add_like`, `remove_like`) is a method that changes these
fields in one atomic step. Its `ensures` give the whole new state in terms
of the old one, and the store invariant `Valid()` is kept. The invariant
says:

- ids are unique across labels;
- every record is stored under its own id;
- every relationship joins existing nodes with the labels its type
  connects, so no edge dangles;
- a post or comment has at most one CREATED relationship;
- a comment has at most one HAS_COMMENT relationship.

Every read (`find_all`, `find_by_id`, `get_friends`, `are_friends`,
`get_mutual_friends`, `find_by_user`, `find_by_post`) is a function of the
fields. Module `Friendship` proves what the friendship reads answer, and
module `Authorship` proves facts about the authorship reads. Module
`Scenario` holds client methods that run short sessions and assert, step
by step, what the contracts guarantee. Most of them start from an empty
database. `PostRoundTrip` starts from any valid store.

Node ids are uuid strings in the source. The model only compares them for
equality, so here they are integers (`type Id = int`).

Several behaviours of the code may surprise a reader. The model keeps each
as written.

- **Friendship is stored directed but read undirected, and add_friend does
  not canonicalise the pair.** `add_friend(a, b)` MERGEs one directed
  relationship `a -> b`. A later `add_friend(b, a)` stores a second
  relationship `b -> a`. Every read ignores direction.
- **The engine does not refuse self-friendship.** `add_friend(u, u)`
  stores a self-loop, and only the HTTP route refuses it. Therefore "no
  self-friendship" is the separate predicate `NoSelfFriendship`, not part
  of `Valid()`. `AddFriend` keeps it for two different users. The lemmas
  that exclude the asking user from get_friends, and both users from
  get_mutual_friends, assume it.
- **Mutual friends of a user with itself.** A Cypher pattern never matches
  the same relationship twice. So `get_mutual_friends(u, u)` returns only
  the other users whose friendship with u is stored in both directions,
  and never u itself (`Friendship.MutualFriendsOfSelf`). For two different
  users it returns exactly the common neighbours
  (`Friendship.MutualFriendsIntersection`).
- **get_mutual_friends does not filter out the two users it is asked
  about.** For two different users, either of them is in the result exactly
  when it has a stored self-friendship and the two are friends
  (`Friendship.MutualFriendsEnds`, with `Friendship.MutualFriendsSymmetric`
  for the second user). With no self-friendship stored,
  neither is (`Friendship.MutualFriendsExcludeEnds`).
- **A post or comment can lose its author.** Deleting a user removes the
  CREATED relationships to that user's content, so "exactly one author" is
  not kept. The model keeps "at most one author" and "at most one parent
  post".

## Model

| member | source | states |
|---|---|---|
| `Models.Graph.constructor` | models.py:6 | the store starts empty and satisfies `Valid()` and `NoSelfFriendship()` |
| `Models.DetachIsolated` | models.py:69-70 | deleting the relationships of a node that has none changes nothing |
| `Models.DetachIdempotent` | models.py:69-70 | deleting a node's relationships a second time removes nothing more |
| `Models.DetachCommutes` | models.py:69-70 | deleting the relationships of two nodes leaves the same set in either order |
| `Models.DetachAfterLink` | models.py:69-70 | a relationship added to a node is gone again once the node's relationships are deleted, and the others are kept |
| `Models.Graph.SaveUser` | models.py:26-39 | creates the User only if no User with that id exists (a second save of the same user is a no-op); returns the object's own record; posts, comments and edges are unchanged |
| `Models.Graph.FindAllUsers` | models.py:41-44 | the result holds every stored User and nothing else |
| `Models.Graph.FindUser` | models.py:46-50 | Some exactly when a User with the id exists, and then that node; otherwise None |
| `Models.Graph.UpdateUser` | models.py:52-65 | the if/elif chain sets exactly the truthy fields among name and email; id, created_at, the other maps and the edges are unchanged; returns the lookup after the update, None for a missing id |
| `Models.Graph.DeleteUser` | models.py:67-72 | removes every relationship touching the user, then the user; the user's posts and comments stay; a missing id changes nothing; finds no posts for the id afterwards |
| `Models.Graph.AddFriend` | models.py:74-81 | adds the directed FRIENDS_WITH edge exactly when both users exist, which it reports; a repeated call leaves the edges unchanged; afterwards are_friends holds both ways; keeps no-self-friendship for two different users |
| `Models.Graph.RemoveFriend` | models.py:83-89 | when both users exist, removes the relationship in both directions and nothing else; afterwards are_friends is false both ways |
| `Models.Graph.Friends` | models.py:91-97 | a stored user is in the result exactly when the asking user exists and a FRIENDS_WITH edge joins them in either direction; only stored users are returned |
| `Models.Graph.AreFriends` | models.py:99-106 | the count of connecting relationships is positive exactly when both users exist and an edge joins them in either direction; false otherwise |
| `Models.Graph.MutualFriends` | models.py:108-114 | returns only stored users, and nothing when either user is missing |
| `Models.Graph.SavePost` | models.py:125-150 | fails with UserNotFound and changes nothing when the author is missing; otherwise adds exactly the post and CREATED(author -> post), and find_by_user then lists the post |
| `Models.Graph.FindAllPosts` | models.py:152-155 | the result holds every stored Post and nothing else |
| `Models.Graph.FindPost` | models.py:157-161 | Some exactly when a Post with the id exists, and then that node |
| `Models.Graph.PostsByUser` | models.py:163-169 | a stored post is listed exactly when the user exists and CREATED(user -> post) is stored; only posts, never comments, are listed |
| `Models.Graph.UpdatePost` | models.py:171-184 | sets exactly the truthy fields among title and content; everything else unchanged; returns the lookup after the update |
| `Models.Graph.DeletePost` | models.py:186-191 | removes every relationship touching the post (CREATED, LIKES, HAS_COMMENT), then the post; its comments stay; find_by_post is empty afterwards |
| `Models.Graph.AddPostLike` | models.py:193-200 | adds LIKES(user -> post) exactly when both exist; a repeated like leaves the edges unchanged |
| `Models.Graph.RemovePostLike` | models.py:202-208 | when both exist, removes only LIKES(user -> post); otherwise changes nothing |
| `Models.Graph.SaveComment` | models.py:219-246 | checks the user first, then the post, failing on the first missing one with nothing changed; otherwise adds exactly the comment, CREATED(user -> comment) and HAS_COMMENT(post -> comment), and find_by_post then lists it |
| `Models.Graph.FindAllComments` | models.py:248-251 | the result holds every stored Comment and nothing else |
| `Models.Graph.FindComment` | models.py:253-257 | Some exactly when a Comment with the id exists, and then that node |
| `Models.Graph.CommentsByPost` | models.py:259-265 | a stored comment is listed exactly when the post exists and HAS_COMMENT(post -> comment) is stored |
| `Models.Graph.UpdateComment` | models.py:267-273 | sets the content only when it is truthy; everything else unchanged; returns the lookup after the update |
| `Models.Graph.DeleteComment` | models.py:275-280 | removes every relationship touching the comment, then the comment; a missing id changes nothing |
| `Models.Graph.AddCommentLike` | models.py:282-289 | adds LIKES(user -> comment) exactly when both exist; a repeated like leaves the edges unchanged |
| `Models.Graph.RemoveCommentLike` | models.py:291-297 | when both exist, removes only LIKES(user -> comment) |
| `Friendship.AreFriendsSymmetric` | models.py:99-106 | are_friends(a, b) == are_friends(b, a), and it agrees with membership in get_friends |
| `Friendship.FriendsExcludeSelf` | models.py:91-97 | with no self-friendship stored, get_friends never returns the asking user |
| `Friendship.MutualFriendsIntersection` | models.py:108-114 | for two different users, get_mutual_friends equals the intersection of their get_friends sets |
| `Friendship.MutualFriendsSymmetric` | models.py:108-114 | get_mutual_friends(u, o) == get_mutual_friends(o, u) for all u, o |
| `Friendship.MutualFriendsExcludeEnds` | models.py:108-114 | with no self-friendship stored, neither of the two users is ever in the result |
| `Friendship.MutualFriendsOfSelf` | models.py:108-114 | get_mutual_friends(u, u) returns another user exactly when the friendship with u is stored in both directions, and never returns u, even with a stored self-friendship |
| `Friendship.MutualFriendsEnds` | models.py:108-114 | for two different users, u is in get_mutual_friends(u, o) exactly when o exists, u has a stored self-friendship and u and o are friends |
| `Friendship.MutualFriendsExample` | models.py:108-114 | friends {x, y, z} and {y, z, w}, stored in any direction, give mutual friends exactly {y, z} |
| `Authorship.NoDanglingEdges` | models.py:67-72 | under the invariant every relationship endpoint is a stored node |
| `Authorship.PostHasOneAuthor` | models.py:141-148 | a post is listed by find_by_user for at most one user |
| `Authorship.CommentUnderOnePost` | models.py:235-244 | a comment is listed by find_by_post for at most one post |
| `Scenario.PostRoundTrip` | models.py:186-191 | saving a post, liking it and deleting it leaves every map and the relationships as they were before the save |

## Left out

- The HTTP layer (app.py) is not modelled: routes, request parsing,
  status codes and `node_to_dict`. So are the route guards: required
  non-empty fields, existence checks before each call, and the refusal of
  self-friendship. `AddFriend` accepts `u == f`, as models.py does.
- The Neo4j connection, Cypher string building, the py2neo
  `Node`/`Relationship`/transaction objects and `dict_to_node` are foreign
  library calls. Only their effect on the graph is modelled.
- `Comment.save` passes the property dictionaries returned by `find_by_id`
  to `Relationship`. The model gives the intended effect instead: two
  relationships to the new comment.
- `uuid.uuid4()` and `datetime.now().timestamp()` are nondeterministic.
  The id is a parameter. For posts and comments it must be fresh (no node
  has it); for users it must not be a post or comment id, so that `save`'s
  own existence check stays visible. `created_at` is an opaque `real`
  parameter. Ids are integers rather than strings, because only their
  equality matters.
- Transactions and concurrency are left out: each method is one atomic
  sequential step.
- The database starts empty when the object is constructed. Data already
  in a database the connection points to is not modelled.
- The text of the `ValueError` messages is reduced to the id they name.
- `save` returns the Python object itself. The model returns its stored
  record, which omits the `user_id` and `post_id` attributes that the
  object carries but the node does not.
- AddFriend, AddPostLike and AddCommentLike return whether the MERGE
  matched both nodes. The source returns the matched rows' `.data()`
  list, which its only caller, the HTTP layer, ignores.
- Update arguments are modelled as optional strings. The truthiness of
  other JSON types a caller might pass is not modelled.
- Models.Graph.Friends: returns a set. The list's row multiplicity is lost:
  a friendship stored in both directions appears twice in the source's
  list. Its order is lost as well.
- Models.Graph.MutualFriends: returns a set, so row multiplicity and order
  are lost. Its own contract only says that it returns stored users. Which
  users it returns is proved in `Friendship.MutualFriendsIntersection` and
  `Friendship.MutualFriendsOfSelf`.
- Models.Graph.PostsByUser, Models.Graph.CommentsByPost,
  Models.Graph.FindAllUsers, Models.Graph.FindAllPosts and
  Models.Graph.FindAllComments also return sets rather than lists.
