/** What the authorship and comment reads of models.py answer, under the
    store invariant. */
module Authorship {
  import opened Models

  /** No relationship refers to a node that is not stored: every endpoint
      of every relationship is a User, Post or Comment. */
  lemma NoDanglingEdges(g: Graph)
    requires g.Valid()
    ensures forall e :: e in g.edges ==> g.HasNode(e.src) && g.HasNode(e.dst)
  {
    forall e | e in g.edges
      ensures g.HasNode(e.src) && g.HasNode(e.dst)
    {
      assert g.WellTyped(e);
    }
  }

  /** find_by_user lists a post for at most one user: a post has one
      CREATED relationship, made when it was saved. */
  lemma {:induction false} PostHasOneAuthor(g: Graph, a: Id, b: Id, x: PostNode)
    requires g.Valid()
    requires x in g.PostsByUser(a) && x in g.PostsByUser(b)
    ensures a == b
  {
    assert x.id in g.posts && g.posts[x.id] == x;
    assert Edge(Created, a, x.id) in g.edges && Edge(Created, b, x.id) in g.edges;
  }

  /** find_by_post lists a comment under at most one post. */
  lemma {:induction false} CommentUnderOnePost(g: Graph, p: Id, q: Id, x: CommentNode)
    requires g.Valid()
    requires x in g.CommentsByPost(p) && x in g.CommentsByPost(q)
    ensures p == q
  {
    assert x.id in g.comments && g.comments[x.id] == x;
    assert Edge(HasComment, p, x.id) in g.edges && Edge(HasComment, q, x.id) in g.edges;
  }
}
