/**
 * The entities of the blogging platform and an in-memory store standing in
 * for the database tables behind them.
 */
module Models {
  import opened Wrappers

  type UserId = nat
  type GroupId = nat
  type PostId = nat
  type CommentId = nat

  /** An uploaded image; only its size in bytes matters to the rules. */
  datatype Image = Image(size: nat)

  datatype Group = Group(id: GroupId, title: string, slug: string, description: string)

  datatype Post = Post(id: PostId, author: UserId, text: string, image: Option<Image>, group: Option<GroupId>)

  datatype Comment = Comment(id: CommentId, author: UserId, post: PostId, text: string)

  /** `user` subscribes to `following`. */
  datatype Follow = Follow(user: UserId, following: UserId)

  /** The follow relation is irreflexive and holds no pair twice. */
  predicate FollowsValid(follows: seq<Follow>) {
    && (forall i :: 0 <= i < |follows| ==> follows[i].user != follows[i].following)
    && (forall i, j :: 0 <= i < j < |follows| ==> follows[i] != follows[j])
  }

  predicate GroupExists(groups: seq<Group>, id: GroupId) {
    exists i :: 0 <= i < |groups| && groups[i].id == id
  }

  class Store {
    var groups: seq<Group>
    var posts: seq<Post>
    var comments: seq<Comment>
    var follows: seq<Follow>
    /** The id the database assigns to the next saved post or comment. */
    var nextPostId: PostId
    var nextCommentId: CommentId

    predicate HasPost(id: PostId)
      reads this
    {
      exists i :: 0 <= i < |posts| && posts[i].id == id
    }

    /**
     * The store invariant: ids increase and foreign keys point at existing
     * rows (the database's guarantees); follow pairs are unique and
     * irreflexive (kept only by the follow serializer's checks before each
     * save).
     */
    ghost predicate Valid()
      reads this
    {
      && (forall i :: 0 <= i < |posts| ==> posts[i].id < nextPostId)
      && (forall i, j :: 0 <= i < j < |posts| ==> posts[i].id < posts[j].id)
      && (forall i :: 0 <= i < |posts| && posts[i].group.Some? ==> GroupExists(groups, posts[i].group.value))
      && (forall i :: 0 <= i < |comments| ==> comments[i].id < nextCommentId)
      && (forall i, j :: 0 <= i < j < |comments| ==> comments[i].id < comments[j].id)
      && (forall i :: 0 <= i < |comments| ==> HasPost(comments[i].post))
      && FollowsValid(follows)
    }

    /** A store holding the given groups and nothing else. */
    constructor (groups: seq<Group>)
      ensures Valid()
      ensures this.groups == groups && posts == [] && comments == [] && follows == []
    {
      this.groups := groups;
      posts, comments, follows := [], [], [];
      nextPostId, nextCommentId := 0, 0;
    }

    /** Saves a post under the next id. */
    method SavePost(author: UserId, text: string, image: Option<Image>, group: Option<GroupId>) returns (p: Post)
      requires Valid()
      requires group.Some? ==> GroupExists(groups, group.value)
      modifies this
      ensures Valid()
      ensures p == Post(old(nextPostId), author, text, image, group)
      ensures posts == old(posts) + [p] && nextPostId == old(nextPostId) + 1
      ensures groups == old(groups) && comments == old(comments) && follows == old(follows)
      ensures nextCommentId == old(nextCommentId)
    {
      ghost var before := posts;
      p := Post(nextPostId, author, text, image, group);
      posts := posts + [p];
      nextPostId := nextPostId + 1;
      forall i | 0 <= i < |comments| ensures HasPost(comments[i].post) {
        assert old(HasPost(comments[i].post));
        var k :| 0 <= k < |before| && before[k].id == comments[i].post;
        assert posts[k] == before[k];
      }
    }

    /** Saves a comment on an existing post under the next id. */
    method SaveComment(author: UserId, post: PostId, text: string) returns (c: Comment)
      requires Valid()
      requires HasPost(post)
      modifies this
      ensures Valid()
      ensures c == Comment(old(nextCommentId), author, post, text)
      ensures comments == old(comments) + [c] && nextCommentId == old(nextCommentId) + 1
      ensures groups == old(groups) && posts == old(posts) && follows == old(follows)
      ensures nextPostId == old(nextPostId)
    {
      c := Comment(nextCommentId, author, post, text);
      comments := comments + [c];
      nextCommentId := nextCommentId + 1;
    }

    /** Saves a follow pair that is neither reflexive nor already present. */
    method SaveFollow(f: Follow)
      requires Valid()
      requires f.user != f.following && f !in follows
      modifies this
      ensures Valid()
      ensures follows == old(follows) + [f]
      ensures groups == old(groups) && posts == old(posts) && comments == old(comments)
      ensures nextPostId == old(nextPostId) && nextCommentId == old(nextCommentId)
    {
      follows := follows + [f];
    }
  }
}
