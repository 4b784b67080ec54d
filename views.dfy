/**
 * The request-level rules of the post, comment and follow endpoints: the
 * pagination gate, which permissions apply, how listings are selected, and
 * how a new record is built and saved with server-side fields.
 */
module Views {
  import opened Wrappers
  import opened Text
  import opened Sequences
  import opened Models
  import opened Http
  import opened Serializers

  /** How a request fails: 400 with the validators' reasons, 401, 403, 404, or a lookup value the database cannot read as an id. */
  datatype Error = Invalid(reasons: seq<Message>) | NotAuthenticated | PermissionDenied | NotFound | BadLookup

  datatype Result<T> = Ok(value: T) | Fail(error: Error)

  // ---------------------------------------------------------------------------
  // Pagination

  /**
   * `DynamicPagination.paginate_queryset`: without a `limit` or an `offset`
   * key the listing is not paginated (None); with either, whatever its value,
   * the decision and the page are left to limit/offset pagination, given here
   * as `limitOffset`.
   */
  function PaginateQueryset<T>(items: seq<T>, request: Request, limitOffset: (seq<T>, map<string, string>) -> Option<seq<T>>): (page: Option<seq<T>>)
    ensures "limit" !in request.query && "offset" !in request.query ==> page == None
    ensures "limit" in request.query || "offset" in request.query ==> page == limitOffset(items, request.query)
  {
    if "limit" !in request.query && "offset" !in request.query then None
    else limitOffset(items, request.query)
  }

  // ---------------------------------------------------------------------------
  // Permissions

  /**
   * The permission classes the views use. `IsAuthorOrReadOnly` is defined
   * outside the views; its verdict on a request is an input of the model.
   */
  datatype Permission = AllowAny | IsAuthenticated | IsAuthenticatedOrReadOnly | IsAuthorOrReadOnly

  predicate IsSafeMethod(verb: HttpMethod) {
    verb == GET || verb == HEAD || verb == OPTIONS
  }

  /** `has_permission` of each class; `authorOrReadOnly` is what `IsAuthorOrReadOnly` answers. */
  predicate Grants(p: Permission, request: Request, authorOrReadOnly: bool)
    ensures request.user.Some? && p != IsAuthorOrReadOnly ==> Grants(p, request, authorOrReadOnly)
    ensures request.user.None? && !IsSafeMethod(request.verb) && p != AllowAny && p != IsAuthorOrReadOnly ==>
      !Grants(p, request, authorOrReadOnly)
    ensures p == IsAuthorOrReadOnly ==> (Grants(p, request, authorOrReadOnly) <==> authorOrReadOnly)
    ensures p == AllowAny ==> Grants(p, request, authorOrReadOnly)
    ensures p == IsAuthenticatedOrReadOnly && IsSafeMethod(request.verb) ==> Grants(p, request, authorOrReadOnly)
    ensures p == IsAuthenticated && request.user.None? ==> !Grants(p, request, authorOrReadOnly)
  {
    match p
    case AllowAny => true
    case IsAuthenticated => request.user.Some?
    case IsAuthenticatedOrReadOnly => IsSafeMethod(request.verb) || request.user.Some?
    case IsAuthorOrReadOnly => authorOrReadOnly
  }

  /**
   * The framework's permission check: the classes are asked in order and the
   * first refusal ends the request, as 401 for an anonymous caller and as 403
   * otherwise.
   */
  function CheckPermissions(perms: seq<Permission>, request: Request, authorOrReadOnly: bool): (denied: Option<Error>)
    ensures denied.None? <==> forall i :: 0 <= i < |perms| ==> Grants(perms[i], request, authorOrReadOnly)
    ensures denied.Some? ==> denied.value == if request.user.None? then NotAuthenticated else PermissionDenied
  {
    if perms == [] then None
    else if !Grants(perms[0], request, authorOrReadOnly) then
      Some(if request.user.None? then NotAuthenticated else PermissionDenied)
    else CheckPermissions(perms[1..], request, authorOrReadOnly)
  }

  const PostWriteActions: set<string> := {"create", "update", "partial_update", "destroy"}

  /** `PostViewSet.get_permissions`. */
  function PostPermissions(action: string): (perms: seq<Permission>)
    ensures perms != []
  {
    if action in PostWriteActions then [IsAuthenticated, IsAuthorOrReadOnly] else [AllowAny]
  }

  /**
   * Creating, updating and deleting a post needs an authenticated caller
   * whom `IsAuthorOrReadOnly` admits; an anonymous caller is refused with
   * 401 and an authenticated one refused by that check with 403. Every other
   * action is open to anyone.
   */
  lemma PostAccessRule(request: Request, authorOrReadOnly: bool)
    ensures var denied := CheckPermissions(PostPermissions(request.action), request, authorOrReadOnly);
      && (request.action in PostWriteActions ==> (denied.None? <==> request.user.Some? && authorOrReadOnly))
      && (request.action in PostWriteActions && request.user.None? ==> denied == Some(NotAuthenticated))
      && (request.action in PostWriteActions && request.user.Some? && !authorOrReadOnly ==> denied == Some(PermissionDenied))
      && (request.action !in PostWriteActions ==> denied.None?)
  {
  }

  const CommentPermissions: seq<Permission> := [IsAuthenticatedOrReadOnly, IsAuthorOrReadOnly]

  const FollowPermissions: seq<Permission> := [IsAuthenticated]

  // ---------------------------------------------------------------------------
  // Post listing

  /**
   * The id a query parameter names, if the parameter is present. A value
   * that is not a decimal number makes the database lookup fail.
   */
  function LookupId(query: map<string, string>, key: string): (r: Result<Option<nat>>)
    ensures key !in query ==> r == Ok(None)
    ensures key in query ==> (r.Ok? <==> ParseId(query[key]).Some?)
    ensures r.Ok? && key in query ==> r.value == ParseId(query[key])
    ensures r.Fail? ==> r.error == BadLookup
  {
    if key !in query then Ok(None)
    else match ParseId(query[key])
      case None => Fail(BadLookup)
      case Some(n) => Ok(Some(n))
  }

  predicate PostMatches(p: Post, group: Option<GroupId>, author: Option<UserId>) {
    && (group.Some? ==> p.group == Some(group.value))
    && (author.Some? ==> p.author == author.value)
  }

  function InGroup(group: GroupId): Post -> bool {
    (p: Post) => p.group == Some(group)
  }

  function ByAuthor(author: UserId): Post -> bool {
    (p: Post) => p.author == author
  }

  function Matching(group: Option<GroupId>, author: Option<UserId>): Post -> bool {
    (p: Post) => PostMatches(p, group, author)
  }

  /**
   * `PostViewSet.get_queryset`: starting from every post, a `group`
   * parameter narrows to that group and an `author` parameter to that
   * author. The result keeps exactly the posts matching every parameter
   * given, in store order; with neither parameter it is the whole store.
   */
  method PostQueryset(store: Store, request: Request) returns (r: Result<seq<Post>>)
    ensures r.Fail? <==> LookupId(request.query, "group").Fail? || LookupId(request.query, "author").Fail?
    ensures r.Fail? ==> r.error == BadLookup
    ensures r.Ok? ==>
      r.value == Filter(store.posts, Matching(LookupId(request.query, "group").value, LookupId(request.query, "author").value))
    ensures r.Ok? ==> forall p :: p in r.value <==>
      p in store.posts && PostMatches(p, LookupId(request.query, "group").value, LookupId(request.query, "author").value)
    ensures r.Ok? ==> IsSubsequence(r.value, store.posts)
    ensures "group" !in request.query && "author" !in request.query ==> r == Ok(store.posts)
  {
    var queryset := store.posts;
    var group := LookupId(request.query, "group");
    if group.Fail? {
      return Fail(BadLookup);
    }
    if group.value.Some? {
      queryset := Filter(queryset, InGroup(group.value.value));
    }
    var author := LookupId(request.query, "author");
    if author.Fail? {
      return Fail(BadLookup);
    }
    if author.value.Some? {
      queryset := Filter(queryset, ByAuthor(author.value.value));
    }
    var selected := Matching(group.value, author.value);
    if group.value.Some? && author.value.Some? {
      FilterFilter(store.posts, InGroup(group.value.value), ByAuthor(author.value.value), selected);
    } else if group.value.Some? {
      FilterSame(store.posts, InGroup(group.value.value), selected);
    } else if author.value.Some? {
      FilterSame(store.posts, ByAuthor(author.value.value), selected);
    } else {
      FilterAll(store.posts, selected);
    }
    r := Ok(queryset);
  }

  /**
   * Listing posts: the selected posts are shown whole unless the pagination
   * gate hands them to limit/offset pagination and that returns a page.
   */
  method ListPosts(store: Store, request: Request, limitOffset: (seq<Post>, map<string, string>) -> Option<seq<Post>>) returns (r: Result<seq<Post>>)
    ensures r.Fail? <==> LookupId(request.query, "group").Fail? || LookupId(request.query, "author").Fail?
    ensures r.Ok? ==>
      var selected := Filter(store.posts, Matching(LookupId(request.query, "group").value, LookupId(request.query, "author").value));
      && ("limit" !in request.query && "offset" !in request.query ==> r.value == selected)
      && ("limit" in request.query || "offset" in request.query ==>
            r.value == (match limitOffset(selected, request.query) case None => selected case Some(page) => page))
  {
    var queryset := PostQueryset(store, request);
    if queryset.Fail? {
      return queryset;
    }
    var page := PaginateQueryset(queryset.value, request, limitOffset);
    r := if page.Some? then Ok(page.value) else queryset;
  }

  // ---------------------------------------------------------------------------
  // Post creation

  /**
   * Creating a post: the permissions of the `create` action, then field
   * validation, then a save whose author is the caller, whatever the body
   * says. Nothing is saved when any step fails.
   */
  method CreatePost(store: Store, request: Request, input: PostInput, authorOrReadOnly: bool) returns (r: Result<Post>)
    requires store.Valid()
    modifies store
    ensures store.Valid()
    ensures request.user.None? ==> r == Fail(NotAuthenticated)
    ensures request.user.Some? && !authorOrReadOnly ==> r == Fail(PermissionDenied)
    ensures request.user.Some? && authorOrReadOnly && PostErrors(input, old(store.groups)) != [] ==>
      r == Fail(Invalid(PostErrors(input, old(store.groups))))
    ensures r.Ok? <==> request.user.Some? && authorOrReadOnly && PostErrors(input, old(store.groups)) == []
    ensures r.Ok? ==>
      && r.value == Post(old(store.nextPostId), request.user.value, input.text, input.image, input.group)
      && store.posts == old(store.posts) + [r.value]
      && store.nextPostId == old(store.nextPostId) + 1
    ensures r.Fail? ==> store.posts == old(store.posts) && store.nextPostId == old(store.nextPostId)
    ensures store.groups == old(store.groups) && store.comments == old(store.comments) && store.follows == old(store.follows)
    ensures store.nextCommentId == old(store.nextCommentId)
  {
    var perms := PostPermissions("create");
    var denied := CheckPermissions(perms, request, authorOrReadOnly);
    assert perms == [IsAuthenticated, IsAuthorOrReadOnly];
    if denied.Some? {
      return Fail(denied.value);
    }
    assert Grants(perms[1], request, authorOrReadOnly);
    var errors := PostErrors(input, store.groups);
    if errors != [] {
      return Fail(Invalid(errors));
    }
    var post := store.SavePost(request.user.value, input.text, input.image, input.group);
    r := Ok(post);
  }

  // ---------------------------------------------------------------------------
  // Comments

  /** The body of a comment request; `post` and `author` are read-only fields the serializer ignores. */
  datatype CommentInput = CommentInput(text: string, post: Option<PostId>, author: Option<UserId>)

  function OnPost(post: PostId): Comment -> bool {
    (c: Comment) => c.post == post
  }

  /**
   * `CommentViewSet.get_queryset`: the comments of the post named in the
   * URL, in store order, or not-found when there is no such post.
   */
  function CommentQueryset(store: Store, post: PostId): (r: Result<seq<Comment>>)
    reads store
    ensures r.Fail? <==> !store.HasPost(post)
    ensures r.Fail? ==> r.error == NotFound
    ensures r.Ok? ==> r.value == Filter(store.comments, OnPost(post))
    ensures r.Ok? ==> forall c :: c in r.value <==> c in store.comments && c.post == post
    ensures r.Ok? ==> IsSubsequence(r.value, store.comments)
  {
    if !store.HasPost(post) then Fail(NotFound) else Ok(Filter(store.comments, OnPost(post)))
  }

  /**
   * Creating a comment: the permission classes, the explicit 401 for an
   * anonymous caller, field validation, the lookup of the post named in the
   * URL, and a save whose author is the caller and whose post is that post,
   * whatever the body says. Nothing is saved when any step fails.
   */
  method CreateComment(store: Store, request: Request, post: PostId, input: CommentInput, authorOrReadOnly: bool) returns (r: Result<Comment>)
    requires store.Valid()
    modifies store
    ensures store.Valid()
    ensures request.user.None? ==> r == Fail(NotAuthenticated)
    ensures request.user.Some? && !authorOrReadOnly ==> r == Fail(PermissionDenied)
    ensures request.user.Some? && authorOrReadOnly && AllSpace(input.text) ==> r == Fail(Invalid([TextEmpty]))
    ensures request.user.Some? && authorOrReadOnly && !AllSpace(input.text) && !old(store.HasPost(post)) ==>
      r == Fail(NotFound)
    ensures r.Ok? <==> request.user.Some? && authorOrReadOnly && !AllSpace(input.text) && old(store.HasPost(post))
    ensures r.Ok? ==>
      && r.value == Comment(old(store.nextCommentId), request.user.value, post, input.text)
      && store.comments == old(store.comments) + [r.value]
      && store.nextCommentId == old(store.nextCommentId) + 1
    ensures r.Fail? ==> store.comments == old(store.comments) && store.nextCommentId == old(store.nextCommentId)
    ensures store.groups == old(store.groups) && store.posts == old(store.posts) && store.follows == old(store.follows)
    ensures store.nextPostId == old(store.nextPostId)
  {
    var denied := CheckPermissions(CommentPermissions, request, authorOrReadOnly);
    if denied.Some? {
      return Fail(denied.value);
    }
    assert Grants(CommentPermissions[1], request, authorOrReadOnly);
    if request.user.None? {
      return Fail(NotAuthenticated);
    }
    var text := ValidateText(input.text);
    if text.Reject? {
      return Fail(Invalid([text.reason]));
    }
    if !store.HasPost(post) {
      return Fail(NotFound);
    }
    var comment := store.SaveComment(request.user.value, post, text.value);
    r := Ok(comment);
  }

  // ---------------------------------------------------------------------------
  // Follows

  function ByUser(user: UserId): Follow -> bool {
    (f: Follow) => f.user == user
  }

  /** `FollowViewSet.get_queryset`: the caller's own follows, in store order. */
  function FollowQueryset(store: Store, user: UserId): (r: seq<Follow>)
    reads store
    ensures r == Filter(store.follows, ByUser(user))
    ensures forall f :: f in r <==> f in store.follows && f.user == user
    ensures IsSubsequence(r, store.follows)
  {
    Filter(store.follows, ByUser(user))
  }

  function Searched(term: string, searchMatches: (Follow, string) -> bool): Follow -> bool {
    (f: Follow) => searchMatches(f, term)
  }

  /** Whether a follow belongs in the caller's listing: the caller's own, and matching the search text when one is given. */
  function Listed(user: UserId, query: map<string, string>, searchMatches: (Follow, string) -> bool): Follow -> bool {
    (f: Follow) => f.user == user && ("search" in query ==> searchMatches(f, query["search"]))
  }

  /**
   * Listing follows: authenticated callers only; the caller's follows,
   * narrowed by the search filter when a `search` parameter is given.
   * `searchMatches` stands for the search filter's test of a follow against
   * the search text.
   */
  function ListFollows(store: Store, request: Request, searchMatches: (Follow, string) -> bool): (r: Result<seq<Follow>>)
    reads store
    ensures r.Fail? <==> request.user.None?
    ensures r.Fail? ==> r.error == NotAuthenticated
    ensures r.Ok? ==> r.value == Filter(store.follows, Listed(request.user.value, request.query, searchMatches))
    ensures r.Ok? ==> forall f :: f in r.value ==> f.user == request.user.value
    ensures r.Ok? ==> forall f :: f in r.value <==>
      && f in store.follows && f.user == request.user.value
      && ("search" in request.query ==> searchMatches(f, request.query["search"]))
    ensures r.Ok? ==> IsSubsequence(r.value, store.follows)
  {
    var denied := CheckPermissions(FollowPermissions, request, true);
    if denied.Some? then Fail(denied.value)
    else
      var user := request.user.value;
      var follows := FollowQueryset(store, user);
      if "search" !in request.query then
        FilterSame(store.follows, ByUser(user), Listed(user, request.query, searchMatches));
        Ok(follows)
      else
        var term := request.query["search"];
        FilterFilter(store.follows, ByUser(user), Searched(term, searchMatches), Listed(user, request.query, searchMatches));
        Ok(Filter(follows, Searched(term, searchMatches)))
  }

  /**
   * Creating a follow (the router sends `create` only POST requests):
   * authenticated callers only; `FollowSerializer.validate`; then a save
   * whose user is the caller. Nothing is saved when any step fails, so the
   * store's follow relation stays irreflexive and free of duplicates.
   */
  method CreateFollow(store: Store, request: Request, input: FollowInput) returns (r: Result<Follow>)
    requires store.Valid()
    requires request.verb == POST
    modifies store
    ensures store.Valid()
    ensures request.user.None? ==> r == Fail(NotAuthenticated)
    ensures request.user.Some? && request.user.value == input.following ==> r == Fail(Invalid([SelfFollow]))
    ensures (request.user.Some? && request.user.value != input.following
             && Follow(request.user.value, input.following) in old(store.follows))
            ==> r == Fail(Invalid([AlreadyFollowing]))
    ensures r.Ok? <==> request.user.Some? && ValidateFollow(request.user.value, POST, input, old(store.follows)).Accept?
    ensures r.Ok? ==> r.value == Follow(request.user.value, input.following) && store.follows == old(store.follows) + [r.value]
    ensures r.Fail? ==> store.follows == old(store.follows)
    ensures FollowsValid(store.follows)
    ensures store.groups == old(store.groups) && store.posts == old(store.posts) && store.comments == old(store.comments)
    ensures store.nextPostId == old(store.nextPostId) && store.nextCommentId == old(store.nextCommentId)
  {
    var denied := CheckPermissions(FollowPermissions, request, true);
    if denied.Some? {
      return Fail(denied.value);
    }
    var user := request.user.value;
    var data := ValidateFollow(user, request.verb, input, store.follows);
    if data.Reject? {
      return Fail(Invalid([data.reason]));
    }
    AcceptedFollowKeepsRelation(store.follows, user, input);
    var follow := Follow(user, data.value.following);
    store.SaveFollow(follow);
    r := Ok(follow);
  }
}
