# Yatube API: request rules, modelled in Dafny

Yatube is a small blogging REST API. Users write posts, can put a post in a
group, comment on posts and follow other users. This project models the rules
the API's views and serializers apply to a request. The database is replaced
by an in-memory `Store`. The web framework's machinery (routing, rendering,
the ORM) is left out.

- `wrappers.dfy` (`Wrappers`): `Option`, the model's `None`.
- `text.dfy` (`Text`): Python's `str.strip()` and its whitespace set. Also the
  decimal reading Django applies to an id given as a query parameter.
- `sequences.dfy` (`Sequences`): an order-preserving `Filter`, the in-memory
  form of a queryset `filter(...)`, with its lemmas.
- `models.dfy` (`Models`): the entities (`Post`, `Comment`, `Group`, `Follow`,
  `Image`) and the class `Store`. `Store` holds one sequence per table plus
  the next ids. Its `Valid()` is the store invariant: ids increase, foreign
  keys point at existing rows, and follow pairs are unique and irreflexive.
  The follow part is kept only by `FollowSerializer.validate` before each
  save; the model proves that the create flow keeps it. The `Save*` methods
  are the ORM saves (appends).
- `http.dfy` (`Http`): the request. It holds the optional caller, the HTTP
  method, the router's action name and the query parameters.
- `serializers.dfy` (`Serializers`): the validation hooks of the post, comment
  and follow serializers.
- `views.py` is modelled in `views.dfy` (`Views`). It holds the pagination
  gate, the permission rules, the post, comment and follow listings, and the
  create flows that save a record with server-assigned fields.

Some framework behaviour the views depend on is passed in as a parameter:
- `limitOffset` is what limit/offset pagination returns.
- `authorOrReadOnly` is the verdict of the `IsAuthorOrReadOnly` permission,
  which is defined outside the modelled files.
- `searchMatches` is the search filter's test.

Where the views delegate a rule, the model takes the delegated check as an
input. For example, "only the author may update or delete" is left to
`IsAuthorOrReadOnly`, so its verdict is the parameter `authorOrReadOnly`.

## Model

| member | source | states |
|---|---|---|
| Text.Strip | yatube_api/api/serializers.py:24 | `value.strip()`: never longer than `value`, and empty exactly when every character of `value` is Python whitespace |
| Text.StripEmpty | yatube_api/api/serializers.py:24 | trimming both ends gives nothing exactly when every character is Python whitespace; otherwise the result starts and ends with a non-space |
| Text.ParseId | yatube_api/api/views.py:51-54 | a query value has an id reading exactly when it is a non-empty string of decimal digits |
| Text.ParseDecimal | yatube_api/api/views.py:51-54 | reading the decimal text of an id gives that id back |
| Sequences.Filter | yatube_api/api/views.py:52 | a filter keeps every copy of each element that satisfies its test and no other element (equal multiplicities), as a subsequence in the original order |
| Sequences.FilterFilter | yatube_api/api/views.py:51-55 | two successive filters equal one filter by the conjunction of their tests |
| Sequences.FilterAll | yatube_api/api/views.py:46-55 | a filter that keeps every element returns the sequence unchanged |
| Models.Store.SavePost | yatube_api/api/views.py:59 | saving appends one post with the next id and the given author, text, image and group; nothing else changes; the store invariant is kept |
| Models.Store.SaveComment | yatube_api/api/views.py:87 | saving appends one comment with the next id, the given author and post, and the text; nothing else changes |
| Models.Store.SaveFollow | yatube_api/api/views.py:124 | saving a non-reflexive, new pair appends it and keeps the follow relation irreflexive and duplicate-free |
| Serializers.MessageText | yatube_api/api/serializers.py:25-85 | each rejection reason maps to the message the source raises ("Text cannot be empty", "Image size cannot exceed 2MB", "Group does not exist", "You can't follow yourself", "You are already following this user"), none of them empty |
| Serializers.MessageTextsDistinct | yatube_api/api/serializers.py:25-85 | different rejection reasons are reported with different messages |
| Serializers.ValidateText | yatube_api/api/serializers.py:23-26 | text is rejected ("Text cannot be empty") iff it is empty or all whitespace, else returned unchanged; `CommentSerializer.validate_text` (serializers.py:50-53) is the same rule |
| Serializers.ValidateImage | yatube_api/api/serializers.py:28-31 | an image is rejected iff it is supplied and larger than 2097152 bytes; exactly 2097152 and no image pass; accepted input is returned unchanged |
| Serializers.ValidateGroup | yatube_api/api/serializers.py:33-36 | a group is rejected iff it is supplied and is none of the existing groups; no group passes; accepted input is returned unchanged |
| Serializers.PostErrors | yatube_api/api/serializers.py:23-36 | post validation collects the reason of every field hook that rejects; it is empty iff text, image and group all pass |
| Serializers.ValidateFollow | yatube_api/api/serializers.py:76-86 | a self-follow is rejected whatever the method, and it is the reason reported when the pair is also a duplicate; on POST an existing pair is rejected with `AlreadyFollowing`; for other methods the duplicate check is skipped; accepted data is returned unchanged |
| Serializers.AcceptedFollowKeepsRelation | yatube_api/api/serializers.py:76-86 | appending a follow accepted on POST, with the caller as user, keeps the follow relation irreflexive and free of duplicate pairs |
| Views.PaginateQueryset | yatube_api/api/views.py:24-32 | without a `limit` or an `offset` key there is no pagination (None); with either key, whatever its value, the result is what limit/offset pagination returns |
| Views.Grants | yatube_api/api/views.py:39-44 | `has_permission` of the classes the views name: `AllowAny` admits everyone; `IsAuthenticated` refuses an anonymous caller; `IsAuthenticatedOrReadOnly` admits every safe-method request and refuses an anonymous unsafe one; an authenticated caller passes every class but the author check; the author check passes exactly when `IsAuthorOrReadOnly` says so |
| Views.CheckPermissions | yatube_api/api/views.py:73-76 | the framework's check over whichever class list a view declares (here `CommentViewSet.permission_classes`; also used with `get_permissions` and `FollowViewSet.permission_classes`): a request passes iff every class grants it; a refusal is 401 for an anonymous caller and 403 otherwise |
| Views.PostPermissions | yatube_api/api/views.py:41-44 | `get_permissions` always names at least one class; what the returned list decides, for every request and action, is proved by `PostAccessRule` |
| Views.PostAccessRule | yatube_api/api/views.py:41-44 | create, update, partial_update and destroy need an authenticated caller admitted by `IsAuthorOrReadOnly` (401 when anonymous, 403 when refused); every other action is open to anyone |
| Views.LookupId | yatube_api/api/views.py:48-54 | an absent parameter means no filter; a present one is its id, or a failed lookup if it is not a decimal number |
| Views.PostQueryset | yatube_api/api/views.py:46-55 | the posts kept are exactly those whose group equals the `group` parameter and whose author equals the `author` parameter, whichever are given, in store order; with neither the whole collection is returned |
| Views.ListPosts | yatube_api/api/views.py:24-55 | without `limit`/`offset` the listing is every selected post; with either, it is the page limit/offset pagination returns, or every selected post when that returns none |
| Views.CreatePost | yatube_api/api/views.py:57-59 | create needs authentication (401) and the author check (403); invalid fields give 400 with all reasons; otherwise one post with the next id is appended whose author is the caller, whatever the body says, and the next id advances |
| Views.CommentQueryset | yatube_api/api/views.py:79-82 | not-found iff the post in the URL does not exist; otherwise the filter of the store's comments by that post (every copy, in store order) |
| Views.CreateComment | yatube_api/api/views.py:84-95 | an anonymous caller gets 401 and nothing is added; blank text gives 400; a missing post gives 404; otherwise one comment is appended with author = caller and post = the URL's post |
| Views.FollowQueryset | yatube_api/api/views.py:119-121 | the filter of the store's follows by user = caller (every copy, in store order) |
| Views.ListFollows | yatube_api/api/views.py:110-121 | anonymous callers get 401; otherwise the filter of the store's follows by user = caller and, when `search` is given, the search test (every copy, in store order) |
| Views.CreateFollow | yatube_api/api/views.py:123-124 | an anonymous caller gets 401; a self-follow or duplicate gives 400 with that reason; otherwise the pair (caller, following) is appended; the follow relation stays irreflexive and duplicate-free |

## Left out

- Views.PaginateQueryset: the internals of limit/offset pagination (reading `limit` and `offset`, slicing, the default page size, the response's `count`/`next`/`previous`) are framework code. The model takes them as the parameter `limitOffset`.
- Views.ListFollows: the search filter on `following__username` (term splitting, case rules) is framework code. It is the parameter `searchMatches`, applied when a `search` key is present.
- `IsAuthorOrReadOnly` is defined in a file that is not part of this model. Its answer is the boolean parameter `authorOrReadOnly`. Its object-level check on update and destroy is not modelled.
- Update, partial update, retrieve and destroy of posts and comments are framework defaults. Only the permissions they get are modelled (`PostAccessRule`).
- The group endpoints (`GroupViewSet`, a read-only list) and the Django admin configuration have no rules of their own to state.
- Views.CreatePost, Views.CreateComment: the framework's own field handling before the hooks run is not modelled. This covers `CharField` whitespace trimming and its "may not be blank" check, required-field errors and `PrimaryKeyRelatedField` rejecting an unknown group id. The hooks are modelled as written.
- Views.CreateFollow: the `following` username lookup (`SlugRelatedField`) is not modelled. The input carries the followed user's id.
- Views.CreateFollow: it requires a POST request, because the router dispatches `create` only for POST. This is what makes the duplicate check run.
- Image decoding and file truthiness are not modelled. An image is only its size, and a supplied image always counts as present.
- Views.LookupId: Django's integer coercion also accepts a sign, surrounding spaces, underscores and non-ASCII digits. The model reads only ASCII digit strings. Any other value is `BadLookup`, where the source raises and the server answers with an error.
- A query key with several values is not modelled. The request holds one value per key, where `QueryDict.get` returns the last value.
- Logging and re-raising in the post `perform_create` are not modelled. They are I/O with no effect on the result.
- Timestamps (`pub_date`, `created`), `select_related`, and the ordering of querysets are not modelled. Store order stands for queryset order.
- Cascade deletion is not modelled. The modelled operations never delete.
- Views.CreateFollow: requests are taken one at a time. The validator reads the store and the save happens later, so two interleaved follow creations could both pass the duplicate check. The model does not capture that interleaving, and the invariant it proves holds only for requests run one after another.
- The `Follow` model's own database constraints are not part of this model. The follow invariant rests only on the serializer's checks.
- Whether an anonymous refusal is sent as 401 or 403 depends on the authentication scheme. The model reports `NotAuthenticated` (401).
- `get_serializer_context` is not modelled as a member. It passes the request to the serializer, which the model does by passing the caller and the method directly.
