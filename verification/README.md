# Yatube API: a verified model of its access-control and data-integrity core

Yatube is a blogging backend. Users write posts, optionally filed under a
group; they comment on posts and follow other users. This project models four
parts of it as Dafny:

- the permission policies;
- the tables and their integrity rules, including what every delete
  cascades to or clears;
- the four viewsets, with the dispatch that runs before their handlers;
- the serializers' validation.

For each operation it proves the outcome in both directions: when a request
or a body is accepted and what is stored then, and which failure answers it
otherwise.

- `tables.dfy` (module `Tables`): `Option`, the key types, and the generic
  operations on a table kept as a sequence of rows. These are `Drop` (a
  delete), `Select` (a filter on one column) and `Find` (a lookup by key).
  `Pairwise` states a uniqueness or ordering constraint between rows.
- `permissions.dfy` (module `Permissions`): the HTTP methods, `SAFE_METHODS`,
  and four permission classes with their request-level and object-level checks.
  Two classes are the project's own (`AuthorOrReadOnly`, `ReadOnly`). Two are
  the framework classes that the views use (`IsAuthenticatedOrReadOnly`,
  `IsAuthenticated`).
- `models.dfy` (module `Models`): the `Group`, `Post`, `Comment` and `Follow`
  rows and the user rows they refer to. It defines the integrity predicate
  (unique keys, unique slugs, the Follow `UniqueConstraint` and
  `CheckConstraint`, foreign keys, and the `pub_date` order). The database is
  the class `Store`. Its methods insert, update and delete rows. Every delete
  performs the CASCADE and SET_NULL fan-out and keeps the integrity predicate.
- `serializers.dfy` (module `Serializers`): field validation for posts,
  comments and follows. It fixes the order of the follow checks and the two
  project-specific messages. A request body field is `Field`: omitted,
  JSON null, or given, so a null text or `following` is refused as null while
  a null `group` or `image` clears the column. It also renders rows, with
  users shown by username (`RenderPost`, `RenderComment`, `RenderFollow`).
  The handlers answer with rows; the rendering is stated on its own and
  applied to those rows apart from the handlers.
- `views.dfy` (module `Views`): the action set and permission classes of each
  viewset, and the dispatch order (route, then request-level permission, then
  method, then object lookup, then object-level permission, then validation).
  It holds the scoped querysets and one handler per viewset over a `Store`.
- `scenarios.dfy` (module `Scenarios`): short request sequences on a store,
  each outcome verified.

The requester is an explicit `Option<UserId>`: `None` is the anonymous user.
A requester that is present is a stored user (`Views.Authenticated`). That is
what token authentication guarantees before a handler runs. Timestamps are the
ticks of a clock in the store, which only moves forward.

Where the code and its stated intent disagree, the model follows the code:

- `AuthorOrReadOnly.has_object_permission` (yatube_api/api/permissions.py:15-16)
  compares authors for every method. No view overrides it for `retrieve`. So
  reading a single post or comment is reserved to its author, and anonymous
  callers are refused too (`Views.InstanceAccessIsAuthorship`). The class's
  docstring (yatube_api/api/permissions.py:5-8) says everyone else may read.
- Creating a comment validates the body before it looks up the parent post.
  So an invalid body under a missing post is answered with a validation error,
  not a not-found.
- `GroupViewSet` names no permission classes, so the project's default
  settings apply to it. Those settings are not part of this model, which gives
  the group viewset no gate: every request passes its request-level check.

## Model

| member | source | states |
|---|---|---|
| `Permissions.SafeMeansNonMutating` | yatube_api/api/permissions.py:11 | SAFE_METHODS (GET, HEAD, OPTIONS) are exactly the methods that do not mutate |
| `Permissions.AuthorOrReadOnlyRequestCheck` | yatube_api/api/permissions.py:9-13 | the request check passes iff the method is safe or the requester is authenticated; an anonymous POST/PUT/PATCH/DELETE always fails |
| `Permissions.AuthorOrReadOnlyObjectCheck` | yatube_api/api/permissions.py:15-16 | the object check passes iff the requester is the object's author, and it gives the same answer for every method |
| `Permissions.AnonymousNeverOwns` | yatube_api/api/permissions.py:15-16 | an anonymous requester never passes the object check |
| `Permissions.ReadOnlyCheck` | yatube_api/api/permissions.py:24-25 | ReadOnly passes iff the method is safe, and it gives the same answer for every requester |
| `Models.PostStr` | yatube_api/posts/models.py:42-43 | `__str__` is a prefix of the text at most 150 long: the whole text when it fits, exactly 150 characters otherwise |
| `Models.FollowPairsUnique` | yatube_api/posts/models.py:72-80 | under the constraints, no follow row follows itself and no two rows share a (user, following) pair |
| `Models.UngroupEffect` | yatube_api/posts/models.py:34-37 | SET_NULL keeps every post, in order, with every other column unchanged; posts of the deleted group get `group = None`; the set of post ids does not change |
| `Models.DeletePostKeepsIntegrity` | yatube_api/posts/models.py:52-54 | removing a post and the comments on it keeps every integrity rule |
| `Models.DeleteCommentKeepsIntegrity` | yatube_api/posts/models.py:46-58 | removing a comment keeps every integrity rule |
| `Models.DeleteGroupKeepsIntegrity` | yatube_api/posts/models.py:34-37 | removing a group and clearing its posts' `group` keeps every integrity rule |
| `Models.DeleteUserKeepsIntegrity` | yatube_api/posts/models.py:28-69 | removing a user, their posts, their comments, the comments on their posts and their follows on either side keeps every integrity rule |
| `Models.Store.PostsByPubDate` | yatube_api/posts/models.py:39-40 | the post listing holds every stored post, in strictly ascending `pub_date` |
| `Models.Store.AddGroup` | yatube_api/posts/models.py:10-15 | a group is stored iff its slug is new and its title fits in 200 characters |
| `Models.Store.InsertPost` | yatube_api/posts/models.py:21-40 | the new post has a fresh key and a `pub_date` later than every stored post's, and is appended; nothing else changes |
| `Models.Store.InsertComment` | yatube_api/posts/models.py:46-58 | the new comment, on an existing post, is appended; nothing else changes |
| `Models.Store.InsertFollow` | yatube_api/posts/models.py:61-80 | the row is refused iff it is a self-follow or a stored pair; otherwise it is appended; validity is kept |
| `Models.Store.UpdatePost` | yatube_api/posts/models.py:24-37 | only text, image and group of that post change; id, author and `pub_date` stay |
| `Models.Store.UpdateComment` | yatube_api/posts/models.py:55-58 | only that comment's text changes |
| `Models.Store.DeletePost` | yatube_api/posts/models.py:52-54 | the post goes, exactly the comments with that `post` go, and the other tables are unchanged |
| `Models.Store.DeleteComment` | yatube_api/posts/models.py:46-58 | exactly that comment goes; the other tables are unchanged |
| `Models.Store.DeleteGroup` | yatube_api/posts/models.py:34-37 | the group goes; every post stays, with the group cleared where it pointed there |
| `Models.Store.DeleteUser` | yatube_api/posts/models.py:28-69 | the user's posts, the comments on them, their own comments and every follow naming them go; groups stay |
| `Serializers.MessagesIdentifyErrors` | yatube_api/api/serializers.py:41-66 | different validation errors answer with different messages (comparing two unknown group keys aside) |
| `Serializers.FollowMessagesDiffer` | yatube_api/api/serializers.py:53-66 | the self-follow message and the duplicate-follow message are different |
| `Serializers.LookupUsername` | yatube_api/api/serializers.py:45-47 | a username resolves to a stored user with that username, or to none exactly when no user has it |
| `Serializers.UsernameOf` | yatube_api/api/serializers.py:41-43 | a user renders as their username, and that fails exactly for an unknown id |
| `Serializers.UsernameRoundTrip` | yatube_api/api/serializers.py:41-47 | with unique usernames, rendering a user and looking the username up gives back the same user |
| `Serializers.ValidateFollow` | yatube_api/api/serializers.py:41-66 | an omitted `following` is required; null or the empty string is null; an unknown username is reported as such; a self-follow reports the self-follow error on `following`, before and instead of the uniqueness check; a stored pair reports the duplicate error under non_field_errors; every other body is accepted with the looked-up user, and an accepted target is neither the requester nor already followed |
| `Serializers.AcceptedFollowStorable` | yatube_api/api/serializers.py:53-66 | storing an accepted follow keeps the Follow table's constraints |
| `Serializers.RenderFollow` | yatube_api/api/serializers.py:41-51 | a follow renders as exactly two usernames, which resolve back to its `user` and `following` |
| `Serializers.ValidatePost` | yatube_api/api/serializers.py:8-14 | a body with a non-empty text (or none, on a partial update) and an existing or null group is accepted as its writable fields only; a null text is reported as null, an empty one as blank, a missing one on a full write as required, an unknown group as that key not existing; errors name exactly the offending fields |
| `Serializers.ValidateComment` | yatube_api/api/serializers.py:17-27 | a non-empty text, or an omitted one on a partial update, is accepted as exactly that text; a null text is refused as null, an empty one as blank, an omitted one on a full write as required |
| `Serializers.ReadOnlyFieldsIgnored` | yatube_api/api/serializers.py:9-26 | client values for `author`, `pub_date` (post) and `author`, `post` (comment) do not affect validation |
| `Serializers.RenderPost` | yatube_api/api/serializers.py:8-14 | a post renders every column unchanged, its author as a username that resolves back to the author |
| `Serializers.RenderComment` | yatube_api/api/serializers.py:17-26 | a comment renders every column unchanged, its author as a username that resolves back to the author |
| `Views.Dispatch` | yatube_api/api/views.py:13-67 | a missing route is not-found; a failed request check is forbidden; otherwise OPTIONS is described, a method whose action the viewset offers runs that action, and any other method is not allowed; an action runs only in that case |
| `Views.AnonymousMutationRefused` | yatube_api/api/views.py:19-20 | an anonymous mutating request on posts, comments or follows never reaches a handler; on every existing route it is refused as forbidden |
| `Views.WritesAreAuthenticated` | yatube_api/api/views.py:19-20 | a create, update or delete that passes dispatch comes from an authenticated requester |
| `Views.FollowNeedsAuthentication` | yatube_api/api/views.py:67 | every follow request from an anonymous requester fails |
| `Views.InstanceAccessIsAuthorship` | yatube_api/api/views.py:38-39 | on posts and comments, passing both checks is equivalent to being the object's author, for every method including GET |
| `Views.ActionSets` | yatube_api/api/views.py:27-63 | groups run only list and retrieve and no mutating method; follows run only create and list, and have no item route |
| `Views.CommentQueryset` | yatube_api/api/views.py:41-52 | a missing parent post is not-found; otherwise the list holds exactly the comments whose `post` is that post |
| `Views.TargetComment` | yatube_api/api/views.py:41-52 | an instance action finds a comment only among the parent post's comments |
| `Views.SearchFollows` | yatube_api/api/views.py:68-69 | search keeps exactly the follows whose followed username contains every term |
| `Views.FollowQueryset` | yatube_api/api/views.py:71-73 | the follow list holds only the requester's follows; with no search terms it holds all of them |
| `Views.FollowListScoped` | yatube_api/api/views.py:68-73 | the list with search terms is a subset of the requester's full follow list |
| `Views.GroupEndpoint` | yatube_api/api/views.py:27-31 | a dispatched list answers every group; a dispatched retrieve answers the group with that key, or not-found; dispatch failures and OPTIONS pass through; nothing is ever written |
| `Views.PostEndpoint` | yatube_api/api/views.py:13-24 | dispatch failures and OPTIONS pass through; a dispatched list answers every post by `pub_date`; a create succeeds iff the body validates, with the requester as author, and otherwise answers the errors; an instance action on a missing post is not-found, by a non-author forbidden, and by the author retrieves the post, deletes it with its comments, or updates it iff the body validates; a failure leaves the store unchanged |
| `Views.CommentEndpoint` | yatube_api/api/views.py:34-52 | dispatch failures and OPTIONS pass through; a dispatched list answers the parent post's comments, or not-found without the post; a create succeeds iff the body validates and the post exists, with its author from the requester and its post from the path; an instance action on a comment missing under that post is not-found, by a non-author forbidden, and by the author retrieves, deletes, or updates it iff the body validates; a failure leaves the store unchanged |
| `Views.FollowEndpoint` | yatube_api/api/views.py:63-80 | only authenticated requesters get through; dispatch failures and OPTIONS pass through; a dispatched list answers the requester's follows narrowed by the search; a create stores `user` = requester iff the serializer accepts the body, and otherwise answers with its errors |

## Left out

- URL routing, the `v1/` prefix and the `post_id` pattern (yatube_api/api/urls.py). The path's post id is a natural number given to the comment handler. Only the item route versus the collection route is modelled.
- Token issuance and authentication. The requester is an input, and a present requester is assumed to be a stored user.
- Limit/offset pagination of list responses.
- Image upload and storage. `image` is an opaque optional string with no file or format validation.
- Wall-clock time. `pub_date` and `created` are ticks of a clock that only moves forward, so two posts never share a `pub_date`.
- Views.SearchFollows: the model takes the search terms already split, and matches them case-sensitively. The framework splits the term string on whitespace and commas and matches case-insensitively.
- Serializers.TextError: the framework's trimming of whitespace around text fields is not modelled. So text made only of whitespace is not refused as blank, and stored text is not trimmed.
- The slug format and the 50-character slug length are not modelled. Only slug uniqueness and the title length are.
- Concurrent requests, and the translation of a storage-constraint violation into a validation error. The model is sequential, and `Store.InsertFollow` refuses a row that breaks a constraint.
- JSON (de)serialisation, HTTP status codes, and the content of OPTIONS responses. Failures are the kinds `NotFound`, `Forbidden`, `MethodNotAllowed` and `Invalid`. A missing authentication and an ownership mismatch are both `Forbidden`.
- The admin interface, and the display strings `Group.__str__` and `Follow.__str__`, which only it uses.
- The user table belongs to the framework. `Store.AddUser` models only the uniqueness of usernames. The project settings, which give `GroupViewSet` its default permission classes, are not part of this model.
