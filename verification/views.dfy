/** The four viewsets: which actions each offers, the permission classes each
    composes, the dispatch the framework performs before a handler runs, the
    scoped querysets, and the handlers themselves over a Store. */
module Views {
  import opened Tables
  import opened Permissions
  import opened Models
  import opened Serializers

  datatype ViewSet = PostViewSet | CommentViewSet | GroupViewSet | FollowViewSet

  datatype Action = List | Create | Retrieve | Update | PartialUpdate | Destroy {
    /** The actions that address one object by key. */
    predicate OnInstance() {
      this in {Retrieve, Update, PartialUpdate, Destroy}
    }
  }

  /** A request addresses the collection route or one item's route. */
  datatype Target = Collection | Item(id: nat)

  /** The actions each viewset class provides: a full model viewset for posts
      and comments, a read-only one for groups, create and list for follows. */
  function Actions(vs: ViewSet): set<Action> {
    match vs
    case PostViewSet | CommentViewSet => {List, Create, Retrieve, Update, PartialUpdate, Destroy}
    case GroupViewSet => {List, Retrieve}
    case FollowViewSet => {Create, List}
  }

  /** The router's method table for each route (OPTIONS is answered apart). */
  function Route(m: Method, t: Target): Option<Action> {
    match (t, m)
    case (Collection, GET) => Some(List)
    case (Collection, HEAD) => Some(List)
    case (Collection, POST) => Some(Create)
    case (Item(_), GET) => Some(Retrieve)
    case (Item(_), HEAD) => Some(Retrieve)
    case (Item(_), PUT) => Some(Update)
    case (Item(_), PATCH) => Some(PartialUpdate)
    case (Item(_), DELETE) => Some(Destroy)
    case _ => None
  }

  /** The router registers a route only for a viewset with an action on it. */
  predicate RouteExists(vs: ViewSet, t: Target) {
    exists a :: a in Actions(vs) && a.OnInstance() == t.Item?
  }

  /** `permission_classes` of each viewset. The group viewset names none and
      is given no gate. */
  function PermissionClasses(vs: ViewSet): seq<PermissionClass> {
    match vs
    case PostViewSet | CommentViewSet => [AuthorOrReadOnly, IsAuthenticatedOrReadOnly]
    case GroupViewSet => []
    case FollowViewSet => [IsAuthenticated]
  }

  /** Every class's request-level check must pass. */
  predicate RequestAllowed(vs: ViewSet, m: Method, requester: Option<UserId>) {
    forall i :: 0 <= i < |PermissionClasses(vs)| ==> HasPermission(PermissionClasses(vs)[i], m, requester)
  }

  /** Every class's object-level check must pass. */
  predicate ObjectAllowed(vs: ViewSet, m: Method, requester: Option<UserId>, author: UserId) {
    forall i :: 0 <= i < |PermissionClasses(vs)| ==>
      HasObjectPermission(PermissionClasses(vs)[i], m, requester, author)
  }

  datatype Failure = NotFound | Forbidden | MethodNotAllowed | Invalid(errors: Errors)

  /** Where dispatch leaves a request: run an action, answer OPTIONS with the
      endpoint's description, or fail. */
  datatype Step = Run(action: Action) | Describe | Fail(failure: Failure)

  /** The framework's dispatch up to the handler: route resolution, then the
      request-level permission checks, then the method-to-action table. */
  function Dispatch(vs: ViewSet, m: Method, t: Target, requester: Option<UserId>): (s: Step)
    ensures s.Run? ==> s.action in Actions(vs) && RequestAllowed(vs, m, requester) &&
                       Route(m, t) == Some(s.action) && s.action.OnInstance() == t.Item?
    ensures s.Describe? ==> m == OPTIONS && RequestAllowed(vs, m, requester)
    ensures !RouteExists(vs, t) ==> s == Fail(NotFound)
    ensures RouteExists(vs, t) && !RequestAllowed(vs, m, requester) ==> s == Fail(Forbidden)
    ensures RouteExists(vs, t) && RequestAllowed(vs, m, requester) && m == OPTIONS ==> s == Describe
    ensures RouteExists(vs, t) && RequestAllowed(vs, m, requester) && m != OPTIONS ==>
      if Route(m, t).Some? && Route(m, t).value in Actions(vs) then s == Run(Route(m, t).value)
      else s == Fail(MethodNotAllowed)
  {
    if !RouteExists(vs, t) then Fail(NotFound)
    else if !RequestAllowed(vs, m, requester) then Fail(Forbidden)
    else if m == OPTIONS then Describe
    else match Route(m, t)
      case Some(a) => if a in Actions(vs) then Run(a) else Fail(MethodNotAllowed)
      case None => Fail(MethodNotAllowed)
  }

  /** An anonymous requester never gets a mutating request on posts,
      comments or follows past dispatch. */
  lemma AnonymousMutationRefused(vs: ViewSet, m: Method, t: Target)
    requires vs != GroupViewSet && m.Mutates()
    ensures Dispatch(vs, m, t, None).Fail?
    ensures vs != FollowViewSet || t == Collection ==> Dispatch(vs, m, t, None) == Fail(Forbidden)
  {
    var action := if t.Item? then Retrieve else Create;
    if vs != FollowViewSet || t == Collection {
      assert action in Actions(vs) && action.OnInstance() == t.Item?;
    }
    assert !HasPermission(PermissionClasses(vs)[0], m, None);
  }

  /** A create, update or delete that passes dispatch comes from an
      authenticated requester. */
  lemma WritesAreAuthenticated(vs: ViewSet, m: Method, t: Target, requester: Option<UserId>)
    requires Dispatch(vs, m, t, requester).Run?
    requires Dispatch(vs, m, t, requester).action != List && Dispatch(vs, m, t, requester).action != Retrieve
    ensures requester.Some?
  {
    assert m.Mutates();
    assert HasPermission(PermissionClasses(vs)[0], m, requester);
  }

  /** Every follow action needs an authenticated requester. */
  lemma FollowNeedsAuthentication(m: Method, t: Target)
    ensures Dispatch(FollowViewSet, m, t, None).Fail?
  {
    assert !HasPermission(PermissionClasses(FollowViewSet)[0], m, None);
  }

  /** On posts and comments, passing both the request-level and the
      object-level checks means exactly being the object's author, whatever
      the method: reading a single post or comment is also reserved to its
      author, and anonymous requesters never get one. */
  lemma InstanceAccessIsAuthorship(vs: ViewSet, m: Method, requester: Option<UserId>, author: UserId)
    requires vs == PostViewSet || vs == CommentViewSet
    ensures RequestAllowed(vs, m, requester) && ObjectAllowed(vs, m, requester, author)
            <==> requester == Some(author)
  {
    if requester == Some(author) {
      assert forall i :: 0 <= i < |PermissionClasses(vs)| ==>
        HasPermission(PermissionClasses(vs)[i], m, requester);
    } else {
      assert !HasObjectPermission(PermissionClasses(vs)[0], m, requester, author);
    }
  }

  /** Groups answer only list and retrieve, follows only create and list;
      follows have no item route at all. */
  lemma ActionSets(m: Method, t: Target, requester: Option<UserId>)
    ensures Dispatch(GroupViewSet, m, t, requester).Run? ==>
              Dispatch(GroupViewSet, m, t, requester).action in {List, Retrieve}
    ensures m.Mutates() ==> !Dispatch(GroupViewSet, m, t, requester).Run?
    ensures Dispatch(FollowViewSet, m, t, requester).Run? ==>
              Dispatch(FollowViewSet, m, t, requester).action in {Create, List}
    ensures t.Item? ==> Dispatch(FollowViewSet, m, t, requester) == Fail(NotFound)
  {
    if t.Item? {
      assert forall a :: a in Actions(FollowViewSet) ==> !a.OnInstance();
    }
  }

  /** `CommentViewSet.get_queryset`: the parent post is resolved first
      (`get_post`, None when it does not exist), then its comments. */
  function CommentQueryset(posts: seq<Post>, comments: seq<Comment>, postId: PostId): (r: Option<seq<Comment>>)
    ensures r.None? <==> postId !in Keys(posts, PostKey)
    ensures r.Some? ==> forall c :: c in r.value <==> c in comments && c.post == postId
  {
    match Find(posts, PostKey, postId)
    case None => None
    case Some(_) => Some(Select(comments, CommentPost, postId))
  }

  /** Whether `term` occurs in `text`. */
  predicate Contains(text: string, term: string) {
    exists i :: 0 <= i <= |text| && term <= text[i..]
  }

  /** The search filter on `following__username`: the followed user's
      username contains every search term. */
  predicate MatchesSearch(users: seq<User>, f: Follow, terms: seq<string>) {
    var name := UsernameOf(users, f.following);
    name.Some? && forall i :: 0 <= i < |terms| ==> Contains(name.value, terms[i])
  }

  function SearchFollows(users: seq<User>, rows: seq<Follow>, terms: seq<string>): (r: seq<Follow>)
    ensures forall f :: f in r <==> f in rows && MatchesSearch(users, f, terms)
  {
    if rows == [] then []
    else if MatchesSearch(users, rows[0], terms) then [rows[0]] + SearchFollows(users, rows[1..], terms)
    else SearchFollows(users, rows[1..], terms)
  }

  /** `FollowViewSet.get_queryset` then the search filter: the requester's own
      follows, narrowed by the search terms when there are any. */
  function FollowQueryset(users: seq<User>, follows: seq<Follow>, requester: UserId,
                          terms: seq<string>): (r: seq<Follow>)
    ensures forall f :: f in r ==> f in follows && f.user == requester
    ensures terms == [] ==> r == Select(follows, FollowUser, requester)
    ensures forall f :: f in r <==> f in Select(follows, FollowUser, requester) && (terms == [] || MatchesSearch(users, f, terms))
  {
    var own := Select(follows, FollowUser, requester);
    if terms == [] then own else SearchFollows(users, own, terms)
  }

  /** Without search terms the follow list is exactly the requester's follows;
      with terms it is a subset of that list. */
  lemma FollowListScoped(users: seq<User>, follows: seq<Follow>, requester: UserId, terms: seq<string>)
    ensures forall f :: f in FollowQueryset(users, follows, requester, []) <==> f in follows && f.user == requester
    ensures forall f :: f in FollowQueryset(users, follows, requester, terms) ==>
              f in FollowQueryset(users, follows, requester, [])
  {
  }

  /** What a handler answers. */
  datatype Response<T> =
    | Listed(rows: seq<T>)
    | Retrieved(row: T)
    | Created(row: T)
    | Updated(row: T)
    | Destroyed
    | Described
    | Failed(failure: Failure)
  {
    /** Whether the request changed the store. */
    predicate Wrote() {
      Created? || Updated? || Destroyed?
    }
  }

  /** A requester, when there is one, is a stored user. */
  predicate Authenticated(users: seq<User>, requester: Option<UserId>) {
    requester.Some? ==> requester.value in Keys(users, UserKey)
  }

  /** The group viewset: list and retrieve over the group table. */
  function GroupEndpoint(groups: seq<Group>, m: Method, t: Target, requester: Option<UserId>): (r: Response<Group>)
    ensures r.Listed? ==> r.rows == groups
    ensures r.Retrieved? ==> t.Item? && r.row in groups && r.row.id == t.id
    ensures t.Item? && Find(groups, GroupKey, t.id).None? ==> r.Failed? || r.Described?
    ensures !r.Wrote()
    ensures Dispatch(GroupViewSet, m, t, requester).Fail? ==> r == Failed(Dispatch(GroupViewSet, m, t, requester).failure)
    ensures Dispatch(GroupViewSet, m, t, requester) == Describe ==> r == Described
    ensures Dispatch(GroupViewSet, m, t, requester) == Run(List) ==> r == Listed(groups)
    ensures t.Item? && Dispatch(GroupViewSet, m, t, requester) == Run(Retrieve) ==>
      r == if Find(groups, GroupKey, t.id).Some? then Retrieved(Find(groups, GroupKey, t.id).value) else Failed(NotFound)
  {
    match Dispatch(GroupViewSet, m, t, requester)
    case Fail(f) => Failed(f)
    case Describe => Described
    case Run(a) =>
      if a == List then Listed(groups)
      else match Find(groups, GroupKey, t.id)
        case None => Failed(NotFound)
        case Some(g) => Retrieved(g)
  }

  /** The post viewset. `perform_create` saves the requester as author;
      instance actions find the post, then apply the object-level check. */
  method PostEndpoint(s: Store, m: Method, t: Target, requester: Option<UserId>, payload: PostPayload)
    returns (r: Response<Post>)
    requires s.Valid() && Authenticated(s.users, requester)
    modifies s
    ensures s.Valid()
    ensures m.Mutates() && requester.None? ==> r == Failed(Forbidden)
    ensures r.Listed? ==> r.rows == old(s.PostsByPubDate())
    ensures Dispatch(PostViewSet, m, t, requester).Fail? ==> r == Failed(Dispatch(PostViewSet, m, t, requester).failure)
    ensures Dispatch(PostViewSet, m, t, requester) == Describe ==> r == Described
    ensures Dispatch(PostViewSet, m, t, requester) == Run(List) ==> r == Listed(old(s.PostsByPubDate()))
    ensures r.Created? ==>
      requester.Some? && r.row.author == requester.value &&
      payload.text == Given(r.row.text) && r.row.group == payload.group.Apply(None) &&
      r.row.image == payload.image.Apply(None) &&
      s.posts == old(s.posts) + [r.row] && s.comments == old(s.comments)
    ensures Dispatch(PostViewSet, m, t, requester) == Run(Create) ==>
      (r.Created? <==> ValidatePost(old(s.groups), payload, false).Ok?)
    ensures Dispatch(PostViewSet, m, t, requester) == Run(Create) && ValidatePost(old(s.groups), payload, false).Err?
            ==> r == Failed(Invalid(ValidatePost(old(s.groups), payload, false).errors))
    ensures t.Item? && Dispatch(PostViewSet, m, t, requester).Run? ==>
      var a := Dispatch(PostViewSet, m, t, requester).action;
      match Find(old(s.posts), PostKey, t.id)
      case None => r == Failed(NotFound)
      case Some(p) =>
        if requester != Some(p.author) then r == Failed(Forbidden)
        else if a == Retrieve then r == Retrieved(p)
        else if a == Destroy then r == Destroyed
        else match ValidatePost(old(s.groups), payload, a == PartialUpdate)
          case Err(errors) => r == Failed(Invalid(errors))
          case Ok(_) => r.Updated?
    ensures r.Retrieved? || r.Updated? || r.Destroyed? ==>
      t.Item? && Find(old(s.posts), PostKey, t.id).Some? &&
      requester == Some(Find(old(s.posts), PostKey, t.id).value.author)
    ensures r.Retrieved? ==> r.row == Find(old(s.posts), PostKey, t.id).value
    ensures r.Updated? ==>
      var p := Find(old(s.posts), PostKey, t.id).value;
      r.row == p.(text := payload.text.Or(p.text), group := payload.group.Apply(p.group),
                  image := payload.image.Apply(p.image)) &&
      s.posts == Revise(old(s.posts), t.id, r.row.text, r.row.image, r.row.group) &&
      s.comments == old(s.comments)
    ensures r.Destroyed? ==>
      s.posts == Drop(old(s.posts), PostKey, {t.id}) &&
      s.comments == Drop(old(s.comments), CommentPost, {t.id})
    ensures s.users == old(s.users) && s.groups == old(s.groups) && s.follows == old(s.follows)
    ensures !r.Wrote() ==> unchanged(s)
  {
    if m.Mutates() && requester.None? {
      AnonymousMutationRefused(PostViewSet, m, t);
    }
    match Dispatch(PostViewSet, m, t, requester)
    case Fail(f) =>
      r := Failed(f);
    case Describe =>
      r := Described;
    case Run(a) =>
      if a == List {
        r := Listed(s.posts);
      } else if a == Create {
        WritesAreAuthenticated(PostViewSet, m, t, requester);
        match ValidatePost(s.groups, payload, false)
        case Err(errors) =>
          r := Failed(Invalid(errors));
        case Ok(data) =>
          var p := s.InsertPost(data.text.value, requester.value, data.image.Apply(None), data.group.Apply(None));
          r := Created(p);
      } else {
        match Find(s.posts, PostKey, t.id)
        case None =>
          r := Failed(NotFound);
        case Some(p) =>
          InstanceAccessIsAuthorship(PostViewSet, m, requester, p.author);
          if !ObjectAllowed(PostViewSet, m, requester, p.author) {
            r := Failed(Forbidden);
          } else if a == Retrieve {
            r := Retrieved(p);
          } else if a == Destroy {
            s.DeletePost(p.id);
            r := Destroyed;
          } else {
            match ValidatePost(s.groups, payload, a == PartialUpdate)
            case Err(errors) =>
              r := Failed(Invalid(errors));
            case Ok(data) =>
              var p' := p.(text := data.text.GetOr(p.text), group := data.group.Apply(p.group),
                           image := data.image.Apply(p.image));
              assert p.group.Some? ==> p.group.value in Keys(s.groups, GroupKey);
              s.UpdatePost(p.id, p'.text, p'.image, p'.group);
              r := Updated(p');
          }
      }
  }

  /** The comment an instance action on `/posts/{postId}/comments/{id}/`
      addresses: looked up among the parent post's comments only. */
  function TargetComment(posts: seq<Post>, comments: seq<Comment>, postId: PostId, id: nat): (r: Option<Comment>)
    ensures r.Some? ==> r.value in comments && r.value.post == postId && r.value.id == id
    ensures r.Some? ==> postId in Keys(posts, PostKey)
    ensures r.None? <==>
      (postId !in Keys(posts, PostKey) || forall c :: c in comments && c.post == postId ==> c.id != id)
  {
    match CommentQueryset(posts, comments, postId)
    case None => None
    case Some(rows) => Find(rows, CommentKey, id)
  }

  /** The comment viewset, nested under the post `postId` of the path.
      Listing and instance actions resolve the post first; creation validates
      the body first, then resolves the post, and saves the requester as
      author and the resolved post as parent. */
  method CommentEndpoint(s: Store, m: Method, postId: PostId, t: Target, requester: Option<UserId>,
                         payload: CommentPayload)
    returns (r: Response<Comment>)
    requires s.Valid() && Authenticated(s.users, requester)
    modifies s
    ensures s.Valid()
    ensures m.Mutates() && requester.None? ==> r == Failed(Forbidden)
    ensures r.Listed? ==> CommentQueryset(old(s.posts), old(s.comments), postId) == Some(r.rows)
    ensures Dispatch(CommentViewSet, m, t, requester).Fail? ==>
      r == Failed(Dispatch(CommentViewSet, m, t, requester).failure)
    ensures Dispatch(CommentViewSet, m, t, requester) == Describe ==> r == Described
    ensures Dispatch(CommentViewSet, m, t, requester) == Run(List) ==>
      r == match CommentQueryset(old(s.posts), old(s.comments), postId)
           case None => Failed(NotFound)
           case Some(rows) => Listed(rows)
    ensures postId !in Keys(old(s.posts), PostKey) ==> !r.Listed? && !r.Retrieved? && !r.Wrote()
    ensures postId !in Keys(old(s.posts), PostKey) && Dispatch(CommentViewSet, m, t, requester) == Run(List)
            ==> r == Failed(NotFound)
    ensures postId !in Keys(old(s.posts), PostKey) && ValidateComment(payload, false).Ok? &&
            Dispatch(CommentViewSet, m, t, requester) == Run(Create)
            ==> r == Failed(NotFound)
    ensures r.Created? ==>
      requester.Some? && r.row.author == requester.value && r.row.post == postId &&
      payload.text == Given(r.row.text) && s.comments == old(s.comments) + [r.row]
    ensures Dispatch(CommentViewSet, m, t, requester) == Run(Create) ==>
      (r.Created? <==> ValidateComment(payload, false).Ok? && postId in Keys(old(s.posts), PostKey))
    ensures Dispatch(CommentViewSet, m, t, requester) == Run(Create) && ValidateComment(payload, false).Err?
            ==> r == Failed(Invalid(ValidateComment(payload, false).errors))
    ensures t.Item? && Dispatch(CommentViewSet, m, t, requester).Run? ==>
      var a := Dispatch(CommentViewSet, m, t, requester).action;
      match TargetComment(old(s.posts), old(s.comments), postId, t.id)
      case None => r == Failed(NotFound)
      case Some(c) =>
        if requester != Some(c.author) then r == Failed(Forbidden)
        else if a == Retrieve then r == Retrieved(c)
        else if a == Destroy then r == Destroyed
        else match ValidateComment(payload, a == PartialUpdate)
          case Err(errors) => r == Failed(Invalid(errors))
          case Ok(_) => r.Updated?
    ensures r.Retrieved? || r.Updated? || r.Destroyed? ==>
      t.Item? && TargetComment(old(s.posts), old(s.comments), postId, t.id).Some? &&
      requester == Some(TargetComment(old(s.posts), old(s.comments), postId, t.id).value.author)
    ensures r.Retrieved? ==> r.row == TargetComment(old(s.posts), old(s.comments), postId, t.id).value
    ensures r.Updated? ==>
      var c := TargetComment(old(s.posts), old(s.comments), postId, t.id).value;
      r.row == c.(text := payload.text.Or(c.text)) &&
      s.comments == ReviseComment(old(s.comments), t.id, r.row.text)
    ensures r.Destroyed? ==> s.comments == Drop(old(s.comments), CommentKey, {t.id})
    ensures s.users == old(s.users) && s.groups == old(s.groups) && s.posts == old(s.posts)
    ensures s.follows == old(s.follows)
    ensures !r.Wrote() ==> unchanged(s)
  {
    if m.Mutates() && requester.None? {
      AnonymousMutationRefused(CommentViewSet, m, t);
    }
    match Dispatch(CommentViewSet, m, t, requester)
    case Fail(f) =>
      r := Failed(f);
    case Describe =>
      r := Described;
    case Run(a) =>
      if a == List {
        match CommentQueryset(s.posts, s.comments, postId)
        case None =>
          r := Failed(NotFound);
        case Some(rows) =>
          r := Listed(rows);
      } else if a == Create {
        WritesAreAuthenticated(CommentViewSet, m, t, requester);
        match ValidateComment(payload, false)
        case Err(errors) =>
          r := Failed(Invalid(errors));
        case Ok(text) =>
          match Find(s.posts, PostKey, postId)
          case None =>
            r := Failed(NotFound);
          case Some(post) =>
            var c := s.InsertComment(requester.value, post.id, text.value);
            r := Created(c);
      } else {
        match TargetComment(s.posts, s.comments, postId, t.id)
        case None =>
          r := Failed(NotFound);
        case Some(c) =>
          InstanceAccessIsAuthorship(CommentViewSet, m, requester, c.author);
          if !ObjectAllowed(CommentViewSet, m, requester, c.author) {
            r := Failed(Forbidden);
          } else if a == Retrieve {
            r := Retrieved(c);
          } else if a == Destroy {
            s.DeleteComment(c.id);
            r := Destroyed;
          } else {
            match ValidateComment(payload, a == PartialUpdate)
            case Err(errors) =>
              r := Failed(Invalid(errors));
            case Ok(text) =>
              var c' := c.(text := text.GetOr(c.text));
              s.UpdateComment(c.id, c'.text);
              r := Updated(c');
          }
      }
  }

  /** The follow viewset: authenticated requesters only, create and list.
      The list is the requester's own follows narrowed by the search terms;
      creation saves the requester as `user` after the serializer accepts
      `following`. */
  method FollowEndpoint(s: Store, m: Method, t: Target, requester: Option<UserId>,
                        terms: seq<string>, payload: FollowPayload)
    returns (r: Response<Follow>)
    requires s.Valid() && Authenticated(s.users, requester)
    modifies s
    ensures s.Valid()
    ensures requester.None? ==> r.Failed?
    ensures t.Item? ==> r == Failed(NotFound)
    ensures !(r.Retrieved? || r.Updated? || r.Destroyed?)
    ensures r.Listed? ==>
      requester.Some? && r.rows == FollowQueryset(old(s.users), old(s.follows), requester.value, terms) &&
      forall f :: f in r.rows ==> f in old(s.follows) && f.user == requester.value
    ensures r.Created? ==>
      requester.Some? && r.row.user == requester.value && r.row.following != requester.value &&
      payload.following.Given? && LookupUsername(s.users, payload.following.value) == Some(r.row.following) &&
      s.follows == old(s.follows) + [r.row]
    ensures Dispatch(FollowViewSet, m, t, requester).Fail? ==>
      r == Failed(Dispatch(FollowViewSet, m, t, requester).failure)
    ensures Dispatch(FollowViewSet, m, t, requester) == Describe ==> r == Described
    ensures requester.Some? && Dispatch(FollowViewSet, m, t, requester) == Run(List) ==>
      r == Listed(FollowQueryset(old(s.users), old(s.follows), requester.value, terms))
    ensures requester.Some? && Dispatch(FollowViewSet, m, t, requester) == Run(Create) ==>
      match ValidateFollow(old(s.users), old(s.follows), requester.value, payload)
      case Err(errors) => r == Failed(Invalid(errors))
      case Ok(target) => r.Created? && r.row.following == target
    ensures s.users == old(s.users) && s.groups == old(s.groups) && s.posts == old(s.posts)
    ensures s.comments == old(s.comments)
    ensures !r.Wrote() ==> unchanged(s)
  {
    if requester.None? {
      FollowNeedsAuthentication(m, t);
    }
    ActionSets(m, t, requester);
    match Dispatch(FollowViewSet, m, t, requester)
    case Fail(f) =>
      r := Failed(f);
    case Describe =>
      r := Described;
    case Run(a) =>
      assert HasPermission(PermissionClasses(FollowViewSet)[0], m, requester);
      if a == List {
        r := Listed(FollowQueryset(s.users, s.follows, requester.value, terms));
      } else {
        match ValidateFollow(s.users, s.follows, requester.value, payload)
        case Err(errors) =>
          r := Failed(Invalid(errors));
        case Ok(target) =>
          assert target in Keys(s.users, UserKey);
          var f := s.InsertFollow(requester.value, target);
          assert f.Some?;
          r := Created(f.value);
      }
  }
}
