/** The serializers: which fields a client may write, how each is validated,
    and how rows are rendered, users appearing by username. */
module Serializers {
  import opened Tables
  import opened Models

  /** A validation failure on one field, in the framework's wording or the
      project's own. */
  datatype FieldError =
    | Required
    | Blank
    | Null
    | NoSuchUsername(username: string)
    | NoSuchGroup(pk: nat)
    | SelfFollow
    | AlreadyFollowing

  const SELF_FOLLOW_MESSAGE := "Вы не можете подписаться на себя."
  const ALREADY_FOLLOWING_MESSAGE := "Вы уже подписаны на этого пользователя."

  /** The key under which object-level validators report. */
  const NON_FIELD_ERRORS := "non_field_errors"

  /** A 400 response body: field name to that field's error. */
  type Errors = map<string, FieldError>

  datatype Result<T> = Ok(value: T) | Err(errors: Errors)

  function Digits(n: nat): string
    decreases n
  {
    if n < 10 then [('0' as int + n) as char] else Digits(n / 10) + Digits(n % 10)
  }

  function Message(e: FieldError): string {
    match e
    case Required => "This field is required."
    case Blank => "This field may not be blank."
    case Null => "This field may not be null."
    case NoSuchUsername(name) => "Object with username=" + name + " does not exist."
    case NoSuchGroup(pk) => "Invalid pk \"" + Digits(pk) + "\" - object does not exist."
    case SelfFollow => SELF_FOLLOW_MESSAGE
    case AlreadyFollowing => ALREADY_FOLLOWING_MESSAGE
  }

  /** A client can tell every error from the message it reads: different
      errors have different messages (group keys aside, whose digits are not
      analysed here). */
  lemma MessagesIdentifyErrors(e1: FieldError, e2: FieldError)
    requires !(e1.NoSuchGroup? && e2.NoSuchGroup?)
    ensures e1 != e2 ==> Message(e1) != Message(e2)
  {
    var m1, m2 := Message(e1), Message(e2);
    if e1.NoSuchUsername? && e2.NoSuchUsername? {
      assert m1[21..|m1| - 16] == e1.username;
      assert m2[21..|m2| - 16] == e2.username;
    } else if e1 != e2 {
      // The first, fourth and twenty-third characters already tell the kinds apart.
      assert m1[0] != m2[0] || m1[3] != m2[3] || m1[22] != m2[22];
    }
  }

  /** The self-follow refusal and the duplicate refusal read differently. */
  lemma FollowMessagesDiffer()
    ensures Message(SelfFollow) != Message(AlreadyFollowing)
  {
    assert Message(SelfFollow)[3] != Message(AlreadyFollowing)[3];
  }

  /** The slug lookup `User.objects.get(username=name)`. */
  function LookupUsername(users: seq<User>, name: string): (r: Option<UserId>)
    ensures r.Some? ==> exists u :: u in users && u.username == name && u.id == r.value
    ensures r.None? ==> forall u :: u in users ==> u.username != name
  {
    if users == [] then None
    else if users[0].username == name then Some(users[0].id)
    else LookupUsername(users[1..], name)
  }

  /** The slug a user is rendered as. */
  function UsernameOf(users: seq<User>, id: UserId): (r: Option<string>)
    ensures r.Some? ==> exists u :: u in users && u.id == id && u.username == r.value
    ensures r.None? <==> id !in Keys(users, UserKey)
  {
    if users == [] then None
    else if users[0].id == id then Some(users[0].username)
    else UsernameOf(users[1..], id)
  }

  /** With unique usernames, rendering a user as a username and looking the
      username up again gives back the same user. */
  lemma {:induction false} UsernameRoundTrip(users: seq<User>, u: User)
    requires UsersOk(users) && u in users
    ensures UsernameOf(users, u.id) == Some(u.username)
    ensures LookupUsername(users, u.username) == Some(u.id)
  {
    if users[0] != u {
      assert u in users[1..];
      assert DistinctUsers(users[0], u) by {
        var k :| 0 <= k < |users| && users[k] == u;
        assert k != 0;
      }
      assert UsersOk(users[1..]) by {
        forall i, j | 0 <= i < j < |users[1..]|
          ensures DistinctUsers(users[1..][i], users[1..][j])
        {
          assert users[1..][i] == users[i + 1] && users[1..][j] == users[j + 1];
        }
      }
      UsernameRoundTrip(users[1..], u);
    }
  }

  // ---- Request bodies ----

  /** A field of a request body: omitted, sent as JSON null, or given. */
  datatype Field<T> = Absent | JsonNull | Given(value: T) {
    /** The value given, or `current` when none is. */
    function Or(current: T): T {
      if Given? then value else current
    }

    /** A nullable column holding `current` after this field is written to
        it: an omitted field keeps it, null clears it. */
    function Apply(current: Option<T>): Option<T> {
      match this
      case Absent => current
      case JsonNull => None
      case Given(v) => Some(v)
    }
  }

  // ---- FollowSerializer ----

  /** What a client sends to create a follow; `user` is read-only. */
  datatype FollowPayload = FollowPayload(user: Field<string>, following: Field<string>)

  /** The username the body names in `following`. A relational field reads an
      empty string as null, so only a non-empty string names anyone. */
  function RequestedUsername(payload: FollowPayload): Option<string> {
    if payload.following.Given? && payload.following.value != "" then Some(payload.following.value) else None
  }

  predicate AlreadyFollows(follows: seq<Follow>, user: UserId, following: UserId) {
    exists f :: f in follows && f.user == user && f.following == following
  }

  /** Field validation of `following` (required, not null, an existing
      username, then `validate_following`), followed by the
      UniqueTogetherValidator on (user, following) with `user` defaulted to
      the requester. Returns the id of the user to follow. */
  function ValidateFollow(users: seq<User>, follows: seq<Follow>, requester: UserId,
                          payload: FollowPayload): (r: Result<UserId>)
    ensures r.Ok? ==> r.value != requester && !AlreadyFollows(follows, requester, r.value)
    ensures r.Ok? ==> RequestedUsername(payload).Some? &&
                      LookupUsername(users, RequestedUsername(payload).value) == Some(r.value)
    ensures payload.following.Absent? ==> r == Err(map["following" := Required])
    ensures payload.following.JsonNull? || payload.following == Given("") ==> r == Err(map["following" := Null])
    ensures RequestedUsername(payload).Some? && LookupUsername(users, RequestedUsername(payload).value).None?
            ==> r == Err(map["following" := NoSuchUsername(RequestedUsername(payload).value)])
    ensures RequestedUsername(payload).Some? &&
            LookupUsername(users, RequestedUsername(payload).value) == Some(requester)
            ==> r == Err(map["following" := SelfFollow])
    ensures RequestedUsername(payload).Some? &&
            LookupUsername(users, RequestedUsername(payload).value).Some? &&
            LookupUsername(users, RequestedUsername(payload).value).value != requester &&
            AlreadyFollows(follows, requester, LookupUsername(users, RequestedUsername(payload).value).value)
            ==> r == Err(map[NON_FIELD_ERRORS := AlreadyFollowing])
    ensures RequestedUsername(payload).Some? &&
            LookupUsername(users, RequestedUsername(payload).value).Some? &&
            LookupUsername(users, RequestedUsername(payload).value).value != requester &&
            !AlreadyFollows(follows, requester, LookupUsername(users, RequestedUsername(payload).value).value)
            ==> r == Ok(LookupUsername(users, RequestedUsername(payload).value).value)
    ensures r.Err? ==> |r.errors| == 1
  {
    match payload.following
    case Absent => Err(map["following" := Required])
    case JsonNull => Err(map["following" := Null])
    case Given(name) =>
      if name == "" then Err(map["following" := Null])
      else match LookupUsername(users, name)
        case None => Err(map["following" := NoSuchUsername(name)])
        case Some(id) =>
          if id == requester then Err(map["following" := SelfFollow])
          else if AlreadyFollows(follows, requester, id) then Err(map[NON_FIELD_ERRORS := AlreadyFollowing])
          else Ok(id)
  }

  /** A follow the serializer accepts satisfies the table's constraints, so
      storing it keeps them. */
  lemma AcceptedFollowStorable(users: seq<User>, follows: seq<Follow>, requester: UserId,
                               payload: FollowPayload, id: nat)
    requires FollowsOk(follows, users) && requester in Keys(users, UserKey)
    requires forall f :: f in follows ==> f.id != id
    requires ValidateFollow(users, follows, requester, payload).Ok?
    ensures FollowsOk(follows + [Follow(id, requester, ValidateFollow(users, follows, requester, payload).value)], users)
  {
    var target := ValidateFollow(users, follows, requester, payload).value;
    var row := Follow(id, requester, target);
    assert !AlreadyFollows(follows, requester, target);
    AppendPairwise(follows, row, DistinctFollows);
  }

  /** The representation of a follow: exactly two fields, both usernames. */
  datatype FollowRepr = FollowRepr(user: string, following: string)

  function RenderFollow(users: seq<User>, f: Follow): (r: FollowRepr)
    requires UsersOk(users)
    requires f.user in Keys(users, UserKey) && f.following in Keys(users, UserKey)
    ensures LookupUsername(users, r.user) == Some(f.user)
    ensures LookupUsername(users, r.following) == Some(f.following)
  {
    var u :| u in users && u.id == f.user;
    var v :| v in users && v.id == f.following;
    UsernameRoundTrip(users, u);
    UsernameRoundTrip(users, v);
    FollowRepr(UsernameOf(users, f.user).value, UsernameOf(users, f.following).value)
  }

  // ---- PostSerializer and CommentSerializer ----

  /** What a client sends for a post. `author` and `pubDate` are read-only
      and never reach the row. */
  datatype PostPayload = PostPayload(text: Field<string>, group: Field<GroupId>, image: Field<string>,
                                     author: Field<string>, pubDate: Field<nat>)

  /** The writable fields that passed validation; `text` is None when a
      partial update omits it. */
  datatype PostData = PostData(text: Option<string>, group: Field<GroupId>, image: Field<string>)

  /** What a client sends for a comment. `author` and `post` are read-only. */
  datatype CommentPayload = CommentPayload(text: Field<string>, author: Field<string>, post: Field<PostId>)

  /** A required, non-nullable text field: omitting it is an error unless the
      update is partial; null and the empty string are refused. */
  function TextError(text: Field<string>, partial: bool): Option<FieldError> {
    match text
    case Absent => if partial then None else Some(Required)
    case JsonNull => Some(Null)
    case Given(t) => if t == "" then Some(Blank) else None
  }

  /** The text a body supplies, None when it supplies none. */
  function GivenText(text: Field<string>): Option<string> {
    if text.Given? then Some(text.value) else None
  }

  /** The nullable `group` relation: a given key must name a stored group. */
  function GroupError(groups: seq<Group>, group: Field<GroupId>): Option<FieldError> {
    if group.Given? && group.value !in Keys(groups, GroupKey) then Some(NoSuchGroup(group.value)) else None
  }

  /** Adds `e` under `field` when there is an error. */
  function Report(errors: Errors, field: string, e: Option<FieldError>): Errors {
    if e.Some? then errors[field := e.value] else errors
  }

  function ValidatePost(groups: seq<Group>, payload: PostPayload, partial: bool): (r: Result<PostData>)
    ensures r.Ok? ==> r.value == PostData(GivenText(payload.text), payload.group, payload.image)
    ensures r.Ok? ==> (!partial ==> r.value.text.Some?) &&
                      (r.value.text.Some? ==> r.value.text.value != "") &&
                      (partial ==> !payload.text.JsonNull?)
    ensures r.Ok? && r.value.group.Given? ==> r.value.group.value in Keys(groups, GroupKey)
    ensures r.Err? ==> r.errors.Keys <= {"text", "group"} && ("text" in r.errors || "group" in r.errors)
    ensures r.Err? ==> ("text" in r.errors <==> TextError(payload.text, partial).Some?)
    ensures r.Err? ==> ("group" in r.errors <==> GroupError(groups, payload.group).Some?)
    ensures ((payload.text.Given? && payload.text.value != "") || (partial && payload.text.Absent?)) &&
            (payload.group.Given? ==> payload.group.value in Keys(groups, GroupKey))
            ==> r == Ok(PostData(GivenText(payload.text), payload.group, payload.image))
    ensures payload.text.JsonNull? ==> r.Err? && "text" in r.errors && r.errors["text"] == Null
    ensures payload.text == Given("") ==> r.Err? && "text" in r.errors && r.errors["text"] == Blank
    ensures !partial && payload.text.Absent? ==> r.Err? && "text" in r.errors && r.errors["text"] == Required
    ensures payload.group.Given? && payload.group.value !in Keys(groups, GroupKey)
            ==> r.Err? && "group" in r.errors && r.errors["group"] == NoSuchGroup(payload.group.value)
  {
    var textError, groupError := TextError(payload.text, partial), GroupError(groups, payload.group);
    if textError.None? && groupError.None? then Ok(PostData(GivenText(payload.text), payload.group, payload.image))
    else Err(Report(Report(map[], "text", textError), "group", groupError))
  }

  /** Returns the validated text, None when a partial update omits it. */
  function ValidateComment(payload: CommentPayload, partial: bool): (r: Result<Option<string>>)
    ensures r.Ok? ==> r.value == GivenText(payload.text)
    ensures r.Ok? ==> (!partial ==> r.value.Some?) && (r.value.Some? ==> r.value.value != "")
    ensures (payload.text.Given? && payload.text.value != "") || (partial && payload.text.Absent?)
            ==> r == Ok(GivenText(payload.text))
    ensures payload.text.JsonNull? ==> r == Err(map["text" := Null])
    ensures payload.text == Given("") ==> r == Err(map["text" := Blank])
    ensures payload.text.Absent? && !partial ==> r == Err(map["text" := Required])
  {
    match TextError(payload.text, partial)
    case Some(e) => Err(map["text" := e])
    case None => Ok(GivenText(payload.text))
  }

  /** Read-only fields are ignored: what a client puts in `author`, `pubDate`
      (post) or `author`, `post` (comment) cannot change the validated data. */
  lemma ReadOnlyFieldsIgnored(groups: seq<Group>, p: PostPayload, q: PostPayload,
                              c: CommentPayload, d: CommentPayload, partial: bool)
    requires p.text == q.text && p.group == q.group && p.image == q.image
    requires c.text == d.text
    ensures ValidatePost(groups, p, partial) == ValidatePost(groups, q, partial)
    ensures ValidateComment(c, partial) == ValidateComment(d, partial)
  {
  }

  /** The representation of a post, its author by username. */
  datatype PostRepr = PostRepr(id: PostId, text: string, pubDate: nat, author: string,
                               image: Option<string>, group: Option<GroupId>)

  function RenderPost(users: seq<User>, p: Post): (r: PostRepr)
    requires UsersOk(users) && p.author in Keys(users, UserKey)
    ensures LookupUsername(users, r.author) == Some(p.author)
    ensures r.id == p.id && r.text == p.text && r.group == p.group
    ensures r.pubDate == p.pubDate && r.image == p.image
  {
    var u :| u in users && u.id == p.author;
    UsernameRoundTrip(users, u);
    PostRepr(p.id, p.text, p.pubDate, UsernameOf(users, p.author).value, p.image, p.group)
  }

  /** The representation of a comment, its author by username. */
  datatype CommentRepr = CommentRepr(id: nat, author: string, post: PostId, text: string, created: nat)

  function RenderComment(users: seq<User>, c: Comment): (r: CommentRepr)
    requires UsersOk(users) && c.author in Keys(users, UserKey)
    ensures LookupUsername(users, r.author) == Some(c.author)
    ensures r.id == c.id && r.post == c.post && r.text == c.text && r.created == c.created
  {
    var u :| u in users && u.id == c.author;
    UsernameRoundTrip(users, u);
    CommentRepr(c.id, UsernameOf(users, c.author).value, c.post, c.text, c.created)
  }
}
