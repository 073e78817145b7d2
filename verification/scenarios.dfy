/** Short request sequences on a store, each outcome verified from the
    handlers' and the serializers' definitions. */
module Scenarios {
  import opened Tables
  import opened Permissions
  import opened Models
  import opened Serializers
  import opened Views

  /** A user creates a post: the author is the requester whatever the body
      says, and no group is set. */
  method PostScenario() {
    var s := new Store();
    var alice := s.AddUser("alice");
    assert alice.Some?;
    var a := alice.value.id;
    var body := PostPayload(Given("hi"), Absent, Absent, Given("mallory"), Absent);
    assert Dispatch(PostViewSet, POST, Collection, Some(a)) == Run(Create) by {
      assert Create in Actions(PostViewSet) && !Create.OnInstance();
    }
    var created := PostEndpoint(s, POST, Collection, Some(a), body);
    assert ValidatePost(s.groups, body, false).Ok?;
    assert created.Created? && created.row.author == a && created.row.group == None;
  }

  /** On a stored post, its author reads it back. */
  method OwnPostScenario(s: Store, p: Post, body: PostPayload)
    requires s.Valid() && s.posts == [p] && p.author in Keys(s.users, UserKey)
    modifies s
  {
    assert RouteExists(PostViewSet, Item(p.id)) by {
      assert Retrieve in Actions(PostViewSet) && Retrieve.OnInstance();
    }
    assert Find(s.posts, PostKey, p.id) == Some(p);
    var own := PostEndpoint(s, GET, Item(p.id), Some(p.author), body);
    assert own == Retrieved(p);
  }

  /** Reading a stored post anonymously is refused. */
  method AnonymousReadScenario(s: Store, p: Post, body: PostPayload)
    requires s.Valid() && s.posts == [p]
    modifies s
  {
    assert RouteExists(PostViewSet, Item(p.id)) by {
      assert Retrieve in Actions(PostViewSet) && Retrieve.OnInstance();
    }
    assert Find(s.posts, PostKey, p.id) == Some(p);
    var read := PostEndpoint(s, GET, Item(p.id), None, body);
    assert read == Failed(Forbidden);
  }

  /** The author sending a null text is refused on `text`. */
  method NullTextScenario(s: Store, p: Post, body: PostPayload)
    requires s.Valid() && s.posts == [p] && p.author in Keys(s.users, UserKey)
    requires body.text == JsonNull && body.group == Absent
    modifies s
  {
    assert ValidatePost(s.groups, body, true) == Err(map["text" := Null]);
    assert RouteExists(PostViewSet, Item(p.id)) by {
      assert Retrieve in Actions(PostViewSet) && Retrieve.OnInstance();
    }
    assert Find(s.posts, PostKey, p.id) == Some(p);
    var cleared := PostEndpoint(s, PATCH, Item(p.id), Some(p.author), body);
    assert cleared == Failed(Invalid(map["text" := Null]));
  }

  /** Following oneself is refused on `following`. */
  method SelfFollowScenario() {
    var s := new Store();
    var alice := s.AddUser("alice");
    assert alice.Some?;
    var a := alice.value.id;
    assert LookupUsername(s.users, "alice") == Some(a);
    assert Dispatch(FollowViewSet, POST, Collection, Some(a)) == Run(Create) by {
      assert Create in Actions(FollowViewSet) && !Create.OnInstance();
    }
    var r := FollowEndpoint(s, POST, Collection, Some(a), [], FollowPayload(Absent, Given("alice")));
    assert r == Failed(Invalid(map["following" := SelfFollow]));
  }

  /** Following the same user twice: the second attempt is refused by the
      uniqueness check. */
  method FollowTwiceScenario(s: Store, a: UserId, b: UserId)
    requires s.Valid() && a != b && s.follows == []
    requires s.users == [User(a, "alice"), User(b, "bob")]
    modifies s
  {
    assert LookupUsername(s.users, "alice") == Some(a);
    assert Dispatch(FollowViewSet, POST, Collection, Some(b)) == Run(Create) by {
      assert Create in Actions(FollowViewSet) && !Create.OnInstance();
    }
    var first := FollowEndpoint(s, POST, Collection, Some(b), [], FollowPayload(Absent, Given("alice")));
    assert first.Created? && first.row.following == a;
    assert AlreadyFollows(s.follows, b, a) by { assert first.row in s.follows; }
    var second := FollowEndpoint(s, POST, Collection, Some(b), [], FollowPayload(Absent, Given("alice")));
    assert second == Failed(Invalid(map[NON_FIELD_ERRORS := AlreadyFollowing]));
  }

  /** Deleting a group keeps its post with the group cleared; deleting a
      post takes its comments with it. */
  method DeleteScenario() {
    var s := new Store();
    var alice := s.AddUser("alice");
    assert alice.Some?;
    var g := s.AddGroup("Cats", "cats", "");
    assert g.Some?;
    var p := s.InsertPost("hi", alice.value.id, None, Some(g.value.id));
    var c := s.InsertComment(alice.value.id, p.id, "nice");
    s.DeleteGroup(g.value.id);
    UngroupEffect([p], g.value.id);
    assert s.posts == [p.(group := None)];
    s.DeletePost(p.id);
    assert s.posts == [] && s.comments == [];
  }
}
