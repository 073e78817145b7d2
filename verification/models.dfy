/** The four tables of the blog (Group, Post, Comment, Follow), the user table
    they refer to, their integrity rules, and the effect of every delete with
    its CASCADE and SET_NULL fan-out. */
module Models {
  import opened Tables

  const TITLE_MAX_LENGTH := 200
  const TEXT_MAX_LENGTH := 150

  /** A row of the framework's user table; usernames are unique there. */
  datatype User = User(id: UserId, username: string)

  datatype Group = Group(id: GroupId, title: string, slug: string, description: string)

  /** `pubDate` is a tick of the store's clock, taken once at creation.
      `image` is an opaque reference to an uploaded file. */
  datatype Post = Post(id: PostId, text: string, pubDate: nat, author: UserId,
                       image: Option<string>, group: Option<GroupId>)

  datatype Comment = Comment(id: nat, author: UserId, post: PostId, text: string, created: nat)

  /** `user` follows `following`. */
  datatype Follow = Follow(id: nat, user: UserId, following: UserId)

  /** `Post.__str__`: the text cut to its first TEXT_MAX_LENGTH characters. */
  function PostStr(p: Post): (r: string)
    ensures r <= p.text
    ensures |r| <= TEXT_MAX_LENGTH
    ensures |p.text| <= TEXT_MAX_LENGTH ==> r == p.text
    ensures |p.text| > TEXT_MAX_LENGTH ==> |r| == TEXT_MAX_LENGTH
  {
    if |p.text| <= TEXT_MAX_LENGTH then p.text else p.text[..TEXT_MAX_LENGTH]
  }

  // Columns, as function values for Drop and Keys.
  function UserKey(u: User): nat { u.id }
  function GroupKey(g: Group): nat { g.id }
  function PostKey(p: Post): nat { p.id }
  function PostAuthor(p: Post): nat { p.author }
  function CommentKey(c: Comment): nat { c.id }
  function CommentAuthor(c: Comment): nat { c.author }
  function CommentPost(c: Comment): nat { c.post }
  function FollowKey(f: Follow): nat { f.id }
  function FollowUser(f: Follow): nat { f.user }
  function FollowFollowing(f: Follow): nat { f.following }

  // What must hold between any two rows of a table.
  predicate DistinctUsers(a: User, b: User) { a.id != b.id && a.username != b.username }
  predicate DistinctGroups(a: Group, b: Group) { a.id != b.id && a.slug != b.slug }
  predicate PublishedInOrder(a: Post, b: Post) { a.id != b.id && a.pubDate < b.pubDate }
  predicate DistinctComments(a: Comment, b: Comment) { a.id != b.id }
  /** Distinct keys, and the UniqueConstraint on (user, following). */
  predicate DistinctFollows(a: Follow, b: Follow) {
    a.id != b.id && (a.user != b.user || a.following != b.following)
  }

  predicate UsersOk(users: seq<User>) {
    Pairwise(users, DistinctUsers)
  }

  /** Unique slugs; titles within the column's max_length. */
  predicate GroupsOk(groups: seq<Group>) {
    Pairwise(groups, DistinctGroups) &&
    forall g :: g in groups ==> |g.title| <= TITLE_MAX_LENGTH
  }

  /** Stored in pub_date order; every author exists; a group, when set, exists. */
  predicate PostsOk(posts: seq<Post>, users: seq<User>, groups: seq<Group>) {
    Pairwise(posts, PublishedInOrder) &&
    forall p :: p in posts ==>
      p.author in Keys(users, UserKey) &&
      (p.group.Some? ==> p.group.value in Keys(groups, GroupKey))
  }

  predicate CommentsOk(comments: seq<Comment>, users: seq<User>, posts: seq<Post>) {
    Pairwise(comments, DistinctComments) &&
    forall c :: c in comments ==> c.author in Keys(users, UserKey) && c.post in Keys(posts, PostKey)
  }

  /** The UniqueConstraint, the CheckConstraint against self-follows, and both
      foreign keys. */
  predicate FollowsOk(follows: seq<Follow>, users: seq<User>) {
    Pairwise(follows, DistinctFollows) &&
    forall f :: f in follows ==>
      f.user != f.following && f.user in Keys(users, UserKey) && f.following in Keys(users, UserKey)
  }

  predicate Integrity(users: seq<User>, groups: seq<Group>, posts: seq<Post>,
                      comments: seq<Comment>, follows: seq<Follow>) {
    UsersOk(users) && GroupsOk(groups) && PostsOk(posts, users, groups) &&
    CommentsOk(comments, users, posts) && FollowsOk(follows, users)
  }

  /** Under the UniqueConstraint, no two Follow rows share a (user, following)
      pair, and no row follows itself. */
  lemma FollowPairsUnique(follows: seq<Follow>, users: seq<User>, i: nat, j: nat)
    requires FollowsOk(follows, users)
    requires i < |follows| && j < |follows| && i != j
    ensures follows[i].user != follows[i].following
    ensures (follows[i].user, follows[i].following) != (follows[j].user, follows[j].following)
  {
    assert follows[i] in follows;
    if i < j { assert DistinctFollows(follows[i], follows[j]); }
    else { assert DistinctFollows(follows[j], follows[i]); }
  }

  /** The ids of the posts written by `u`: the posts a cascade from `u` removes. */
  function PostIdsBy(posts: seq<Post>, u: UserId): set<nat> {
    set p | p in posts && p.author == u :: p.id
  }

  /** SET_NULL from Group to Post: every post of group `gid` loses its group. */
  function Ungroup(posts: seq<Post>, gid: GroupId): seq<Post> {
    seq(|posts|, i requires 0 <= i < |posts| =>
      if posts[i].group == Some(gid) then posts[i].(group := None) else posts[i])
  }

  /** Ungrouping keeps every post, in order, with every column but `group`
      unchanged, and leaves no post pointing at the deleted group. */
  lemma UngroupEffect(posts: seq<Post>, gid: GroupId)
    ensures |Ungroup(posts, gid)| == |posts|
    ensures forall i :: 0 <= i < |posts| ==>
      var p, q := posts[i], Ungroup(posts, gid)[i];
      q.id == p.id && q.text == p.text && q.pubDate == p.pubDate &&
      q.author == p.author && q.image == p.image &&
      q.group == (if p.group == Some(gid) then None else p.group)
    ensures forall q :: q in Ungroup(posts, gid) ==> q.group != Some(gid)
    ensures Keys(Ungroup(posts, gid), PostKey) == Keys(posts, PostKey)
  {
    var r := Ungroup(posts, gid);
    forall k | k in Keys(posts, PostKey) ensures k in Keys(r, PostKey) {
      var p :| p in posts && p.id == k;
      var i :| 0 <= i < |posts| && posts[i] == p;
      assert r[i] in r;
    }
    forall k | k in Keys(r, PostKey) ensures k in Keys(posts, PostKey) {
      var q :| q in r && q.id == k;
      var i :| 0 <= i < |r| && r[i] == q;
      assert posts[i] in posts;
    }
  }

  /** The posts after an update of post `id`'s writable columns. */
  function Revise(posts: seq<Post>, id: PostId, text: string, image: Option<string>,
                  group: Option<GroupId>): seq<Post> {
    seq(|posts|, i requires 0 <= i < |posts| =>
      if posts[i].id == id then posts[i].(text := text, image := image, group := group)
      else posts[i])
  }

  /** The comments after an update of comment `id`'s text. */
  function ReviseComment(comments: seq<Comment>, id: nat, text: string): seq<Comment> {
    seq(|comments|, i requires 0 <= i < |comments| =>
      if comments[i].id == id then comments[i].(text := text) else comments[i])
  }

  /** Deleting a post cascades to exactly its comments and keeps integrity. */
  lemma {:induction false} DeletePostKeepsIntegrity(users: seq<User>, groups: seq<Group>,
      posts: seq<Post>, comments: seq<Comment>, follows: seq<Follow>, id: PostId)
    requires Integrity(users, groups, posts, comments, follows)
    ensures Integrity(users, groups, Drop(posts, PostKey, {id}),
                      Drop(comments, CommentPost, {id}), follows)
  {
    var posts', comments' := Drop(posts, PostKey, {id}), Drop(comments, CommentPost, {id});
    DropPairwise(posts, PostKey, {id}, PublishedInOrder);
    DropPairwise(comments, CommentPost, {id}, DistinctComments);
    forall c | c in comments' ensures c.post in Keys(posts', PostKey) {
      var p :| p in posts && p.id == c.post;
      assert p in posts';
    }
  }

  /** Deleting a comment touches nothing else and keeps integrity. */
  lemma {:induction false} DeleteCommentKeepsIntegrity(users: seq<User>, groups: seq<Group>,
      posts: seq<Post>, comments: seq<Comment>, follows: seq<Follow>, id: nat)
    requires Integrity(users, groups, posts, comments, follows)
    ensures Integrity(users, groups, posts, Drop(comments, CommentKey, {id}), follows)
  {
    DropPairwise(comments, CommentKey, {id}, DistinctComments);
  }

  /** Deleting a group keeps every post (SET_NULL) and keeps integrity. */
  lemma {:induction false} DeleteGroupKeepsIntegrity(users: seq<User>, groups: seq<Group>,
      posts: seq<Post>, comments: seq<Comment>, follows: seq<Follow>, gid: GroupId)
    requires Integrity(users, groups, posts, comments, follows)
    ensures Integrity(users, Drop(groups, GroupKey, {gid}), Ungroup(posts, gid), comments, follows)
  {
    var groups', posts' := Drop(groups, GroupKey, {gid}), Ungroup(posts, gid);
    DropPairwise(groups, GroupKey, {gid}, DistinctGroups);
    UngroupEffect(posts, gid);
    forall i, j | 0 <= i < j < |posts'| ensures PublishedInOrder(posts'[i], posts'[j]) {
      assert PublishedInOrder(posts[i], posts[j]);
    }
    forall q | q in posts'
      ensures q.author in Keys(users, UserKey)
      ensures q.group.Some? ==> q.group.value in Keys(groups', GroupKey)
    {
      var i :| 0 <= i < |posts'| && posts'[i] == q;
      assert posts[i] in posts;
      if q.group.Some? {
        var g :| g in groups && g.id == q.group.value;
        assert g in groups';
      }
    }
  }

  /** Deleting a user cascades to their posts, the comments on those posts,
      their own comments and the follows on either side, and keeps integrity. */
  lemma {:induction false} DeleteUserKeepsIntegrity(users: seq<User>, groups: seq<Group>,
      posts: seq<Post>, comments: seq<Comment>, follows: seq<Follow>, u: UserId)
    requires Integrity(users, groups, posts, comments, follows)
    ensures Integrity(Drop(users, UserKey, {u}), groups, Drop(posts, PostAuthor, {u}),
                      Drop(Drop(comments, CommentAuthor, {u}), CommentPost, PostIdsBy(posts, u)),
                      Drop(Drop(follows, FollowUser, {u}), FollowFollowing, {u}))
  {
    var users' := Drop(users, UserKey, {u});
    var posts' := Drop(posts, PostAuthor, {u});
    var comments1 := Drop(comments, CommentAuthor, {u});
    var comments' := Drop(comments1, CommentPost, PostIdsBy(posts, u));
    var follows1 := Drop(follows, FollowUser, {u});
    var follows' := Drop(follows1, FollowFollowing, {u});
    DropPairwise(users, UserKey, {u}, DistinctUsers);
    DropPairwise(posts, PostAuthor, {u}, PublishedInOrder);
    DropPairwise(comments, CommentAuthor, {u}, DistinctComments);
    DropPairwise(comments1, CommentPost, PostIdsBy(posts, u), DistinctComments);
    DropPairwise(follows, FollowUser, {u}, DistinctFollows);
    DropPairwise(follows1, FollowFollowing, {u}, DistinctFollows);
    forall k | k in Keys(users, UserKey) && k != u ensures k in Keys(users', UserKey) {
      var x :| x in users && x.id == k;
      assert x in users';
    }
    forall p | p in posts' ensures p.author in Keys(users', UserKey) {
    }
    forall c | c in comments'
      ensures c.author in Keys(users', UserKey) && c.post in Keys(posts', PostKey)
    {
      assert c in comments1;
      var p :| p in posts && p.id == c.post;
      assert p in posts';
    }
    forall f | f in follows'
      ensures f.user in Keys(users', UserKey) && f.following in Keys(users', UserKey)
    {
      assert f in follows1;
    }
  }

  /** The database, as a mutable object: five tables, the primary-key sequence
      and the clock that stamps `pub_date` and `created`. */
  class Store {
    var users: seq<User>
    var groups: seq<Group>
    var posts: seq<Post>
    var comments: seq<Comment>
    var follows: seq<Follow>
    var nextId: nat
    var clock: nat

    ghost predicate Valid()
      reads this
    {
      Integrity(users, groups, posts, comments, follows) &&
      (forall u :: u in users ==> u.id < nextId) &&
      (forall g :: g in groups ==> g.id < nextId) &&
      (forall p :: p in posts ==> p.id < nextId && p.pubDate < clock) &&
      (forall c :: c in comments ==> c.id < nextId && c.created < clock) &&
      (forall f :: f in follows ==> f.id < nextId)
    }

    constructor ()
      ensures Valid()
      ensures users == [] && groups == [] && posts == [] && comments == [] && follows == []
    {
      users, groups, posts, comments, follows := [], [], [], [], [];
      nextId, clock := 0, 0;
    }

    /** `Post.objects.all()` under `ordering = ('pub_date',)`: every post,
        earliest first. */
    function PostsByPubDate(): (r: seq<Post>)
      reads this
      requires Valid()
      ensures forall p :: p in r <==> p in posts
      ensures forall i, j :: 0 <= i < j < |r| ==> r[i].pubDate < r[j].pubDate
    {
      posts
    }

    /** Registers a user; the user table refuses a username already taken. */
    method AddUser(username: string) returns (u: Option<User>)
      requires Valid()
      modifies this
      ensures Valid()
      ensures u.None? <==> exists x :: x in old(users) && x.username == username
      ensures u.Some? ==> u.value.username == username && u.value.id !in Keys(old(users), UserKey)
      ensures users == if u.Some? then old(users) + [u.value] else old(users)
      ensures groups == old(groups) && posts == old(posts) && comments == old(comments)
      ensures follows == old(follows) && clock == old(clock)
    {
      if exists x :: x in users && x.username == username {
        u := None;
      } else {
        var user := User(nextId, username);
        AppendPairwise(users, user, DistinctUsers);
        users := users + [user];
        nextId := nextId + 1;
        u := Some(user);
      }
    }

    /** Creates a group; the unique `slug` and the bounded `title` are checked. */
    method AddGroup(title: string, slug: string, description: string) returns (g: Option<Group>)
      requires Valid()
      modifies this
      ensures Valid()
      ensures g.None? <==> |title| > TITLE_MAX_LENGTH || exists x :: x in old(groups) && x.slug == slug
      ensures g.Some? ==> g.value.title == title && g.value.slug == slug &&
                          g.value.description == description && g.value.id !in Keys(old(groups), GroupKey)
      ensures groups == if g.Some? then old(groups) + [g.value] else old(groups)
      ensures users == old(users) && posts == old(posts) && comments == old(comments)
      ensures follows == old(follows) && clock == old(clock)
    {
      if |title| > TITLE_MAX_LENGTH || exists x :: x in groups && x.slug == slug {
        g := None;
      } else {
        var group := Group(nextId, title, slug, description);
        AppendPairwise(groups, group, DistinctGroups);
        groups := groups + [group];
        nextId := nextId + 1;
        g := Some(group);
      }
    }

    /** Saves a new post stamped with the current clock: it is the latest post. */
    method InsertPost(text: string, author: UserId, image: Option<string>, group: Option<GroupId>)
      returns (p: Post)
      requires Valid()
      requires author in Keys(users, UserKey)
      requires group.Some? ==> group.value in Keys(groups, GroupKey)
      modifies this
      ensures Valid()
      ensures p.text == text && p.author == author && p.image == image && p.group == group
      ensures p.id !in Keys(old(posts), PostKey)
      ensures forall q :: q in old(posts) ==> q.pubDate < p.pubDate
      ensures posts == old(posts) + [p]
      ensures users == old(users) && groups == old(groups) && comments == old(comments)
      ensures follows == old(follows)
    {
      p := Post(nextId, text, clock, author, image, group);
      AppendPairwise(posts, p, PublishedInOrder);
      posts := posts + [p];
      nextId, clock := nextId + 1, clock + 1;
    }

    /** Saves a new comment on an existing post. */
    method InsertComment(author: UserId, post: PostId, text: string) returns (c: Comment)
      requires Valid()
      requires author in Keys(users, UserKey) && post in Keys(posts, PostKey)
      modifies this
      ensures Valid()
      ensures c.author == author && c.post == post && c.text == text
      ensures c.id !in Keys(old(comments), CommentKey)
      ensures comments == old(comments) + [c]
      ensures users == old(users) && groups == old(groups) && posts == old(posts)
      ensures follows == old(follows)
    {
      c := Comment(nextId, author, post, text, clock);
      AppendPairwise(comments, c, DistinctComments);
      comments := comments + [c];
      nextId, clock := nextId + 1, clock + 1;
    }

    /** Saves a follow; the CheckConstraint refuses a self-follow and the
        UniqueConstraint refuses a pair already stored. */
    method InsertFollow(user: UserId, following: UserId) returns (f: Option<Follow>)
      requires Valid()
      requires user in Keys(users, UserKey) && following in Keys(users, UserKey)
      modifies this
      ensures Valid()
      ensures f.None? <==> user == following ||
                           exists x :: x in old(follows) && x.user == user && x.following == following
      ensures f.Some? ==> f.value.user == user && f.value.following == following
      ensures follows == if f.Some? then old(follows) + [f.value] else old(follows)
      ensures users == old(users) && groups == old(groups) && posts == old(posts)
      ensures comments == old(comments) && clock == old(clock)
    {
      if user == following || exists x :: x in follows && x.user == user && x.following == following {
        f := None;
      } else {
        var row := Follow(nextId, user, following);
        AppendPairwise(follows, row, DistinctFollows);
        follows := follows + [row];
        nextId := nextId + 1;
        f := Some(row);
      }
    }

    /** Saves new values of a post's writable columns. */
    method UpdatePost(id: PostId, text: string, image: Option<string>, group: Option<GroupId>)
      requires Valid()
      requires group.Some? ==> group.value in Keys(groups, GroupKey)
      modifies this
      ensures Valid()
      ensures posts == Revise(old(posts), id, text, image, group)
      ensures users == old(users) && groups == old(groups) && comments == old(comments)
      ensures follows == old(follows)
    {
      var posts' := Revise(posts, id, text, image, group);
      forall i, j | 0 <= i < j < |posts'| ensures PublishedInOrder(posts'[i], posts'[j]) {
        assert PublishedInOrder(posts[i], posts[j]);
      }
      forall q | q in posts'
        ensures q.author in Keys(users, UserKey)
        ensures q.group.Some? ==> q.group.value in Keys(groups, GroupKey)
        ensures q.id < nextId && q.pubDate < clock
      {
        var i :| 0 <= i < |posts'| && posts'[i] == q;
        assert posts[i] in posts;
      }
      forall k | k in Keys(posts, PostKey) ensures k in Keys(posts', PostKey) {
        var p :| p in posts && p.id == k;
        var i :| 0 <= i < |posts| && posts[i] == p;
        assert posts'[i] in posts';
      }
      posts := posts';
    }

    /** Saves a new text for a comment. */
    method UpdateComment(id: nat, text: string)
      requires Valid()
      modifies this
      ensures Valid()
      ensures comments == ReviseComment(old(comments), id, text)
      ensures users == old(users) && groups == old(groups) && posts == old(posts)
      ensures follows == old(follows)
    {
      var comments' := ReviseComment(comments, id, text);
      forall i, j | 0 <= i < j < |comments'| ensures DistinctComments(comments'[i], comments'[j]) {
        assert DistinctComments(comments[i], comments[j]);
      }
      forall c | c in comments'
        ensures c.author in Keys(users, UserKey) && c.post in Keys(posts, PostKey)
        ensures c.id < nextId && c.created < clock
      {
        var i :| 0 <= i < |comments'| && comments'[i] == c;
        assert comments[i] in comments;
      }
      comments := comments';
    }

    /** Deletes a post; CASCADE removes exactly the comments on it. */
    method DeletePost(id: PostId)
      requires Valid()
      modifies this
      ensures Valid()
      ensures posts == Drop(old(posts), PostKey, {id})
      ensures comments == Drop(old(comments), CommentPost, {id})
      ensures users == old(users) && groups == old(groups) && follows == old(follows)
    {
      DeletePostKeepsIntegrity(users, groups, posts, comments, follows, id);
      posts := Drop(posts, PostKey, {id});
      comments := Drop(comments, CommentPost, {id});
    }

    /** Deletes a comment and nothing else. */
    method DeleteComment(id: nat)
      requires Valid()
      modifies this
      ensures Valid()
      ensures comments == Drop(old(comments), CommentKey, {id})
      ensures users == old(users) && groups == old(groups) && posts == old(posts)
      ensures follows == old(follows)
    {
      DeleteCommentKeepsIntegrity(users, groups, posts, comments, follows, id);
      comments := Drop(comments, CommentKey, {id});
    }

    /** Deletes a group; SET_NULL keeps its posts with `group` cleared. */
    method DeleteGroup(id: GroupId)
      requires Valid()
      modifies this
      ensures Valid()
      ensures groups == Drop(old(groups), GroupKey, {id})
      ensures posts == Ungroup(old(posts), id)
      ensures users == old(users) && comments == old(comments) && follows == old(follows)
    {
      DeleteGroupKeepsIntegrity(users, groups, posts, comments, follows, id);
      UngroupEffect(posts, id);
      groups := Drop(groups, GroupKey, {id});
      posts := Ungroup(posts, id);
    }

    /** Deletes a user; CASCADE removes their posts with the comments on them,
        their comments and every follow they are on either side of. */
    method DeleteUser(id: UserId)
      requires Valid()
      modifies this
      ensures Valid()
      ensures users == Drop(old(users), UserKey, {id})
      ensures posts == Drop(old(posts), PostAuthor, {id})
      ensures comments == Drop(Drop(old(comments), CommentAuthor, {id}), CommentPost, PostIdsBy(old(posts), id))
      ensures follows == Drop(Drop(old(follows), FollowUser, {id}), FollowFollowing, {id})
      ensures groups == old(groups)
    {
      DeleteUserKeepsIntegrity(users, groups, posts, comments, follows, id);
      comments := Drop(Drop(comments, CommentAuthor, {id}), CommentPost, PostIdsBy(posts, id));
      follows := Drop(Drop(follows, FollowUser, {id}), FollowFollowing, {id});
      users := Drop(users, UserKey, {id});
      posts := Drop(posts, PostAuthor, {id});
    }
  }
}
