/** The permission policies of the API: the two classes the project defines
    (AuthorOrReadOnly, ReadOnly) and the two framework classes its views name
    (IsAuthenticatedOrReadOnly, IsAuthenticated). A requester is `None` when
    anonymous and `Some(id)` when authenticated as user `id`. */
module Permissions {
  import opened Tables

  datatype Method = GET | HEAD | OPTIONS | POST | PUT | PATCH | DELETE {
    /** The methods that change server state. */
    predicate Mutates() {
      match this
      case POST | PUT | PATCH | DELETE => true
      case GET | HEAD | OPTIONS => false
    }
  }

  /** The framework's SAFE_METHODS. */
  const SAFE_METHODS: set<Method> := {GET, HEAD, OPTIONS}

  datatype PermissionClass =
    | AuthorOrReadOnly
    | ReadOnly
    | IsAuthenticatedOrReadOnly
    | IsAuthenticated

  /** The request-level check (`has_permission`) of each class. */
  predicate HasPermission(pc: PermissionClass, m: Method, requester: Option<UserId>) {
    match pc
    case AuthorOrReadOnly => m in SAFE_METHODS || requester.Some?
    case ReadOnly => m in SAFE_METHODS
    case IsAuthenticatedOrReadOnly => m in SAFE_METHODS || requester.Some?
    case IsAuthenticated => requester.Some?
  }

  /** The object-level check (`has_object_permission`) against an object whose
      author is `author`. The framework classes keep the base class's answer,
      which admits everything; AuthorOrReadOnly compares authors whatever the
      method. */
  predicate HasObjectPermission(pc: PermissionClass, m: Method, requester: Option<UserId>, author: UserId) {
    match pc
    case AuthorOrReadOnly => requester == Some(author)
    case ReadOnly | IsAuthenticatedOrReadOnly | IsAuthenticated => true
  }

  /** SAFE_METHODS are exactly the methods that do not mutate. */
  lemma SafeMeansNonMutating(m: Method)
    ensures m in SAFE_METHODS <==> !m.Mutates()
  {
  }

  /** AuthorOrReadOnly's request check passes exactly for a read or for an
      authenticated requester; an anonymous mutation is always refused. */
  lemma AuthorOrReadOnlyRequestCheck(m: Method, requester: Option<UserId>)
    ensures HasPermission(AuthorOrReadOnly, m, requester) <==> !m.Mutates() || requester.Some?
    ensures m.Mutates() && requester.None? ==> !HasPermission(AuthorOrReadOnly, m, requester)
  {
  }

  /** AuthorOrReadOnly's object check passes exactly when the requester is the
      author, and the HTTP method plays no part in it. */
  lemma AuthorOrReadOnlyObjectCheck(m: Method, m': Method, requester: Option<UserId>, author: UserId)
    ensures HasObjectPermission(AuthorOrReadOnly, m, requester, author) <==> requester == Some(author)
    ensures HasObjectPermission(AuthorOrReadOnly, m, requester, author)
         == HasObjectPermission(AuthorOrReadOnly, m', requester, author)
  {
  }

  /** No object is authored by the anonymous user, so an anonymous requester
      never passes AuthorOrReadOnly's object check. */
  lemma AnonymousNeverOwns(m: Method, author: UserId)
    ensures !HasObjectPermission(AuthorOrReadOnly, m, None, author)
  {
  }

  /** ReadOnly passes exactly the reads, and who asks plays no part in it. */
  lemma ReadOnlyCheck(m: Method, requester: Option<UserId>, requester': Option<UserId>)
    ensures HasPermission(ReadOnly, m, requester) <==> !m.Mutates()
    ensures HasPermission(ReadOnly, m, requester) == HasPermission(ReadOnly, m, requester')
  {
  }
}
