/** The user service (core/services/user_srv.py): one call to the
    repository's `get_users`, shaped into a `ResponseModel` of summary
    users.
 */
module UserSrv {
  import opened Runtime
  import opened Models
  import Repository

  /** `s` carries exactly the summary fields of `u`: the same id, name,
      username and email. Address, phone, website and company have no
      counterpart in `SrvUser`. */
  predicate Projects(s: SrvUser, u: RepoUser)
  {
    s.id == u.id && s.name == u.name && s.username == u.username && s.email == u.email
  }

  /** One pass of the mapping loop: build a service user from the
      attributes of one repository object. `id` is read first; a
      `Foreign` element is one without an `id` attribute, and the read
      raises on it. */
  function ReadUser(o: PyObject<RepoUser>): Result<SrvUser>
  {
    match o
    case Instance(u) => Ok(SrvUser(u.id, u.name, u.username, u.email))
    case Foreign(t) => Err(AttributeError(t, "id"))
  }

  /** The mapping of a whole list, in order: either every object has the
      four attributes and each yields its summary, or the first object
      without `id` raises and nothing is produced. */
  function MapUsers(objs: seq<PyObject<RepoUser>>): (r: Result<seq<SrvUser>>)
    ensures r.Ok? <==> AllInstances(objs)
    ensures r.Ok? ==>
      |r.value| == |objs| &&
      forall k :: 0 <= k < |objs| ==> objs[k].Instance? && Projects(r.value[k], objs[k].value)
    ensures r.Err? ==>
      FirstForeign(objs) < |objs| &&
      r.error == AttributeError(objs[FirstForeign(objs)].typeName, "id")
  {
    if objs == [] then Ok([])
    else
      match ReadUser(objs[0])
      case Err(e) => Err(e)
      case Ok(s) =>
        match MapUsers(objs[1..])
        case Err(e) => Err(e)
        case Ok(rest) => Ok([s] + rest)
  }

  /** The envelope `getAllUser` returns for a given outcome of its one
      repository call. */
  function UserEnvelope(fetched: Call<RepoUser>): (r: ResponseModel<SrvUser>)
    ensures Consistent(r)
    ensures r.code == 404 <==> fetched == Returned([])
    ensures r.code == 404 ==> r == NotFoundResponse()
    ensures r.code == 200 <==> fetched.Returned? && fetched.objs != [] && AllInstances(fetched.objs)
    ensures r.code == 200 ==>
      r.message == SuccessMessage &&
      |r.data| == |fetched.objs| &&
      forall k :: 0 <= k < |r.data| ==> fetched.objs[k].Instance? && Projects(r.data[k], fetched.objs[k].value)
    ensures fetched.Raised? ==> r == ErrorResponse(fetched.error)
    ensures r.code == 500 && fetched.Returned? ==>
      FirstForeign(fetched.objs) < |fetched.objs| &&
      r == ErrorResponse(AttributeError(fetched.objs[FirstForeign(fetched.objs)].typeName, "id"))
  {
    match fetched
    case Raised(e) => ErrorResponse(e)
    case Returned(objs) =>
      if objs == [] then NotFoundResponse()
      else
        match MapUsers(objs)
        case Err(e) => ErrorResponse(e)
        case Ok(users) => SuccessResponse(users)
  }

  class UserService {
    /** The repository the service was wired to; never reassigned. */
    const userRepo: Repository.Repository

    constructor(userRepo: Repository.Repository)
      ensures this.userRepo == userRepo
    {
      this.userRepo := userRepo;
    }

    /** `getAllUser`. `fetched` is the outcome of the method's single call
        `self.userRepo.get_users()`. The method modifies nothing. */
    method GetAllUser(fetched: Call<RepoUser>) returns (r: ResponseModel<SrvUser>)
      requires Repository.MayAnswerUsers(userRepo, fetched)
      ensures r == UserEnvelope(fetched)
      ensures userRepo.JsonplaceHolderApi? ==> (r.code == 500 <==> fetched.Raised?)
    {
      if fetched.Raised? {
        return ErrorResponse(fetched.error);
      }
      var repoUsers := fetched.objs;
      if repoUsers == [] {
        return NotFoundResponse();
      }
      var serviceUsers: seq<SrvUser> := [];
      var i := 0;
      while i < |repoUsers|
        invariant 0 <= i <= |repoUsers|
        invariant |serviceUsers| == i
        invariant forall k :: 0 <= k < i ==> repoUsers[k].Instance? && Projects(serviceUsers[k], repoUsers[k].value)
      {
        match ReadUser(repoUsers[i]) {
          case Err(e) =>
            // the partly built list is dropped
            return ErrorResponse(e);
          case Ok(s) =>
            serviceUsers := serviceUsers + [s];
        }
        i := i + 1;
      }
      return SuccessResponse(serviceUsers);
    }
  }

  /** Two objects that no summary field tells apart. */
  predicate SameSummary(a: PyObject<RepoUser>, b: PyObject<RepoUser>)
  {
    match (a, b)
    case (Instance(u), Instance(v)) =>
      u.id == v.id && u.name == v.name && u.username == v.username && u.email == v.email
    case (Foreign(t), Foreign(t')) => t == t'
    case _ => false
  }

  /** Address, phone, website and company never influence the answer:
      lists that agree on the summary fields get the same envelope. */
  lemma {:induction false} DroppedFieldsIgnored(a: seq<PyObject<RepoUser>>, b: seq<PyObject<RepoUser>>)
    requires |a| == |b|
    requires forall k :: 0 <= k < |a| ==> SameSummary(a[k], b[k])
    ensures MapUsers(a) == MapUsers(b)
    ensures UserEnvelope(Returned(a)) == UserEnvelope(Returned(b))
  {
    if a != [] {
      assert SameSummary(a[0], b[0]);
      DroppedFieldsIgnored(a[1..], b[1..]);
    }
  }

  /** Wired to the HTTP adapter, the service answers 500 exactly when
      iterating the decoded body raises: a value that cannot be iterated, or
      an element without `.get` (a non-empty JSON object or string yields
      such elements; an empty one yields none). A failed request or decoding
      arrives as an empty list and is reported as 404, exactly like an empty
      upstream collection. */
  lemma AdapterFailureReadsAsNotFound(reply: Repository.HttpReply)
    ensures var r := UserEnvelope(Repository.AdapterGetUsers(reply));
      r.code == 500 <==> reply.NotIterable? || (reply.Payload? && !AllInstances(reply.items))
    ensures var r := UserEnvelope(Repository.AdapterGetUsers(reply));
      r.code == 404 <==> reply.RequestFailed? || reply.DecodeFailed? || reply == Repository.Payload([])
    ensures reply.Payload? && reply.items != [] && AllInstances(reply.items) ==>
      var r := UserEnvelope(Repository.AdapterGetUsers(reply));
      r.code == 200 && |r.data| == |reply.items| &&
      forall k :: 0 <= k < |r.data| ==> Projects(r.data[k], reply.items[k].value)
  {
  }
}
