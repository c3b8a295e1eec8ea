/** The comment service (core/services/comment_srv.py): one call to the
    repository's `get_comments`, shaped into a `ResponseModel` of service
    comments. It uses the same three messages as the user service.
 */
module CommentSrv {
  import opened Runtime
  import opened Models
  import Repository

  /** `s` carries every field of `c` unchanged. */
  predicate Copies(s: SrvComment, c: RepoComment)
  {
    s.postId == c.postId && s.id == c.id && s.name == c.name && s.email == c.email && s.body == c.body
  }

  /** One pass of the mapping loop: build a service comment from the
      attributes of one repository object. `postId` is read first; a
      `Foreign` element is one without a `postId` attribute, and the read
      raises on it. */
  function ReadComment(o: PyObject<RepoComment>): Result<SrvComment>
  {
    match o
    case Instance(c) => Ok(SrvComment(c.postId, c.id, c.name, c.email, c.body))
    case Foreign(t) => Err(AttributeError(t, "postId"))
  }

  /** The mapping of a whole list, in order: either every object has the
      five attributes and each is copied, or the first object without
      `postId` raises and nothing is produced. */
  function MapComments(objs: seq<PyObject<RepoComment>>): (r: Result<seq<SrvComment>>)
    ensures r.Ok? <==> AllInstances(objs)
    ensures r.Ok? ==>
      |r.value| == |objs| &&
      forall k :: 0 <= k < |objs| ==> objs[k].Instance? && Copies(r.value[k], objs[k].value)
    ensures r.Err? ==>
      FirstForeign(objs) < |objs| &&
      r.error == AttributeError(objs[FirstForeign(objs)].typeName, "postId")
  {
    if objs == [] then Ok([])
    else
      match ReadComment(objs[0])
      case Err(e) => Err(e)
      case Ok(s) =>
        match MapComments(objs[1..])
        case Err(e) => Err(e)
        case Ok(rest) => Ok([s] + rest)
  }

  /** The envelope `getAllComments` returns for a given outcome of its one
      repository call. */
  function CommentEnvelope(fetched: Call<RepoComment>): (r: ResponseModel<SrvComment>)
    ensures Consistent(r)
    ensures r.code == 404 <==> fetched == Returned([])
    ensures r.code == 404 ==> r == NotFoundResponse()
    ensures r.code == 200 <==> fetched.Returned? && fetched.objs != [] && AllInstances(fetched.objs)
    ensures r.code == 200 ==>
      r.message == SuccessMessage &&
      |r.data| == |fetched.objs| &&
      forall k :: 0 <= k < |r.data| ==> fetched.objs[k].Instance? && Copies(r.data[k], fetched.objs[k].value)
    ensures fetched.Raised? ==> r == ErrorResponse(fetched.error)
    ensures r.code == 500 && fetched.Returned? ==>
      FirstForeign(fetched.objs) < |fetched.objs| &&
      r == ErrorResponse(AttributeError(fetched.objs[FirstForeign(fetched.objs)].typeName, "postId"))
  {
    match fetched
    case Raised(e) => ErrorResponse(e)
    case Returned(objs) =>
      if objs == [] then NotFoundResponse()
      else
        match MapComments(objs)
        case Err(e) => ErrorResponse(e)
        case Ok(comments) => SuccessResponse(comments)
  }

  class CommentService {
    /** The repository the service was wired to; never reassigned. */
    const jsonplaceHolderRepo: Repository.Repository

    constructor(jsonplaceHolderRepo: Repository.Repository)
      ensures this.jsonplaceHolderRepo == jsonplaceHolderRepo
    {
      this.jsonplaceHolderRepo := jsonplaceHolderRepo;
    }

    /** `getAllComments`. `fetched` is the outcome of the method's single
        call `self.jsonplaceHolderRepo.get_comments()`. Wired to the HTTP
        adapter, which has no such method, every request fails with 500.
        The method modifies nothing. */
    method GetAllComments(fetched: Call<RepoComment>) returns (r: ResponseModel<SrvComment>)
      requires Repository.MayAnswerComments(jsonplaceHolderRepo, fetched)
      ensures r == CommentEnvelope(fetched)
      ensures jsonplaceHolderRepo.JsonplaceHolderApi? ==>
        r.code == 500 &&
        r == ErrorResponse(AttributeError(Repository.AdapterClass, "get_comments"))
    {
      if fetched.Raised? {
        return ErrorResponse(fetched.error);
      }
      var comments := fetched.objs;
      if comments == [] {
        return NotFoundResponse();
      }
      var resultComments: seq<SrvComment> := [];
      var i := 0;
      while i < |comments|
        invariant 0 <= i <= |comments|
        invariant |resultComments| == i
        invariant forall k :: 0 <= k < i ==> comments[k].Instance? && Copies(resultComments[k], comments[k].value)
      {
        match ReadComment(comments[i]) {
          case Err(e) =>
            // the partly built list is dropped
            return ErrorResponse(e);
          case Ok(c) =>
            resultComments := resultComments + [c];
        }
        i := i + 1;
      }
      return SuccessResponse(resultComments);
    }
  }

  /** Turns a service comment back into a repository comment. */
  function ToRepoComment(s: SrvComment): RepoComment
  {
    RepoComment(s.postId, s.id, s.name, s.email, s.body)
  }

  /** The copy loses nothing: on success, turning each service comment back
      gives the repository's records, in their order. */
  lemma CopyRoundTrip(fetched: Call<RepoComment>)
    requires CommentEnvelope(fetched).code == 200
    ensures fetched.Returned? && AllInstances(fetched.objs)
    ensures |CommentEnvelope(fetched).data| == |fetched.objs|
    ensures forall k :: 0 <= k < |fetched.objs| ==>
      ToRepoComment(CommentEnvelope(fetched).data[k]) == fetched.objs[k].value
  {
  }

  /** Wired to the HTTP adapter, the service always answers 500 with the
      text of the `AttributeError` for the missing `get_comments`. */
  lemma AdapterAlwaysFails()
    ensures CommentEnvelope(Repository.AdapterGetComments()) ==
      ResponseModel(false, 500, ErrorPrefix + "'JsonplaceHolderRepository' object has no attribute 'get_comments'", [])
  {
    Repository.MissingGetCommentsText();
  }
}
