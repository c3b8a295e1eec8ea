/** The repository port a service is wired to, and what the one concrete
    adapter (core/repositories/jsonplaceholder_api.py) can answer.

    The adapter's HTTP request and JSON decoding are not modelled; what
    reaches it from the network is an `HttpReply`.
 */
module Repository {
  import opened Runtime
  import opened Models

  /** The adapter's class name, as Python reports it in error texts. */
  const AdapterClass: string := "JsonplaceHolderRepository"

  /** The implementation of the port a service holds. */
  datatype Repository =
    | JsonplaceHolderApi(url: string) // the adapter, bound to a base URL
    | OtherImplementation             // any other implementation of the port

  /** What one GET on `{url}/users` produced, as the adapter sees it. */
  datatype HttpReply =
    /** The body decoded to an iterable value; `items` are what iterating it
        yields. For a JSON array these are its elements: `Instance(u)` for
        an object, whose `.get` reads give `u`, and `Foreign(t)` for a value
        of Python type `t` that has no `.get` (a number, a string, `null`,
        an array). A JSON object or string yields its keys or characters,
        which are all `Foreign("str")`. */
    | Payload(items: seq<PyObject<RepoUser>>)
    /** The body decoded to a value that cannot be iterated (a number, a
        boolean, `null`), of Python type `typeName`. */
    | NotIterable(typeName: string)
    | RequestFailed(error: string)  // a `requests.exceptions.RequestException`
    | DecodeFailed(error: string)   // a `ValueError` or `KeyError` while decoding

  /** The adapter's `get_users`. A failed request or decoding is swallowed
      into an empty list, so it cannot be told apart from an empty upstream
      collection. When iterating the decoded body raises (a value that
      cannot be iterated, or an element without `.get`, which a non-empty
      JSON object or string yields), the exception is not caught. */
  function AdapterGetUsers(reply: HttpReply): (r: Call<RepoUser>)
    ensures r.Raised? <==> reply.NotIterable? || (reply.Payload? && !AllInstances(reply.items))
    ensures reply.NotIterable? ==> r == Raised(TypeErrorNotIterable(reply.typeName))
    ensures r.Raised? && reply.Payload? ==>
      FirstForeign(reply.items) < |reply.items| &&
      r.error == AttributeError(reply.items[FirstForeign(reply.items)].typeName, "get")
    ensures r.Returned? ==> AllInstances(r.objs)
    ensures r.Returned? ==> (r.objs == [] <==> !reply.Payload? || reply.items == [])
    ensures r.Returned? && reply.Payload? ==> r.objs == reply.items
  {
    match reply
    case Payload(items) =>
      var k := FirstForeign(items);
      if k == |items| then Returned(items)
      else Raised(AttributeError(items[k].typeName, "get"))
    case NotIterable(t) => Raised(TypeErrorNotIterable(t))
    case RequestFailed(_) => Returned([])
    case DecodeFailed(_) => Returned([])
  }

  /** The adapter defines no `get_comments`, so looking the method up on it
      raises `AttributeError`. */
  function AdapterGetComments(): Call<RepoComment>
  {
    Raised(AttributeError(AdapterClass, "get_comments"))
  }

  /** `fetched` is an outcome `repo.get_users()` can have. */
  predicate MayAnswerUsers(repo: Repository, fetched: Call<RepoUser>)
  {
    repo.JsonplaceHolderApi? && fetched.Returned? ==> AllInstances(fetched.objs)
  }

  /** `fetched` is an outcome `repo.get_comments()` can have. */
  predicate MayAnswerComments(repo: Repository, fetched: Call<RepoComment>)
  {
    repo.JsonplaceHolderApi? ==> fetched == AdapterGetComments()
  }

  /** The exception the adapter raises for `get_comments` carries Python's
      usual text for a missing attribute. */
  lemma MissingGetCommentsText()
    ensures AdapterGetComments() ==
      Raised("'JsonplaceHolderRepository' object has no attribute 'get_comments'")
  {
    var expected := "'JsonplaceHolderRepository' object has no attribute 'get_comments'";
    var head, middle, tail := "'JsonplaceHolderRepository", "' object has no attribute '", "get_comments'";
    assert expected == head + middle + tail;
    assert head == "'" + AdapterClass;
    assert tail == "get_comments" + "'";
  }
}
