# Service-layer response shaping of a JSONPlaceholder façade

The system fetches users and comments from a public REST API and serves them
again through a local HTTP API. It is layered as repository, then service,
then handler. This project models the service layer: `UserService.getAllUser`
and `CommentService.getAllComments`. Each makes one repository call and turns
its outcome into a `ResponseModel` envelope `{status, code, message, data}`:

- the repository raised: code 500, and the message is the fixed prefix
  followed by the exception's text;
- it returned an empty list: code 404;
- it returned a non-empty list: each record is mapped in order to a service
  record, then code 200. Users keep only `id`, `name`, `username` and
  `email`. Comments keep all five fields.

An exception raised while mapping also gives code 500. The partly built list
is then dropped.

Modules:

- `Runtime` (runtime.dfy) holds the Python notions the services rely on.
  - A repository list element is `PyObject`. An `Instance` has every
    attribute the loop reads. A `Foreign` object lacks the first one: `id`
    for users, `postId` for comments. Python does not enforce the port's
    `List[User]` hint, so such an element can occur. Reading the missing
    attribute raises `AttributeError`. This is how an exception during
    mapping arises here.
  - A repository call is `Call`: `Returned(list)` or `Raised(text)`.
  - `FirstForeign` gives the index at which the in-order mapping loop raises.
- `Models` (models.dfy) holds the repository records, the service records
  and the envelope.
  - The service records' own definition files are not part of this model.
    Their fields come from the constructor calls in the services.
  - `Consistent` is the envelope invariant: status is true exactly when
    code is 200, a false status carries no data, and the code is one of
    200, 404 and 500.
  - The messages are the source's own constants. The comment service uses
    the same three texts as the user service, which speak of users.
- `Repository` (repository.dfy) holds the port and the one concrete adapter.
  - The port is `JsonplaceHolderApi(url)` or `OtherImplementation`.
  - The adapter's `get_users` turns every transport or decoding failure
    into `[]`.
  - The adapter's own loop raises when iterating the decoded body raises:
    `TypeError` on a value that cannot be iterated, or `AttributeError` on
    an element without `.get` (a non-empty JSON object or string yields
    such elements; an empty one yields nothing and gives `[]`). The adapter
    does not catch these, so they reach the service.
  - The adapter has no `get_comments`, so calling it raises
    `AttributeError`.
- `UserSrv` and `CommentSrv` (user_srv.dfy, comment_srv.dfy) each hold a
  class with the repository as a `const` field, and the request method with
  its mapping loop. Each method is proved equal to a specification function
  (`UserEnvelope`, `CommentEnvelope`). The lemmas are stated about those
  functions.

How repository code and I/O enter the model: the repository is code outside
the service, so the outcome of its single call is the request method's
parameter `fetched`. The method's `requires` ties that outcome to the
repository the service was built with. With the HTTP adapter, a list that
`get_users` returns holds only objects with every attribute the service
reads, though the call itself may raise on a malformed body; `get_comments`
always raises.
Neither method has a `modifies` clause, so a request changes no state. The
HTTP reply the adapter receives is the parameter `HttpReply`.

A timed-out or otherwise failed upstream request is swallowed by the
adapter into `[]`, so `GET /users` answers 404, not 500. A failed fetch
cannot be told apart from an empty upstream collection
(`UserSrv.AdapterFailureReadsAsNotFound`).

## Model

| member | source | states |
|---|---|---|
| `Runtime.FirstForeign` | core/services/user_srv.py:48-55 | the index where an in-order read of the list first meets an object without the attribute being read: every earlier element has it, and the element there (if any) does not |
| `Repository.AdapterGetUsers` | core/repositories/jsonplaceholder_api.py:13-63 | the adapter's `get_users` raises exactly when the decoded body cannot be iterated (`TypeError` text) or yields an element without `.get` (the `AttributeError` text of the first one); otherwise it returns only user instances, empty exactly when the request or decoding failed or the payload was empty, and otherwise the payload's users in order |
| `Repository.MissingGetCommentsText` | core/repositories/jsonplaceholder_api.py:9-63 | the adapter defines no `get_comments`, so the lookup raises, with the text `'JsonplaceHolderRepository' object has no attribute 'get_comments'` |
| `UserSrv.MapUsers` | core/services/user_srv.py:47-55 | the mapping loop succeeds exactly when every element has the read attributes; it then has one output per input, in order, each carrying the source's id, name, username and email; otherwise it fails with the `AttributeError` text of the first element without `id` |
| `UserSrv.UserEnvelope` | core/services/user_srv.py:33-71 | the envelope is `Consistent`; code 404 exactly when the repository returned `[]`, with an empty payload; code 200 exactly when it returned a non-empty list of users, and the data then projects the list element by element; a raised exception gives code 500, empty data and the prefix plus its text; a mapping failure gives 500 with the first bad element's error |
| `UserSrv.UserService.constructor` | core/services/user_srv.py:11-21 | the service stores the repository it is given |
| `UserSrv.UserService.GetAllUser` | core/services/user_srv.py:23-71 | the loop-built answer equals `UserEnvelope` of the single repository outcome, and the partly built list never leaks on the error path; wired to the HTTP adapter it answers 500 exactly when the repository call raised |
| `UserSrv.DroppedFieldsIgnored` | core/services/user_srv.py:49-54 | address, phone, website and company cannot influence the answer: two lists that agree on every element's id, name, username and email (or on the type of each object without `id`) get the same mapping and the same envelope |
| `UserSrv.AdapterFailureReadsAsNotFound` | core/repositories/jsonplaceholder_api.py:55-63 | through the HTTP adapter, the user service answers 500 exactly when iterating the decoded body raises: a value that cannot be iterated, or an element without `.get` (a non-empty JSON object or string is one); a failed request or decoding reads as 404, like an empty upstream; a non-empty list of objects gives 200 with one summary per upstream user, in order |
| `CommentSrv.MapComments` | core/services/comment_srv.py:47-56 | the mapping loop succeeds exactly when every element has the read attributes; it then has one output per input, in order, each equal in postId, id, name, email and body to its source; otherwise it fails with the `AttributeError` text of the first element without `postId` |
| `CommentSrv.CommentEnvelope` | core/services/comment_srv.py:33-72 | the envelope is `Consistent`; code 404 exactly when the repository returned `[]`; code 200 exactly when it returned a non-empty list of comments, and the data then copies the list element by element; a raised exception gives 500 with the prefix plus its text and empty data |
| `CommentSrv.CommentService.constructor` | core/services/comment_srv.py:11-21 | the service stores the repository it is given |
| `CommentSrv.CommentService.GetAllComments` | core/services/comment_srv.py:23-72 | the loop-built answer equals `CommentEnvelope` of the single repository outcome; wired to the HTTP adapter the answer is always 500 with the missing-attribute text |
| `CommentSrv.CopyRoundTrip` | core/services/comment_srv.py:49-55 | on a 200 answer, turning each service comment back into a repository comment gives back the repository's records in order |
| `CommentSrv.AdapterAlwaysFails` | core/services/comment_srv.py:33-35 | with the HTTP adapter's outcome, the comment envelope is exactly status false, code 500, the prefix followed by `'JsonplaceHolderRepository' object has no attribute 'get_comments'`, and no data |

## Left out

- The HTTP request, `raise_for_status` and JSON decoding of the adapter are not modelled. Their result reaches the model as `HttpReply`.
- `UserSrv.MapUsers`: attribute reads are duck-typed, and the model has only two kinds of element: one with all four read attributes, and one without `id`. An object of another class with all four (such as the `UserSchema` documentation model) stands as an `Instance` with any address, phone, website and company, which `UserSrv.DroppedFieldsIgnored` shows cannot matter. An object that has `id` but lacks a later attribute (a `RepoCommentModel` lacks `username`) raises on that later attribute in the source; the model does not represent such an object.
- `CommentSrv.MapComments`: in the same way, an object with all five read attributes (such as a `CommentSchema`) is an `Instance`, and one without `postId` is `Foreign`; an object that has `postId` but lacks a later attribute is not represented.
- A repository that returns something other than a list is not modelled. `if not repo_users` treats `None` as empty and answers 404.
- When a JSON user object lacks a key, the adapter stores `None` in that field. The model's user records always carry values of their declared types.
- `UserSrv.UserService.GetAllUser` and `CommentSrv.CommentService.GetAllComments`: the single repository call (`get_users()`, `get_comments()`) is stated by construction. Its outcome is the one parameter `fetched`. No call counter is kept.
- `print` logging, `beartype` run-time type checks, and the handlers, which only delegate to the services, are not modelled.
- The abstract ports and the OpenAPI schema declarations hold no logic.
- Pagination is not modelled. No code implementing it appears in the service, repository or handler modules; the only pagination code is the schema classes `PaginationInfo` and `PaginatedResponse`.
- The service-level record classes (srv_user, srv_comment) are not part of this model. They are treated as plain records whose constructors cannot raise.
- The application startup script is not modelled. It edits the import path, prints, builds a `JsonplaceHolderRepository` and calls `get_user("sdsdss")`, which the adapter does not define. That call raises `AttributeError` and ends the script before its last `print`.
