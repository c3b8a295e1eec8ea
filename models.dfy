/** The records the services read and build, and the response envelope. */
module Models {

  // ---- Repository-level records (core/models/repo_jsonplacehodel.py) ----

  datatype Geo = Geo(lat: string, lng: string)

  datatype Address = Address(street: string, suite: string, city: string, zipcode: string, geo: Geo)

  datatype Company = Company(name: string, catchPhrase: string, bs: string)

  /** A user as the repository delivers it, with every upstream field. */
  datatype RepoUser = RepoUser(
    id: int,
    name: string,
    username: string,
    email: string,
    address: Address,
    phone: string,
    website: string,
    company: Company)

  datatype RepoComment = RepoComment(postId: int, id: int, name: string, email: string, body: string)

  // ---- Service-level records ----

  /** A user as the service hands it out: the four summary fields only. */
  datatype SrvUser = SrvUser(id: int, name: string, username: string, email: string)

  datatype SrvComment = SrvComment(postId: int, id: int, name: string, email: string, body: string)

  // ---- The envelope (core/models/srv_global.py) ----

  /** Every service answer: a success flag, an HTTP-style code, a message
      and the payload. */
  datatype ResponseModel<T> = ResponseModel(status: bool, code: int, message: string, data: seq<T>)

  /** Message when the repository answered with an empty list. */
  const NotFoundMessage: string := "ไม่พบข้อมูลผู้ใช้"

  /** Message on success. */
  const SuccessMessage: string := "ดึงข้อมูลผู้ใช้สำเร็จ"

  /** Prefix of the message when an exception was caught; the exception's
      text follows it. */
  const ErrorPrefix: string := "เกิดข้อผิดพลาด: "

  function NotFoundResponse<T>(): ResponseModel<T>
  {
    ResponseModel(false, 404, NotFoundMessage, [])
  }

  function SuccessResponse<T>(data: seq<T>): ResponseModel<T>
  {
    ResponseModel(true, 200, SuccessMessage, data)
  }

  function ErrorResponse<T>(error: string): ResponseModel<T>
  {
    ResponseModel(false, 500, ErrorPrefix + error, [])
  }

  /** What every envelope a service returns satisfies: success exactly
      with code 200, no payload on failure, and one of the three codes. */
  predicate Consistent<T>(r: ResponseModel<T>)
  {
    && (r.status <==> r.code == 200)
    && (!r.status ==> r.data == [])
    && (r.code == 200 || r.code == 404 || r.code == 500)
  }
}
