/** What the route handlers share: the caller's session and the shape of a reply. */
module Http {

  import opened Wrappers
  import FileModel

  /** `session?.user?.email` is truthy: an email is present and it is not "". */
  predicate SignedIn(email: Option<string>) {
    FileModel.Present(email)
  }

  /** A route handler's reply: 400, 401, 404 and 500, or a success code with its JSON body. */
  datatype Reply<T> = Ok(code: int, body: T) | BadRequest | Unauthorized | NotFound | ServerError

}
