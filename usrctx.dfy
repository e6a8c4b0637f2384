/** The user id carried by a request context (internal/shared/usrctx/decodeid.go). */
module UserCtx {
  import opened Wrappers
  import opened Errors
  import opened GenUuid
  import UserService

  /** The decoded user id, or the reason it could not be read. */
  datatype UserId = UserId(id: Uuid) | DecodeFailed(err: Error)

  const ErrNoUserId: Error := E(Message("context do not contain userID"))

  /**
   * ID.Decode: the id usr.ID reads from the context, or one fixed error in place of usr.ID's
   * when the context holds no valid id.
   */
  function Decode(stored: Option<Uuid>): (r: UserId)
    ensures r.UserId? <==> stored.Some? && stored.value.valid
    ensures r.UserId? ==> r.id == stored.value
    ensures r.DecodeFailed? ==> r.err == ErrNoUserId
  {
    match UserService.ID(stored)
    case Ok(id) => UserId(id)
    case Fail(_) => DecodeFailed(ErrNoUserId)
  }
}
