/** The records exchanged with the remote user API, the cache settings and
    the exceptions the client raises. */
module Models {
  import opened Wrappers

  /** One user as the API sends it (wire names id, email, first_name,
      last_name, avatar). */
  datatype User = User(
    id: int,
    email: string,
    firstName: string,
    lastName: string,
    avatar: string)

  /** Body of GET users/{id}; `data` is null when the field is missing or null. */
  datatype UserResponse = UserResponse(data: Option<User>)

  /** Body of GET users?page={n}; `data` is null when the field is missing or null. */
  datatype UserListResponse = UserListResponse(
    page: int,
    perPage: int,
    total: int,
    totalPages: int,
    data: Option<seq<User>>)

  /** Configured cache lifetime in minutes; an unset value reads as 0. */
  datatype CacheSettings = CacheSettings(expirationMinutes: int)

  /** The message an ApiException carries, kept as structured data. */
  datatype ApiMessage =
    | FetchUserFailed(userId: int, reason: string)  // non-success status for one user
    | InvalidUserData                               // success, but no user in the body
    | FetchPageFailed(page: int, reason: string)    // non-success status for a list page
    | InvalidUserListData                           // success, but no list in the body
    | NetworkError                                  // the transport failed
    | ParseFailed                                   // the body is not valid JSON
    | TimedOut                                      // the request was cancelled

  /** The two exception classes a caller of the client can observe. */
  datatype Failure =
    | NotFoundException(userId: int)
    | ApiException(message: ApiMessage)
}
