/** The REST client for the user API: one request per user, and a drain of
    the paginated user list. The HTTP exchange and JSON deserialisation are
    an oracle: each request yields a `Reply`. Every failure is normalised
    into the `Failure` taxonomy at this boundary. */
module Clients {
  import opened Wrappers
  import opened Models

  /** What deserialising a response body produced: an envelope (null when
      the body is empty or the JSON literal null), or a JSON error. */
  datatype Body<T> = Json(envelope: Option<T>) | Malformed

  /** Outcome of sending one request. */
  datatype Reply<T> =
    | Response(status: int, reason: string, body: Body<T>)
    | TransportFailure  // HttpRequestException from the transport
    | Cancelled         // TaskCanceledException: the request timed out

  /** What the code inside the try blocks can throw: one of the client's own
      exceptions, or one of the three foreign exceptions the catch blocks handle. */
  datatype Raised =
    | Thrown(failure: Failure)
    | HttpRequestError
    | JsonError
    | TaskCanceled

  const NotFoundStatus := 404

  /** HttpResponseMessage.IsSuccessStatusCode. */
  predicate IsSuccessStatus(status: int)
  {
    200 <= status <= 299
  }

  /** The catch blocks: the client's own exceptions pass through unchanged,
      the three foreign ones become ApiExceptions with fixed messages. */
  function Catch(e: Raised): (f: Failure)
    ensures e.Thrown? ==> f == e.failure
    ensures !e.Thrown? ==> f.ApiException?
    ensures e.HttpRequestError? ==> f == ApiException(NetworkError)
    ensures e.JsonError? ==> f == ApiException(ParseFailed)
    ensures e.TaskCanceled? ==> f == ApiException(TimedOut)
  {
    match e
    case Thrown(failure) => failure
    case HttpRequestError => ApiException(NetworkError)
    case JsonError => ApiException(ParseFailed)
    case TaskCanceled => ApiException(TimedOut)
  }

  // ---------------------------------------------------------------------
  // A single user

  /** `userResponse?.Data` of a deserialised body. */
  function UserDataOf(body: Body<UserResponse>): Option<User>
  {
    match body
    case Json(Some(envelope)) => envelope.data
    case _ => None
  }

  /** The try block of GetUserByIdAsync. */
  function TryBlockGetUser(userId: int, reply: Reply<UserResponse>): Result<User, Raised>
  {
    match reply
    case TransportFailure => Failure(HttpRequestError)
    case Cancelled => Failure(TaskCanceled)
    case Response(status, reason, body) =>
      if !IsSuccessStatus(status) then
        if status == NotFoundStatus then Failure(Thrown(NotFoundException(userId)))
        else Failure(Thrown(ApiException(FetchUserFailed(userId, reason))))
      else if body.Malformed? then Failure(JsonError)
      else if UserDataOf(body).None? then Failure(Thrown(ApiException(InvalidUserData)))
      else Success(UserDataOf(body).value)
  }

  /** GetUserByIdAsync: the try block followed by the catch blocks. Its
      contract sorts every reply into exactly one outcome. */
  function GetUserById(userId: int, reply: Reply<UserResponse>): (r: Result<User, Failure>)
    // the user comes back exactly when the status is a success and the body holds one
    ensures r.Success? <==>
      reply.Response? && IsSuccessStatus(reply.status) && reply.body.Json? && UserDataOf(reply.body).Some?
    ensures r.Success? ==> r == Success(UserDataOf(reply.body).value)
    // 404, and only 404, is NotFound, and it names the requested id
    ensures r.Failure? && r.error.NotFoundException? <==> reply.Response? && reply.status == NotFoundStatus
    ensures r.Failure? && r.error.NotFoundException? ==> r.error.userId == userId
    // any other non-success status is an ApiException with the id and the reason phrase
    ensures reply.Response? && !IsSuccessStatus(reply.status) && reply.status != NotFoundStatus
      <==> r.Failure? && r.error.ApiException? && r.error.message.FetchUserFailed?
    ensures r.Failure? && r.error.ApiException? && r.error.message.FetchUserFailed? ==>
      reply.Response? && r.error.message == FetchUserFailed(userId, reply.reason)
    // a success whose body has no user
    ensures r == Failure(ApiException(InvalidUserData)) <==>
      reply.Response? && IsSuccessStatus(reply.status) && reply.body.Json? && UserDataOf(reply.body).None?
    // transport, parse and timeout failures
    ensures r == Failure(ApiException(NetworkError)) <==> reply.TransportFailure?
    ensures r == Failure(ApiException(ParseFailed)) <==>
      reply.Response? && IsSuccessStatus(reply.status) && reply.body.Malformed?
    ensures r == Failure(ApiException(TimedOut)) <==> reply.Cancelled?
  {
    match TryBlockGetUser(userId, reply)
    case Success(user) => Success(user)
    case Failure(e) => Failure(Catch(e))
  }

  // ---------------------------------------------------------------------
  // The page drain

  /** What one iteration of the drain keeps from a page: its users and the
      page count the server declared. */
  datatype Page = Page(users: seq<User>, totalPages: int)

  /** `userList?.Data` of a deserialised body. */
  function ListDataOf(body: Body<UserListResponse>): Option<seq<User>>
  {
    match body
    case Json(Some(envelope)) => envelope.data
    case _ => None
  }

  /** The part of one drain iteration that can throw: the status check and
      the payload check for page `page`. */
  function FetchPage(page: int, reply: Reply<UserListResponse>): Result<Page, Raised>
  {
    match reply
    case TransportFailure => Failure(HttpRequestError)
    case Cancelled => Failure(TaskCanceled)
    case Response(status, reason, body) =>
      if !IsSuccessStatus(status) then Failure(Thrown(ApiException(FetchPageFailed(page, reason))))
      else if body.Malformed? then Failure(JsonError)
      else if ListDataOf(body).None? then Failure(Thrown(ApiException(InvalidUserListData)))
      else Success(Page(ListDataOf(body).value, body.envelope.value.totalPages))
  }

  /** The failure a page reply turns into once the catch blocks have run. */
  function PageFailure(page: int, reply: Reply<UserListResponse>): (f: Failure)
    requires FetchPage(page, reply).Failure?
    // a list page never yields NotFound: every status failure is a generic ApiException
    ensures f.ApiException?
    ensures reply.Response? && !IsSuccessStatus(reply.status) ==>
      f == ApiException(FetchPageFailed(page, reply.reason))
    ensures reply.Response? && IsSuccessStatus(reply.status) && reply.body.Json? ==>
      f == ApiException(InvalidUserListData)
    ensures reply.Response? && IsSuccessStatus(reply.status) && reply.body.Malformed? ==>
      f == ApiException(ParseFailed)
    ensures reply.TransportFailure? ==> f == ApiException(NetworkError)
    ensures reply.Cancelled? ==> f == ApiException(TimedOut)
  {
    Catch(FetchPage(page, reply).error)
  }

  /** The users page `page` contributes: its data when the page succeeds. */
  function UsersOnPage(page: int, reply: Reply<UserListResponse>): seq<User>
  {
    if FetchPage(page, reply).Success? then FetchPage(page, reply).value.users else []
  }

  /** The drain goes on past page k: page k succeeded and declared at least k + 1 pages. */
  predicate Continues(endpoint: int -> Reply<UserListResponse>, k: int)
  {
    FetchPage(k, endpoint(k)).Success? && k + 1 <= FetchPage(k, endpoint(k)).value.totalPages
  }

  /** The environment assumption that makes the drain terminate: no
      successful page declares more than `maxPages` pages. */
  ghost predicate PagesBounded(endpoint: int -> Reply<UserListResponse>, maxPages: nat)
  {
    forall p :: FetchPage(p, endpoint(p)).Success? ==> FetchPage(p, endpoint(p)).value.totalPages <= maxPages
  }

  /** The last page the drain requests, searching upward from `from`: the
      first page that does not let the drain go on. */
  function StopPage(endpoint: int -> Reply<UserListResponse>, maxPages: nat, from: int): (s: int)
    requires PagesBounded(endpoint, maxPages)
    ensures from <= s
    ensures forall k :: from <= k < s ==> Continues(endpoint, k)
    ensures !Continues(endpoint, s)
    ensures s <= if from <= maxPages + 1 then maxPages + 1 else from
    decreases maxPages + 1 - from
  {
    if Continues(endpoint, from) then StopPage(endpoint, maxPages, from + 1) else from
  }

  /** The users of pages 1 to n, in page order and in each page's own order. */
  function Collected(endpoint: int -> Reply<UserListResponse>, n: int): seq<User>
    decreases n
  {
    if n < 1 then [] else Collected(endpoint, n - 1) + UsersOnPage(n, endpoint(n))
  }

  /** What the drain yields: every page up to the stop page if that page
      succeeded, else the stop page's failure and no users at all. */
  ghost function DrainOutcome(endpoint: int -> Reply<UserListResponse>, maxPages: nat): Result<seq<User>, Failure>
    requires PagesBounded(endpoint, maxPages)
  {
    var last := StopPage(endpoint, maxPages, 1);
    if FetchPage(last, endpoint(last)).Success? then Success(Collected(endpoint, last))
    else Failure(PageFailure(last, endpoint(last)))
  }

  /** The pages 1, 2, ..., n in order. */
  ghost predicate ConsecutiveFromOne(pages: seq<int>, n: int)
  {
    |pages| == n && forall i :: 0 <= i < |pages| ==> pages[i] == i + 1
  }

  /** GetAllUsersAsync: the do-while loop over pages. `requested` records
      the page numbers sent, in order. */
  method GetAllUsers(endpoint: int -> Reply<UserListResponse>, ghost maxPages: nat)
    returns (r: Result<seq<User>, Failure>, ghost requested: seq<int>)
    requires PagesBounded(endpoint, maxPages)
    ensures r == DrainOutcome(endpoint, maxPages)
    ensures ConsecutiveFromOne(requested, StopPage(endpoint, maxPages, 1))
  {
    ghost var last := StopPage(endpoint, maxPages, 1);
    var users: seq<User> := [];
    var page := 1;
    requested := [];
    while true
      invariant 1 <= page <= last
      invariant users == Collected(endpoint, page - 1)
      invariant ConsecutiveFromOne(requested, page - 1)
      decreases last - page
    {
      requested := requested + [page];
      var step := FetchPage(page, endpoint(page));
      if step.Failure? {
        assert !Continues(endpoint, page);
        r := Failure(Catch(step.error));
        return;
      }
      users := users + step.value.users;
      var totalPages := step.value.totalPages;
      page := page + 1;
      if !(page <= totalPages) {
        assert !Continues(endpoint, page - 1);
        break;
      }
    }
    r := Success(users);
  }

  // ---------------------------------------------------------------------
  // Properties of the drain

  /** Whatever the first page declares, it is requested, so the drain
      always covers at least page 1. */
  lemma FirstPageAlwaysRequested(endpoint: int -> Reply<UserListResponse>, maxPages: nat)
    requires PagesBounded(endpoint, maxPages)
    requires FetchPage(1, endpoint(1)).Success? && FetchPage(1, endpoint(1)).value.totalPages <= 1
    ensures DrainOutcome(endpoint, maxPages) == Success(UsersOnPage(1, endpoint(1)))
  {
    DrainCollectsEveryPage(endpoint, maxPages, 1);
    assert Collected(endpoint, 0) == [];
    assert Collected(endpoint, 1) == UsersOnPage(1, endpoint(1));
  }

  /** When pages 1..n-1 all let the drain go on and page n succeeds but
      declares fewer than n + 1 pages, the result is exactly pages 1..n. */
  lemma {:induction false} DrainCollectsEveryPage(endpoint: int -> Reply<UserListResponse>, maxPages: nat, n: int)
    requires PagesBounded(endpoint, maxPages)
    requires 1 <= n
    requires forall k :: 1 <= k < n ==> Continues(endpoint, k)
    requires FetchPage(n, endpoint(n)).Success? && FetchPage(n, endpoint(n)).value.totalPages < n + 1
    ensures DrainOutcome(endpoint, maxPages) == Success(Collected(endpoint, n))
  {
    StopPageIsFirstStop(endpoint, maxPages, n);
  }

  /** When pages 1..n-1 all let the drain go on and page n fails, the whole
      drain fails with page n's failure and returns no partial list. */
  lemma {:induction false} DrainAbortsOnFailedPage(endpoint: int -> Reply<UserListResponse>, maxPages: nat, n: int)
    requires PagesBounded(endpoint, maxPages)
    requires 1 <= n
    requires forall k :: 1 <= k < n ==> Continues(endpoint, k)
    requires FetchPage(n, endpoint(n)).Failure?
    ensures DrainOutcome(endpoint, maxPages) == Failure(PageFailure(n, endpoint(n)))
  {
    StopPageIsFirstStop(endpoint, maxPages, n);
  }

  /** The stop page is the first page that does not let the drain go on. */
  lemma StopPageIsFirstStop(endpoint: int -> Reply<UserListResponse>, maxPages: nat, n: int)
    requires PagesBounded(endpoint, maxPages)
    requires 1 <= n
    requires forall k :: 1 <= k < n ==> Continues(endpoint, k)
    requires !Continues(endpoint, n)
    ensures StopPage(endpoint, maxPages, 1) == n
  {
  }

  /** Order of the result: user i of page k sits right after the users of
      pages 1..k-1. */
  lemma {:induction false} CollectedKeepsPageOrder(endpoint: int -> Reply<UserListResponse>, n: int, k: int, i: int)
    requires 1 <= k <= n
    requires 0 <= i < |UsersOnPage(k, endpoint(k))|
    ensures |Collected(endpoint, k - 1)| + i < |Collected(endpoint, n)|
    ensures Collected(endpoint, n)[|Collected(endpoint, k - 1)| + i] == UsersOnPage(k, endpoint(k))[i]
  {
    if k < n {
      CollectedKeepsPageOrder(endpoint, n - 1, k, i);
    }
  }

  /** Three pages of two, two and one users, each declaring three pages:
      the drain returns the five users in page order. */
  lemma ThreePagesOfTwoTwoAndOne(a: User, b: User, c: User, d: User, e: User)
    ensures var endpoint := (p: int) =>
      if 1 <= p <= 3
      then Response(200, "OK", Json(Some(UserListResponse(p, 2, 5, 3,
        Some(if p == 1 then [a, b] else if p == 2 then [c, d] else [e])))))
      else Response(404, "Not Found", Json(None));
      PagesBounded(endpoint, 3) && DrainOutcome(endpoint, 3) == Success([a, b, c, d, e])
  {
    var endpoint := (p: int) =>
      if 1 <= p <= 3
      then Response(200, "OK", Json(Some(UserListResponse(p, 2, 5, 3,
        Some(if p == 1 then [a, b] else if p == 2 then [c, d] else [e])))))
      else Response(404, "Not Found", Json(None));
    assert Continues(endpoint, 1) && Continues(endpoint, 2);
    assert forall k :: 1 <= k < 3 ==> Continues(endpoint, k);
    DrainCollectsEveryPage(endpoint, 3, 3);
    assert Collected(endpoint, 0) == [];
    assert Collected(endpoint, 1) == [a, b];
    assert Collected(endpoint, 2) == [a, b, c, d];
    assert Collected(endpoint, 3) == [a, b, c, d, e];
  }

  /** Size of the result: the sum of the page sizes. */
  function PageSizes(endpoint: int -> Reply<UserListResponse>, n: int): int
    decreases n
  {
    if n < 1 then 0 else PageSizes(endpoint, n - 1) + |UsersOnPage(n, endpoint(n))|
  }

  lemma {:induction false} CollectedLength(endpoint: int -> Reply<UserListResponse>, n: int)
    ensures |Collected(endpoint, n)| == PageSizes(endpoint, n)
  {
    if n >= 1 {
      CollectedLength(endpoint, n - 1);
    }
  }
}
