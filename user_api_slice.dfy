/** The API layer's base query wrapper: every response passes through unchanged, and a
    401 error logs the user out. */
module UserApiSlice {
  import opened BaseQuery
  import opened Effects

  /** The interception test: the response carries an error whose status is exactly 401. */
  predicate IsUnauthorized(response: QueryResult) {
    response.Error? && response.error.status == HttpStatus(401)
  }

  /** What the wrapper dispatches for one response. */
  function AuthEffects(response: QueryResult): (effects: seq<Effect>)
    ensures |effects| <= 1
    ensures effects == [LogoutUser] <==> IsUnauthorized(response)
    ensures effects == [] <==> !IsUnauthorized(response)
  {
    if IsUnauthorized(response) then [LogoutUser] else []
  }

  /** Successful responses and errors other than 401 never log the user out. */
  lemma OnlyUnauthorizedLogsOut(response: QueryResult)
    requires response.Data? || response.error.status != HttpStatus(401)
    ensures LogoutUser !in AuthEffects(response)
  {
  }

  /** `handleAuthQuery`: runs the base query (its response is a parameter), logs out on 401,
      and returns the response as it came. */
  method HandleAuthQuery(rt: Runtime, baseResponse: QueryResult) returns (response: QueryResult)
    modifies rt
    ensures response == baseResponse
    ensures rt.log == old(rt.log) + AuthEffects(baseResponse)
  {
    response := baseResponse;
    if response.Error? && response.error.status == HttpStatus(401) {
      rt.Emit(LogoutUser);
    }
  }

  /** The effects of a run of queries, one after the other. */
  function AuthEffectsOf(responses: seq<QueryResult>): (effects: seq<Effect>) {
    if responses == [] then [] else AuthEffectsOf(responses[..|responses| - 1]) + AuthEffects(responses[|responses| - 1])
  }

  /** How many of the responses were 401 errors. */
  function UnauthorizedCount(responses: seq<QueryResult>): (n: nat) {
    if responses == [] then 0
    else UnauthorizedCount(responses[..|responses| - 1]) + (if IsUnauthorized(responses[|responses| - 1]) then 1 else 0)
  }

  /** Over any run of queries the user is logged out once per 401 response, and nothing else
      is dispatched. */
  lemma {:induction false} OneLogoutPer401(responses: seq<QueryResult>)
    ensures |AuthEffectsOf(responses)| == UnauthorizedCount(responses)
    ensures forall e :: e in AuthEffectsOf(responses) ==> e == LogoutUser
  {
    if responses != [] {
      OneLogoutPer401(responses[..|responses| - 1]);
    }
  }
}
