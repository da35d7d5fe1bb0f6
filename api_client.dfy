/**
  The interception layer of the application's HTTP client (src/config/axios.js).

  The outbound stage attaches the bearer token; the inbound stage classifies one
  failed attempt and either resubmits the same request descriptor or rejects.
  All retry bookkeeping lives in two fields of the descriptor: `_retry` (the
  one-shot token refresh) and `_retryCount` (shared by the rate-limit retry and
  the server-error retries). The transport, the credential store's refresh and
  the notifier are outside the model: the transport is a sequence of outcomes,
  one per attempt, the refresh is an input, and notifications are returned as
  the list of their message texts.
*/
module ApiClient {
  import opened Wrappers

  /**
    A notification the error handler shows (always with the negative colour):
    one of its fixed texts, or the server's own `message` shown in place of one.
  */
  datatype Notice =
    | SessionExpired
    | TooManyRequests
    | PermissionDenied
    | NotFound
    | ServerFailure
    | RequestFailed
    | NetworkFailure
    | Unexpected
    | ServerMessage(text: string)

  /** The text the user reads. */
  function Text(n: Notice): string {
    match n
    case SessionExpired => "Your session has expired. Please login again."
    case TooManyRequests => "Too many requests. Please try again later."
    case PermissionDenied => "You don't have permission to perform this action"
    case NotFound => "The requested resource was not found"
    case ServerFailure => "Server error. Please try again later."
    case RequestFailed => "Request failed. Please try again."
    case NetworkFailure => "Network error. Please check your internet connection."
    case Unexpected => "An unexpected error occurred"
    case ServerMessage(text) => text
  }

  /** `message || <fixed text>`: the server's message when it is truthy, otherwise the default notice. */
  function MessageOr(msg: Option<string>, fallback: Notice): Notice
    requires !fallback.ServerMessage?
  {
    if Truthy(msg) then ServerMessage(msg.value) else fallback
  }

  /** What `MessageOr` shows is JavaScript's `message || text`. */
  lemma MessageOrText(msg: Option<string>, fallback: Notice)
    requires !fallback.ServerMessage?
    ensures Text(MessageOr(msg, fallback)) == Or(msg, Text(fallback))
  {
  }

  /** What the credential store shows the client; a null token is the empty string. */
  datatype Credentials = Credentials(isAuthenticated: bool, accessToken: string)

  function Bearer(token: string): string {
    "Bearer " + token
  }

  predicate AttachesToken(creds: Credentials) {
    creds.isAuthenticated && creds.accessToken != ""
  }

  /** The Authorization header after the outbound stage. */
  function OutboundHeader(header: Option<string>, creds: Credentials): (r: Option<string>)
    ensures AttachesToken(creds) ==> r == Some(Bearer(creds.accessToken))
    ensures r != header ==> AttachesToken(creds)
  {
    if AttachesToken(creds) then Some(Bearer(creds.accessToken)) else header
  }

  /** Running the outbound stage twice is the same as running it once. */
  lemma OutboundIdempotent(header: Option<string>, creds: Credentials)
    ensures OutboundHeader(OutboundHeader(header, creds), creds) == OutboundHeader(header, creds)
  {
  }

  /** The result of one transport attempt as the inbound stage sees it. */
  datatype Outcome =
    | Response(status: nat, retryAfter: Option<nat>, serverMsg: Option<string>)
    | NoResponse                          // the request went out, no response came back
    | BuildError(message: Option<string>) // the request could not be made

  /** Statuses the transport resolves; everything else reaches the error handler. */
  predicate IsSuccess(o: Outcome) {
    o.Response? && 200 <= o.status < 300
  }

  /** What the credential store's refresh does: resolve true (with its new token), resolve false, or throw. */
  datatype RefreshResult = Refreshed(token: string) | NotRefreshed | RefreshThrows

  datatype Cause = AuthRefresh | RateLimit | ServerRetry

  /** What the error handler does with one failed attempt. */
  datatype Decision =
    | Resubmit(delayMs: nat, cause: Cause)
    | Reject(notifications: seq<Notice>, loggedOut: bool, navigatedToLogin: bool)

  /** A snapshot of the descriptor's fields; `retryCount == 0` stands for `_retryCount` being unset. */
  datatype DescriptorState = DescriptorState(retry: bool, retryCount: nat, authorization: Option<string>)

  datatype Transition = Transition(state: DescriptorState, decision: Decision)

  /** How many more resubmissions the descriptor's fields allow. */
  function Budget(s: DescriptorState): nat {
    (if s.retry then 0 else 1) + (if s.retryCount < 2 then 2 - s.retryCount else 0)
  }

  function Pow2(n: nat): (r: nat)
    ensures r >= 1
  {
    if n == 0 then 1 else 2 * Pow2(n - 1)
  }

  /** The backoff before the server-error retry that brings the counter to `count`. */
  function ServerRetryDelay(count: nat): (ms: nat)
    ensures ms >= 1000
    ensures count == 1 ==> ms == 2000
    ensures count == 2 ==> ms == 4000
  {
    Pow2(count) * 1000
  }

  /** The terminal notification chosen for an outcome, if any. */
  function TerminalMessages(o: Outcome): seq<Notice>
  {
    match o
    case Response(status, _, msg) =>
      if status == 403 then [MessageOr(msg, PermissionDenied)]
      else if status == 404 then [MessageOr(msg, NotFound)]
      else if status >= 500 then [MessageOr(msg, ServerFailure)]
      else if status >= 400 && status != 401 then [MessageOr(msg, RequestFailed)]
      else []
    case NoResponse => [NetworkFailure]
    case BuildError(msg) => [MessageOr(msg, Unexpected)]
  }

  /**
    Terminal reporting shows at most one notification, and none exactly for a
    response below 400 or a 401. A 4xx/5xx shows the server's non-empty message
    when it has one and otherwise the default for its status class; a lost
    connection shows the network-error notice, and a request that could not be
    built its own message or the unexpected-error notice.
  */
  lemma TerminalNotice(o: Outcome)
    ensures var r := TerminalMessages(o);
      && |r| <= 1
      && (r == [] <==> o.Response? && (o.status < 400 || o.status == 401))
      && (r != [] && r[0].ServerMessage? ==> r[0].text != "")
      && (o.Response? && o.status >= 400 && o.status != 401 && Truthy(o.serverMsg) ==> r == [ServerMessage(o.serverMsg.value)])
      && (o.NoResponse? ==> r == [NetworkFailure])
      && (o.BuildError? ==> r == [MessageOr(o.message, Unexpected)])
      && (o.Response? && !Truthy(o.serverMsg) ==>
            && (o.status == 403 ==> r == [PermissionDenied])
            && (o.status == 404 ==> r == [NotFound])
            && (o.status >= 500 ==> r == [ServerFailure])
            && (400 <= o.status < 500 && o.status != 401 && o.status != 403 && o.status != 404 ==> r == [RequestFailed]))
  {
  }

  /** The 401 handling left nothing to do: rate limiting, server retries, terminal reporting. */
  function AfterAuth(s: DescriptorState, o: Outcome): Transition {
    if o.Response? && o.status == 429 && o.retryAfter.Some? && s.retryCount == 0 then
      Transition(s.(retryCount := 1), Resubmit(o.retryAfter.value * 1000, RateLimit))
    else
      var rateNotice := if o.Response? && o.status == 429 then [TooManyRequests] else [];
      if o.Response? && o.status >= 500 && s.retryCount < 2 then
        Transition(s.(retryCount := s.retryCount + 1), Resubmit(ServerRetryDelay(s.retryCount + 1), ServerRetry))
      else
        Transition(s, Reject(rateNotice + TerminalMessages(o), false, false))
  }

  /** The error handler's decision chain over one failed attempt. */
  function Inbound(s: DescriptorState, o: Outcome, refresh: RefreshResult): (t: Transition)
    ensures Budget(t.state) <= Budget(s)
    ensures t.decision.Resubmit? ==> Budget(t.state) < Budget(s)
    ensures t.decision.Resubmit? && t.decision.cause == AuthRefresh ==> refresh.Refreshed?
  {
    if o.Response? && o.status == 401 && !s.retry then
      var marked := s.(retry := true);
      match refresh
      case Refreshed(token) =>
        Transition(marked.(authorization := Some(Bearer(token))), Resubmit(0, AuthRefresh))
      case RefreshThrows =>
        Transition(marked, Reject([SessionExpired], true, true))
      case NotRefreshed =>
        AfterAuth(marked, o)
    else
      AfterAuth(s, o)
  }

  /**
    What one pass of the error handler may do to a descriptor: `_retry` never
    goes back to false, `_retryCount` never decreases and never passes 2, the
    header changes only to the refreshed token, an auth resubmission is
    immediate and needs an unretried descriptor, a counted resubmission adds
    exactly one, a server retry waits 2 or 4 seconds, and a logout comes with
    exactly the session-expired notice and the navigation to the login page.
  */
  lemma InboundKeeps(s: DescriptorState, o: Outcome, refresh: RefreshResult)
    ensures var t := Inbound(s, o, refresh);
      && (s.retry ==> t.state.retry)
      && s.retryCount <= t.state.retryCount
      && (s.retryCount <= 2 ==> t.state.retryCount <= 2)
      && (t.state.authorization != s.authorization ==>
            refresh.Refreshed? && t.state.authorization == Some(Bearer(refresh.token)))
      && (t.decision.Resubmit? && t.decision.cause == AuthRefresh ==>
            !s.retry && t.state.retry && t.decision.delayMs == 0 && t.state.retryCount == s.retryCount)
      && (t.decision.Resubmit? && t.decision.cause != AuthRefresh ==>
            t.state.retry == s.retry && t.state.retryCount == s.retryCount + 1)
      && (t.decision.Resubmit? && t.decision.cause == ServerRetry ==>
            t.decision.delayMs == 2000 || t.decision.delayMs == 4000)
      && (t.decision.Reject? ==> t.state.retryCount == s.retryCount)
      && (t.decision.Reject? && t.decision.loggedOut ==>
            !s.retry && t.decision.navigatedToLogin && t.decision.notifications == [SessionExpired])
  {
  }

  /** The refresh is consulted only for a 401 on a descriptor not yet retried. */
  predicate CallsRefresh(s: DescriptorState, o: Outcome) {
    o.Response? && o.status == 401 && !s.retry
  }

  lemma RefreshOnlyOnFirst401(s: DescriptorState, o: Outcome, r1: RefreshResult, r2: RefreshResult)
    ensures !CallsRefresh(s, o) ==> Inbound(s, o, r1) == Inbound(s, o, r2)
    ensures CallsRefresh(s, o) ==> Inbound(s, o, r1).state.retry
  {
  }

  /** A 401: refresh success resubmits with the new token, a throw logs out, resolving false is silent. */
  lemma Unauthorized(s: DescriptorState, o: Outcome, refresh: RefreshResult)
    requires o.Response? && o.status == 401
    ensures var t := Inbound(s, o, refresh);
      if s.retry || refresh.NotRefreshed? then
        t.decision == Reject([], false, false) && t.state == s.(retry := true)
      else if refresh.RefreshThrows? then
        t.decision == Reject([SessionExpired], true, true) && t.state == s.(retry := true)
      else
        t.decision == Resubmit(0, AuthRefresh) &&
        t.state == s.(retry := true, authorization := Some(Bearer(refresh.token)))
  {
  }

  /** A 429 retries once after Retry-After seconds; otherwise it is reported twice and rejected. */
  lemma RateLimited(s: DescriptorState, o: Outcome, refresh: RefreshResult)
    requires o.Response? && o.status == 429
    ensures var t := Inbound(s, o, refresh);
      if o.retryAfter.Some? && s.retryCount == 0 then
        t == Transition(s.(retryCount := 1), Resubmit(o.retryAfter.value * 1000, RateLimit))
      else
        t == Transition(s, Reject([TooManyRequests, MessageOr(o.serverMsg, RequestFailed)], false, false))
  {
  }

  /** A 5xx retries while the shared counter is below 2, after 2 s and then 4 s. */
  lemma ServerError(s: DescriptorState, o: Outcome, refresh: RefreshResult)
    requires o.Response? && o.status >= 500
    ensures var t := Inbound(s, o, refresh);
      if s.retryCount < 2 then
        t.state == s.(retryCount := s.retryCount + 1) &&
        t.decision == Resubmit(if s.retryCount == 0 then 2000 else 4000, ServerRetry)
      else
        t == Transition(s, Reject([MessageOr(o.serverMsg, ServerFailure)], false, false))
  {
  }

  /** Every other failure is terminal at once, with at most one notification and no state change. */
  lemma OtherFailure(s: DescriptorState, o: Outcome, refresh: RefreshResult)
    requires !(o.Response? && (o.status == 401 || o.status == 429 || o.status >= 500))
    ensures Inbound(s, o, refresh) == Transition(s, Reject(TerminalMessages(o), false, false))
  {
  }

  /** The request descriptor: created once per call and mutated across its retries. */
  class Descriptor {
    var retry: bool
    var retryCount: nat
    var authorization: Option<string>

    constructor (authorization: Option<string>)
      ensures State() == DescriptorState(false, 0, authorization)
    {
      retry := false;
      retryCount := 0;
      this.authorization := authorization;
    }

    function State(): DescriptorState
      reads this
    {
      DescriptorState(retry, retryCount, authorization)
    }

    /** The request interceptor. */
    method ApplyOutbound(creds: Credentials)
      modifies this`authorization
      ensures State() == old(State()).(authorization := OutboundHeader(old(authorization), creds))
    {
      if creds.isAuthenticated && creds.accessToken != "" {
        authorization := Some(Bearer(creds.accessToken));
      }
    }

    /** One attempt: the request interceptor, then, if the transport failed, the error interceptor. */
    method Attempt(creds: Credentials, refresh: RefreshResult, o: Outcome) returns (header: Option<string>, decision: Option<Decision>)
      modifies this
      ensures Step(header, State(), decision) == AttemptStep(old(State()), creds, refresh, o)
    {
      ApplyOutbound(creds);
      header := authorization;
      if IsSuccess(o) {
        decision := None;
      } else {
        var d := HandleError(o, refresh);
        decision := Some(d);
      }
    }

    /** The response-error interceptor for one failed attempt. */
    method HandleError(o: Outcome, refresh: RefreshResult) returns (d: Decision)
      modifies this
      ensures Transition(State(), d) == Inbound(old(State()), o, refresh)
    {
      if o.Response? && o.status == 401 && !retry {
        retry := true;
        match refresh
        case Refreshed(token) =>
          authorization := Some(Bearer(token));
          return Resubmit(0, AuthRefresh);
        case RefreshThrows =>
          return Reject([SessionExpired], true, true);
        case NotRefreshed =>
      }

      var notifications: seq<Notice> := [];
      if o.Response? && o.status == 429 {
        if o.retryAfter.Some? && retryCount == 0 {
          retryCount := 1;
          return Resubmit(o.retryAfter.value * 1000, RateLimit);
        }
        notifications := notifications + [TooManyRequests];
      }

      if o.Response? && o.status >= 500 && retryCount < 2 {
        retryCount := retryCount + 1;
        return Resubmit(ServerRetryDelay(retryCount), ServerRetry);
      }

      notifications := notifications + TerminalMessages(o);
      return Reject(notifications, false, false);
    }
  }

  datatype Resubmission = Resubmission(delayMs: nat, cause: Cause)

  /** What the caller finally sees: the successful response or the rejected error. */
  datatype Final =
    | Resolved(response: Outcome)
    | Rejected(error: Outcome, notifications: seq<Notice>, loggedOut: bool, navigatedToLogin: bool)

  /** One call's whole history: the header each attempt carried, the resubmissions, the end. */
  datatype Chain = Chain(headers: seq<Option<string>>, resubmits: seq<Resubmission>, final: Final, state: DescriptorState)

  function Count(rs: seq<Resubmission>, cause: Cause): nat {
    if rs == [] then 0 else (if rs[0].cause == cause then 1 else 0) + Count(rs[1..], cause)
  }

  lemma CountCons(r: Resubmission, rs: seq<Resubmission>, cause: Cause)
    ensures Count([r] + rs, cause) == (if r.cause == cause then 1 else 0) + Count(rs, cause)
  {
    assert ([r] + rs)[1..] == rs;
  }

  /** One attempt: the header the outbound stage sends, the descriptor afterwards, and the handler's decision (None when the transport resolved). */
  datatype Step = Step(header: Option<string>, state: DescriptorState, decision: Option<Decision>)

  function AttemptStep(s: DescriptorState, creds: Credentials, refresh: RefreshResult, o: Outcome): (r: Step)
    ensures r.decision == None <==> IsSuccess(o)
    ensures Budget(r.state) <= Budget(s)
    ensures r.decision.Some? && r.decision.value.Resubmit? ==> Budget(r.state) < Budget(s)
    ensures r.decision.Some? && r.decision.value.Resubmit? && r.decision.value.cause == AuthRefresh ==> refresh.Refreshed?
  {
    var header := OutboundHeader(s.authorization, creds);
    var sent := s.(authorization := header);
    if IsSuccess(o) then Step(header, sent, None)
    else
      var t := Inbound(sent, o, refresh);
      Step(header, t.state, Some(t.decision))
  }

  /** The credentials the next attempt's outbound stage sees: after a refresh, the store's new token. */
  function NextCredentials(creds: Credentials, refresh: RefreshResult, cause: Cause): Credentials {
    if cause == AuthRefresh && refresh.Refreshed? then creds.(accessToken := refresh.token) else creds
  }

  /**
    The call as a whole: every attempt passes the outbound stage and the transport;
    a failure goes to the error handler, whose resubmission starts the next attempt
    with the same descriptor (and, after a refresh, the store's new token).
  */
  function Run(s: DescriptorState, creds: Credentials, refresh: RefreshResult, outcomes: seq<Outcome>): Chain
    requires |outcomes| > Budget(s)
    decreases Budget(s)
  {
    var step := AttemptStep(s, creds, refresh, outcomes[0]);
    match step.decision
    case None =>
      Chain([step.header], [], Resolved(outcomes[0]), step.state)
    case Some(Reject(notes, loggedOut, navigated)) =>
      Chain([step.header], [], Rejected(outcomes[0], notes, loggedOut, navigated), step.state)
    case Some(Resubmit(delay, cause)) =>
      var rest := Run(step.state, NextCredentials(creds, refresh, cause), refresh, outcomes[1..]);
      Chain([step.header] + rest.headers, [Resubmission(delay, cause)] + rest.resubmits, rest.final, rest.state)
  }

  /** `InboundKeeps` lifted to a whole attempt, outbound stage included. */
  lemma AttemptKeeps(s: DescriptorState, creds: Credentials, refresh: RefreshResult, o: Outcome)
    ensures var r := AttemptStep(s, creds, refresh, o);
      && (s.retry ==> r.state.retry)
      && s.retryCount <= r.state.retryCount
      && (s.retryCount <= 2 ==> r.state.retryCount <= 2)
      && (r.decision.Some? && r.decision.value.Resubmit? && r.decision.value.cause == AuthRefresh ==>
            !s.retry && r.state.retry && r.state.retryCount == s.retryCount)
      && (r.decision.Some? && r.decision.value.Resubmit? && r.decision.value.cause != AuthRefresh ==>
            r.state.retry == s.retry && r.state.retryCount == s.retryCount + 1)
      && (r.decision.Some? && r.decision.value.Resubmit? && r.decision.value.cause == ServerRetry ==>
            r.decision.value.delayMs == 2000 || r.decision.value.delayMs == 4000)
      && (r.decision.Some? && r.decision.value.Reject? && r.decision.value.loggedOut ==>
            !s.retry && r.decision.value.navigatedToLogin && r.decision.value.notifications == [SessionExpired])
  {
    if !IsSuccess(o) {
      InboundKeeps(s.(authorization := OutboundHeader(s.authorization, creds)), o, refresh);
    }
  }

  /**
    Whatever the transport answers, a call makes one attempt more than it
    resubmits, and no more attempts than the descriptor's budget allows.
  */
  lemma {:induction false} RunLength(s: DescriptorState, creds: Credentials, refresh: RefreshResult, outcomes: seq<Outcome>)
    requires |outcomes| > Budget(s)
    ensures var c := Run(s, creds, refresh, outcomes);
      |c.headers| == |c.resubmits| + 1 <= Budget(s) + 1
    decreases Budget(s)
  {
    var step := AttemptStep(s, creds, refresh, outcomes[0]);
    RunUnfolds(s, creds, refresh, outcomes);
    if step.decision.Some? && step.decision.value.Resubmit? {
      RunLength(step.state, NextCredentials(creds, refresh, step.decision.value.cause), refresh, outcomes[1..]);
    }
  }

  /**
    A call makes at most one refreshed resubmission and at most `2 - _retryCount`
    counted ones, and keeps the counter at or below 2.
  */
  lemma {:induction false} RunCounts(s: DescriptorState, creds: Credentials, refresh: RefreshResult, outcomes: seq<Outcome>)
    requires |outcomes| > Budget(s)
    ensures var c := Run(s, creds, refresh, outcomes);
      && Count(c.resubmits, AuthRefresh) <= (if s.retry then 0 else 1)
      && Count(c.resubmits, RateLimit) + Count(c.resubmits, ServerRetry) <= (if s.retryCount < 2 then 2 - s.retryCount else 0)
      && (s.retryCount <= 2 ==> c.state.retryCount <= 2)
    decreases Budget(s)
  {
    var step := AttemptStep(s, creds, refresh, outcomes[0]);
    RunUnfolds(s, creds, refresh, outcomes);
    AttemptKeeps(s, creds, refresh, outcomes[0]);
    if step.decision.Some? && step.decision.value.Resubmit? {
      var d := step.decision.value;
      var creds' := NextCredentials(creds, refresh, d.cause);
      RunCounts(step.state, creds', refresh, outcomes[1..]);
      var rest := Run(step.state, creds', refresh, outcomes[1..]);
      CountCons(Resubmission(d.delayMs, d.cause), rest.resubmits, AuthRefresh);
      CountCons(Resubmission(d.delayMs, d.cause), rest.resubmits, RateLimit);
      CountCons(Resubmission(d.delayMs, d.cause), rest.resubmits, ServerRetry);
    }
  }

  /** A call resolves only with a success, and otherwise rejects the last attempt's own error. */
  lemma {:induction false} RunFinal(s: DescriptorState, creds: Credentials, refresh: RefreshResult, outcomes: seq<Outcome>)
    requires |outcomes| > Budget(s)
    ensures var c := Run(s, creds, refresh, outcomes);
      && |c.resubmits| < |outcomes|
      && (c.final.Resolved? ==> IsSuccess(c.final.response) && c.final.response == outcomes[|c.resubmits|])
      && (c.final.Rejected? ==> !IsSuccess(c.final.error) && c.final.error == outcomes[|c.resubmits|])
    decreases Budget(s)
  {
    var step := AttemptStep(s, creds, refresh, outcomes[0]);
    RunUnfolds(s, creds, refresh, outcomes);
    if step.decision.Some? && step.decision.value.Resubmit? {
      var creds' := NextCredentials(creds, refresh, step.decision.value.cause);
      RunFinal(step.state, creds', refresh, outcomes[1..]);
      var rest := Run(step.state, creds', refresh, outcomes[1..]);
      assert outcomes[1..][|rest.resubmits|] == outcomes[|rest.resubmits| + 1];
    }
  }

  /**
    A logout happens only on the descriptor's first refresh and comes with exactly
    the session-expired notice, and every server retry waits 2000 or 4000 ms.
  */
  lemma {:induction false} RunLogoutAndDelays(s: DescriptorState, creds: Credentials, refresh: RefreshResult, outcomes: seq<Outcome>)
    requires |outcomes| > Budget(s)
    ensures var c := Run(s, creds, refresh, outcomes);
      && (c.final.Rejected? && c.final.loggedOut ==> !s.retry && c.final.notifications == [SessionExpired])
      && (forall r :: r in c.resubmits && r.cause == ServerRetry ==> r.delayMs == 2000 || r.delayMs == 4000)
    decreases Budget(s)
  {
    var step := AttemptStep(s, creds, refresh, outcomes[0]);
    RunUnfolds(s, creds, refresh, outcomes);
    AttemptKeeps(s, creds, refresh, outcomes[0]);
    if step.decision.Some? && step.decision.value.Resubmit? {
      RunLogoutAndDelays(step.state, NextCredentials(creds, refresh, step.decision.value.cause), refresh, outcomes[1..]);
    }
  }

  /** A fresh descriptor (neither `_retry` nor `_retryCount` set) is resubmitted at most three times. */
  lemma AtMostThreeResubmissions(auth: Option<string>, creds: Credentials, refresh: RefreshResult, outcomes: seq<Outcome>)
    requires |outcomes| > 3
    ensures var c := Run(DescriptorState(false, 0, auth), creds, refresh, outcomes);
      |c.resubmits| <= 3 && Count(c.resubmits, AuthRefresh) <= 1 && c.state.retryCount <= 2
  {
    RunLength(DescriptorState(false, 0, auth), creds, refresh, outcomes);
    RunCounts(DescriptorState(false, 0, auth), creds, refresh, outcomes);
  }

  /** Three server errors in a row: retries after 2000 ms and 4000 ms, then the third is reported. */
  lemma ServerErrorBackoff(auth: Option<string>, creds: Credentials, refresh: RefreshResult, outcomes: seq<Outcome>)
    requires |outcomes| > 3
    requires outcomes[0].Response? && outcomes[0].status >= 500
    requires outcomes[1].Response? && outcomes[1].status >= 500
    requires outcomes[2].Response? && outcomes[2].status >= 500
    ensures var c := Run(DescriptorState(false, 0, auth), creds, refresh, outcomes);
      && c.resubmits == [Resubmission(2000, ServerRetry), Resubmission(4000, ServerRetry)]
      && c.final == Rejected(outcomes[2], [MessageOr(outcomes[2].serverMsg, ServerFailure)], false, false)
      && c.state.retryCount == 2
  {
    var s0 := DescriptorState(false, 0, auth);
    var h0 := OutboundHeader(auth, creds);
    var s1 := DescriptorState(false, 1, h0);
    var h1 := OutboundHeader(h0, creds);
    var s2 := DescriptorState(false, 2, h1);
    var h2 := OutboundHeader(h1, creds);
    var o1 := outcomes[1..];
    var o2 := o1[1..];
    assert o1[0] == outcomes[1] && o2[0] == outcomes[2];
    ServerError(s0.(authorization := h0), outcomes[0], refresh);
    ServerError(s1.(authorization := h1), o1[0], refresh);
    ServerError(s2.(authorization := h2), o2[0], refresh);
    var last := Run(s2, creds, refresh, o2);
    assert last.resubmits == [];
    var middle := Run(s1, creds, refresh, o1);
    assert middle.resubmits == [Resubmission(4000, ServerRetry)];
  }

  /** A rate-limit retry uses up one count, so a following server error is retried once, after 4000 ms. */
  lemma RateLimitSharesCounter(auth: Option<string>, creds: Credentials, refresh: RefreshResult, outcomes: seq<Outcome>, seconds: nat)
    requires |outcomes| > 3
    requires outcomes[0].Response? && outcomes[0].status == 429 && outcomes[0].retryAfter == Some(seconds)
    requires outcomes[1].Response? && outcomes[1].status >= 500
    requires outcomes[2].Response? && outcomes[2].status >= 500
    ensures var c := Run(DescriptorState(false, 0, auth), creds, refresh, outcomes);
      && c.resubmits == [Resubmission(seconds * 1000, RateLimit), Resubmission(4000, ServerRetry)]
      && c.final == Rejected(outcomes[2], [MessageOr(outcomes[2].serverMsg, ServerFailure)], false, false)
  {
    var s0 := DescriptorState(false, 0, auth);
    var h0 := OutboundHeader(auth, creds);
    var s1 := DescriptorState(false, 1, h0);
    var h1 := OutboundHeader(h0, creds);
    var s2 := DescriptorState(false, 2, h1);
    var h2 := OutboundHeader(h1, creds);
    var o1 := outcomes[1..];
    var o2 := o1[1..];
    assert o1[0] == outcomes[1] && o2[0] == outcomes[2];
    RateLimited(s0.(authorization := h0), outcomes[0], refresh);
    ServerError(s1.(authorization := h1), o1[0], refresh);
    ServerError(s2.(authorization := h2), o2[0], refresh);
    var last := Run(s2, creds, refresh, o2);
    assert last.resubmits == [];
    var middle := Run(s1, creds, refresh, o1);
    assert middle.resubmits == [Resubmission(4000, ServerRetry)];
  }

  /** A second 429 is not delayed again: it is reported (twice) and rejected. */
  lemma SecondRateLimitReported(auth: Option<string>, creds: Credentials, refresh: RefreshResult, outcomes: seq<Outcome>, seconds: nat)
    requires |outcomes| > 3
    requires outcomes[0].Response? && outcomes[0].status == 429 && outcomes[0].retryAfter == Some(seconds)
    requires outcomes[1].Response? && outcomes[1].status == 429
    ensures var c := Run(DescriptorState(false, 0, auth), creds, refresh, outcomes);
      && c.resubmits == [Resubmission(seconds * 1000, RateLimit)]
      && c.final == Rejected(outcomes[1], [TooManyRequests, MessageOr(outcomes[1].serverMsg, RequestFailed)], false, false)
  {
    var s0 := DescriptorState(false, 0, auth);
    var h0 := OutboundHeader(auth, creds);
    var s1 := DescriptorState(false, 1, h0);
    var h1 := OutboundHeader(h0, creds);
    RateLimited(s0.(authorization := h0), outcomes[0], refresh);
    var o1 := outcomes[1..];
    assert o1[0] == outcomes[1];
    RateLimited(s1.(authorization := h1), o1[0], refresh);
    var last := Run(s1, creds, refresh, o1);
    assert last.resubmits == [];
  }

  /**
    A 401 whose refresh succeeds is resubmitted at once, carrying the new bearer
    token; the rest of the call is the resubmission's, and it cannot end in a logout.
  */
  lemma RefreshedResubmission(auth: Option<string>, creds: Credentials, token: string, outcomes: seq<Outcome>)
    requires |outcomes| > 3
    requires outcomes[0].Response? && outcomes[0].status == 401
    ensures var c := Run(DescriptorState(false, 0, auth), creds, Refreshed(token), outcomes);
      var next := DescriptorState(true, 0, Some(Bearer(token)));
      var rest := Run(next, creds.(accessToken := token), Refreshed(token), outcomes[1..]);
      && c.resubmits == [Resubmission(0, AuthRefresh)] + rest.resubmits
      && c.headers[1] == Some(Bearer(token))
      && c.final == rest.final
      && !(c.final.Rejected? && c.final.loggedOut)
  {
    var s0 := DescriptorState(false, 0, auth);
    var h0 := OutboundHeader(auth, creds);
    Unauthorized(s0.(authorization := h0), outcomes[0], Refreshed(token));
    var next := DescriptorState(true, 0, Some(Bearer(token)));
    RunLogoutAndDelays(next, creds.(accessToken := token), Refreshed(token), outcomes[1..]);
  }

  /** A 401 whose refresh throws: one logout, one session-expired notice, one navigation, the 401 rejected. */
  lemma RefreshThrowsEndsSession(auth: Option<string>, creds: Credentials, outcomes: seq<Outcome>)
    requires |outcomes| > 3
    requires outcomes[0].Response? && outcomes[0].status == 401
    ensures var c := Run(DescriptorState(false, 0, auth), creds, RefreshThrows, outcomes);
      c.resubmits == [] && c.final == Rejected(outcomes[0], [SessionExpired], true, true)
  {
    Unauthorized(DescriptorState(false, 0, OutboundHeader(auth, creds)), outcomes[0], RefreshThrows);
  }

  /** A 401 whose refresh resolves false is rejected with no notification and no logout. */
  lemma RefreshFalseIsSilent(auth: Option<string>, creds: Credentials, outcomes: seq<Outcome>)
    requires |outcomes| > 3
    requires outcomes[0].Response? && outcomes[0].status == 401
    ensures var c := Run(DescriptorState(false, 0, auth), creds, NotRefreshed, outcomes);
      c.resubmits == [] && c.final == Rejected(outcomes[0], [], false, false)
  {
    Unauthorized(DescriptorState(false, 0, OutboundHeader(auth, creds)), outcomes[0], NotRefreshed);
  }

  /**
    A failure that is neither 401, 429 nor 5xx is rejected at once, with no retry,
    and with its terminal notifications: one for a status of 400 or more, a lost
    connection or a request that could not be built, none for a status below 400.
  */
  lemma TerminalAtOnce(s: DescriptorState, creds: Credentials, refresh: RefreshResult, outcomes: seq<Outcome>)
    requires |outcomes| > Budget(s)
    requires !IsSuccess(outcomes[0])
    requires !(outcomes[0].Response? && (outcomes[0].status == 401 || outcomes[0].status == 429 || outcomes[0].status >= 500))
    ensures var c := Run(s, creds, refresh, outcomes);
      c.resubmits == [] && c.final == Rejected(outcomes[0], TerminalMessages(outcomes[0]), false, false)
  {
    OtherFailure(s.(authorization := OutboundHeader(s.authorization, creds)), outcomes[0], refresh);
  }

  function Extend(headers: seq<Option<string>>, resubmits: seq<Resubmission>, c: Chain): Chain {
    Chain(headers + c.headers, resubmits + c.resubmits, c.final, c.state)
  }

  lemma ExtendTwice(h1: seq<Option<string>>, r1: seq<Resubmission>, h2: seq<Option<string>>, r2: seq<Resubmission>, c: Chain)
    ensures Extend(h1, r1, Extend(h2, r2, c)) == Extend(h1 + h2, r1 + r2, c)
  {
    assert h1 + (h2 + c.headers) == (h1 + h2) + c.headers;
    assert r1 + (r2 + c.resubmits) == (r1 + r2) + c.resubmits;
  }

  /** A call is its first attempt followed, after a resubmission, by the rest of the call. */
  lemma RunUnfolds(s: DescriptorState, creds: Credentials, refresh: RefreshResult, outcomes: seq<Outcome>)
    requires |outcomes| > Budget(s)
    ensures var step := AttemptStep(s, creds, refresh, outcomes[0]);
      match step.decision
      case None =>
        Run(s, creds, refresh, outcomes) == Chain([step.header], [], Resolved(outcomes[0]), step.state)
      case Some(Reject(notes, loggedOut, navigated)) =>
        Run(s, creds, refresh, outcomes) == Chain([step.header], [], Rejected(outcomes[0], notes, loggedOut, navigated), step.state)
      case Some(Resubmit(delay, cause)) =>
        |outcomes[1..]| > Budget(step.state) &&
        Run(s, creds, refresh, outcomes) ==
        Extend([step.header], [Resubmission(delay, cause)], Run(step.state, NextCredentials(creds, refresh, cause), refresh, outcomes[1..]))
  {
  }

  /**
    `Run` carrying the history recorded so far: the shape of the interceptors'
    loop over one descriptor.
  */
  function RunFrom(headers: seq<Option<string>>, resubmits: seq<Resubmission>, s: DescriptorState, creds: Credentials, refresh: RefreshResult, outcomes: seq<Outcome>): Chain
    requires |outcomes| > Budget(s)
    decreases Budget(s)
  {
    var step := AttemptStep(s, creds, refresh, outcomes[0]);
    match step.decision
    case None =>
      Chain(headers + [step.header], resubmits, Resolved(outcomes[0]), step.state)
    case Some(Reject(notes, loggedOut, navigated)) =>
      Chain(headers + [step.header], resubmits, Rejected(outcomes[0], notes, loggedOut, navigated), step.state)
    case Some(Resubmit(delay, cause)) =>
      RunFrom(headers + [step.header], resubmits + [Resubmission(delay, cause)],
              step.state, NextCredentials(creds, refresh, cause), refresh, outcomes[1..])
  }

  /** Carrying the history along is the same as prefixing it to the rest of the call. */
  lemma {:induction false} RunFromExtends(headers: seq<Option<string>>, resubmits: seq<Resubmission>, s: DescriptorState, creds: Credentials, refresh: RefreshResult, outcomes: seq<Outcome>)
    requires |outcomes| > Budget(s)
    ensures RunFrom(headers, resubmits, s, creds, refresh, outcomes) == Extend(headers, resubmits, Run(s, creds, refresh, outcomes))
    decreases Budget(s)
  {
    var step := AttemptStep(s, creds, refresh, outcomes[0]);
    RunUnfolds(s, creds, refresh, outcomes);
    match step.decision
    case None =>
      assert resubmits + [] == resubmits;
    case Some(Reject(_, _, _)) =>
      assert resubmits + [] == resubmits;
    case Some(Resubmit(delay, cause)) =>
      var next := NextCredentials(creds, refresh, cause);
      RunFromExtends(headers + [step.header], resubmits + [Resubmission(delay, cause)], step.state, next, refresh, outcomes[1..]);
      ExtendTwice(headers, resubmits, [step.header], [Resubmission(delay, cause)], Run(step.state, next, refresh, outcomes[1..]));
  }

  /** The interceptors driving one descriptor through its attempts. */
  method Send(d: Descriptor, creds: Credentials, refresh: RefreshResult, outcomes: seq<Outcome>) returns (c: Chain)
    requires |outcomes| > Budget(d.State())
    modifies d
    ensures c == Run(old(d.State()), creds, refresh, outcomes)
    ensures d.State() == c.state
  {
    ghost var spec := Run(d.State(), creds, refresh, outcomes);
    RunFromExtends([], [], d.State(), creds, refresh, outcomes);
    assert Extend([], [], spec) == spec;
    var store := creds;
    var pending := outcomes;
    var headers: seq<Option<string>> := [];
    var resubmits: seq<Resubmission> := [];
    var final: Option<Final> := None;
    while final.None?
      invariant final.None? ==> |pending| > Budget(d.State())
      invariant final.None? ==> spec == RunFrom(headers, resubmits, d.State(), store, refresh, pending)
      invariant final.Some? ==> spec == Chain(headers, resubmits, final.value, d.State())
      decreases Budget(d.State()), if final.None? then 1 else 0
    {
      var header, decision := d.Attempt(store, refresh, pending[0]);
      headers := headers + [header];
      if decision.None? {
        final := Some(Resolved(pending[0]));
      } else if decision.value.Reject? {
        var r := decision.value;
        final := Some(Rejected(pending[0], r.notifications, r.loggedOut, r.navigatedToLogin));
      } else {
        var r := decision.value;
        store := NextCredentials(store, refresh, r.cause);
        resubmits, pending := resubmits + [Resubmission(r.delayMs, r.cause)], pending[1..];
      }
    }
    c := Chain(headers, resubmits, final.value, d.State());
  }
}
