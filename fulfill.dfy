/**
 * `fulfill`: issue one request to a service through an authority, refreshing
 * the authority and retrying when the service answers 401, at most
 * `retryLimit + 1` times.
 *
 * `Fulfill` is the imperative protocol over the collaborating objects;
 * `Fulfillment` is the same protocol as a function of what the collaborators
 * do, and `Fulfill` is proved to agree with it. The lemmas below state the
 * protocol's promises about `Fulfillment`.
 */
module Fulfill {
  import opened Platform
  import opened Authority
  import opened Logger

  /** `SereneRequest`: `prepare` builds a fresh transport request on every
      call; `parse` turns a response into the call's result or throws. */
  class SereneRequest {
    var prepared: nat
    const parse: Response -> Result<int>

    constructor (parse: Response -> Result<int>)
      ensures prepared == 0 && this.parse == parse
    {
      prepared := 0;
      this.parse := parse;
    }

    method Prepare() returns (fetchRequest: FetchRequest)
      modifies this
      ensures prepared == old(prepared) + 1
      ensures fetchRequest == FetchRequest(old(prepared), None)
    {
      fetchRequest := FetchRequest(prepared, None);
      prepared := prepared + 1;
    }
  }

  /** The `fetch` function: it answers the n-th request it is given with the
      n-th scripted reply, a response or a network failure. */
  class Transport {
    var sent: seq<Option<FetchRequest>>
    const replies: nat -> Result<Response>

    constructor (replies: nat -> Result<Response>)
      ensures sent == [] && this.replies == replies
    {
      sent := [];
      this.replies := replies;
    }

    method Fetch(fetchRequest: Option<FetchRequest>) returns (r: Result<Response>)
      modifies this
      ensures sent == old(sent) + [fetchRequest]
      ensures r == replies(|old(sent)|)
    {
      r := replies(|sent|);
      sent := sent + [fetchRequest];
    }
  }

  // ----- The protocol as a function -----

  /** What every collaborator does on each call. */
  datatype Script = Script(
    onRefresh: nat -> RefreshEffect,
    onAuthenticate: nat -> AuthenticateEffect,
    parse: Response -> Result<int>,
    replies: nat -> Result<Response>,
    throwsOn: nat -> Option<Fault>)

  /** The collaborators' state. */
  datatype World = World(auth: AuthorityState, prepared: nat, sent: seq<Option<FetchRequest>>, events: seq<LogEvent>)

  /** One step of a fulfillment, in the order it happens. */
  datatype Action =
    | Log(event: LogEvent)
    | CallPrepare(fetchRequest: FetchRequest)
    | CallAuthenticate(fetchRequest: FetchRequest)
    | CallFetch(sent: Option<FetchRequest>)
    | CallRefresh
    | CallParse(fetchResponse: Response)

  /** The collaborator whose failure ended a call. */
  datatype Step = AtLog | AtRefresh | AtAuthenticate | AtFetch | AtParse

  /** How a call ends: `parse`'s result on some attempt, the retry budget
      used up, or the fault a collaborator threw, passed on unchanged. */
  datatype Outcome =
    | Parsed(attempt: nat, value: int)
    | Exhausted(error: RestError)
    | Failed(step: Step, fault: Fault)

  datatype Run = Run(outcome: Outcome, world: World, trace: seq<Action>)

  /** After part of a call: either carry on from `world`, or the call is over. */
  datatype Progress = Next(world: World, trace: seq<Action>) | Stop(run: Run)

  function Prepend(t: seq<Action>, r: Run): Run
  {
    r.(trace := t + r.trace)
  }

  /** The retry test of `fulfill`: not ok and status 401. Since "ok" means a
      status from 200 to 299, this is just "status 401". */
  function StaleAuthorization(fetchResponse: Response): (stale: bool)
    ensures stale <==> fetchResponse.status == 401
  {
    !fetchResponse.Ok() && fetchResponse.status == 401
  }

  /** Deliver `event` to the logger. */
  function Deliver(sc: Script, w: World, event: LogEvent): (Option<Fault>, World)
  {
    (sc.throwsOn(|w.events|), w.(events := w.events + [event]))
  }

  /** Before the loop: refresh an authority that is not valid. */
  function Entry(sc: Script, w: World): Progress
  {
    if w.auth.isValid then Next(w, [])
    else
      var event := WillRefreshAuthority(None);
      var (logFault, w1) := Deliver(sc, w, event);
      if logFault.Some? then Stop(Run(Failed(AtLog, logFault.value), w1, [Log(event)]))
      else
        var (refreshFault, auth2) := RefreshStep(sc.onRefresh, w1.auth);
        var w2 := w1.(auth := auth2);
        if refreshFault.Some? then Stop(Run(Failed(AtRefresh, refreshFault.value), w2, [Log(event), CallRefresh]))
        else Next(w2, [Log(event), CallRefresh])
  }

  /** One pass of the loop, attempt number `retry`. */
  function Attempt(sc: Script, w: World, retry: nat): Progress
  {
    var prepared := FetchRequest(w.prepared, None);
    var w1 := w.(prepared := w.prepared + 1);
    var t1 := [CallPrepare(prepared), Log(WillAuthenticate(prepared))];
    var (fault1, w2) := Deliver(sc, w1, WillAuthenticate(prepared));
    if fault1.Some? then Stop(Run(Failed(AtLog, fault1.value), w2, t1))
    else
      var (authenticated, auth3) := AuthenticateStep(sc.onAuthenticate, w2.auth, prepared);
      var w3 := w2.(auth := auth3);
      var t3 := t1 + [CallAuthenticate(prepared)];
      if authenticated.Err? then Stop(Run(Failed(AtAuthenticate, authenticated.fault), w3, t3))
      else
        var toSend := authenticated.value;
        var t4 := t3 + [Log(WillFetch(toSend))];
        var (fault4, w4) := Deliver(sc, w3, WillFetch(toSend));
        if fault4.Some? then Stop(Run(Failed(AtLog, fault4.value), w4, t4))
        else
          var reply := sc.replies(|w4.sent|);
          var w5 := w4.(sent := w4.sent + [toSend]);
          var t5 := t4 + [CallFetch(toSend)];
          if reply.Err? then Stop(Run(Failed(AtFetch, reply.fault), w5, t5))
          else if StaleAuthorization(reply.value) then
            var t6 := t5 + [Log(WillRefreshAuthority(Some(retry)))];
            var (fault6, w6) := Deliver(sc, w5, WillRefreshAuthority(Some(retry)));
            if fault6.Some? then Stop(Run(Failed(AtLog, fault6.value), w6, t6))
            else
              var (refreshFault, auth7) := RefreshStep(sc.onRefresh, w6.auth);
              var w7 := w6.(auth := auth7);
              var t7 := t6 + [CallRefresh];
              if refreshFault.Some? then Stop(Run(Failed(AtRefresh, refreshFault.value), w7, t7))
              else Next(w7, t7)
          else
            var t6 := t5 + [Log(WillParse(reply.value))];
            var (fault6, w6) := Deliver(sc, w5, WillParse(reply.value));
            if fault6.Some? then Stop(Run(Failed(AtLog, fault6.value), w6, t6))
            else
              var t7 := t6 + [CallParse(reply.value)];
              match sc.parse(reply.value)
              case Ok(v) => Stop(Run(Parsed(retry, v), w6, t7))
              case Err(f) => Stop(Run(Failed(AtParse, f), w6, t7))
  }

  /** Attempts `retry` to `limit`, then the exhaustion error. */
  function Loop(sc: Script, w: World, retry: nat, limit: nat): Run
    decreases limit + 1 - retry
  {
    if retry > limit then Run(Exhausted(RetryLimitExceeded()), w, [])
    else
      match Attempt(sc, w, retry)
      case Stop(r) => r
      case Next(w', t) => Prepend(t, Loop(sc, w', retry + 1, limit))
  }

  /** A whole call. The retry limit is read once, after the entry refresh. */
  function Fulfillment(sc: Script, w: World): Run
  {
    match Entry(sc, w)
    case Stop(r) => r
    case Next(w', t) => Prepend(t, Loop(sc, w', 0, w'.auth.retryLimit))
  }

  // ----- The protocol over the objects -----

  function ScriptOf(authority: SereneAuthority, request: SereneRequest, transport: Transport, logger: SereneLogger): Script
  {
    Script(authority.onRefresh, authority.onAuthenticate, request.parse, transport.replies, logger.throwsOn)
  }

  function WorldOf(authority: SereneAuthority, request: SereneRequest, transport: Transport, logger: SereneLogger): World
    reads authority, request, transport, logger
  {
    World(authority.State(), request.prepared, transport.sent, logger.events)
  }

  /** The start of `fulfill`: an authority that is not valid is refreshed
      once, announced by an event without a retry index. */
  method RefreshIfInvalid(authority: SereneAuthority, request: SereneRequest, transport: Transport, logger: SereneLogger)
    returns (stop: Option<Outcome>, ghost trace: seq<Action>)
    modifies authority, logger
    ensures Entry(ScriptOf(authority, request, transport, logger), old(WorldOf(authority, request, transport, logger)))
      == if stop.None? then Next(WorldOf(authority, request, transport, logger), trace)
         else Stop(Run(stop.value, WorldOf(authority, request, transport, logger), trace))
  {
    trace := [];
    stop := None;
    if !authority.isValid {
      var event := WillRefreshAuthority(None);
      var logFault := logger.Log(event);
      trace := trace + [Log(event)];
      if logFault.Some? {
        return Some(Failed(AtLog, logFault.value)), trace;
      }
      var refreshFault := authority.Refresh();
      trace := trace + [CallRefresh];
      if refreshFault.Some? {
        return Some(Failed(AtRefresh, refreshFault.value)), trace;
      }
    }
  }

  /** One pass of the loop of `fulfill`: `None` when the pass ends in a
      refresh after a 401 and the loop goes on. */
  method Try(authority: SereneAuthority, request: SereneRequest, transport: Transport, logger: SereneLogger, retry: nat)
    returns (stop: Option<Outcome>, ghost trace: seq<Action>)
    modifies authority, request, transport, logger
    ensures Attempt(ScriptOf(authority, request, transport, logger), old(WorldOf(authority, request, transport, logger)), retry)
      == if stop.None? then Next(WorldOf(authority, request, transport, logger), trace)
         else Stop(Run(stop.value, WorldOf(authority, request, transport, logger), trace))
  {
    var unauthenticated := request.Prepare();
    var event := WillAuthenticate(unauthenticated);
    var logFault := logger.Log(event);
    trace := [CallPrepare(unauthenticated), Log(event)];
    if logFault.Some? {
      return Some(Failed(AtLog, logFault.value)), trace;
    }
    var authenticated := authority.Authenticate(unauthenticated);
    trace := trace + [CallAuthenticate(unauthenticated)];
    if authenticated.Err? {
      return Some(Failed(AtAuthenticate, authenticated.fault)), trace;
    }
    var fetchRequest := authenticated.value;
    logFault := logger.Log(WillFetch(fetchRequest));
    trace := trace + [Log(WillFetch(fetchRequest))];
    if logFault.Some? {
      return Some(Failed(AtLog, logFault.value)), trace;
    }
    var reply := transport.Fetch(fetchRequest);
    trace := trace + [CallFetch(fetchRequest)];
    if reply.Err? {
      return Some(Failed(AtFetch, reply.fault)), trace;
    }
    var fetchResponse := reply.value;
    if !fetchResponse.Ok() && fetchResponse.status == 401 {
      logFault := logger.Log(WillRefreshAuthority(Some(retry)));
      trace := trace + [Log(WillRefreshAuthority(Some(retry)))];
      if logFault.Some? {
        return Some(Failed(AtLog, logFault.value)), trace;
      }
      var refreshFault := authority.Refresh();
      trace := trace + [CallRefresh];
      if refreshFault.Some? {
        return Some(Failed(AtRefresh, refreshFault.value)), trace;
      }
      return None, trace;
    }
    logFault := logger.Log(WillParse(fetchResponse));
    trace := trace + [Log(WillParse(fetchResponse))];
    if logFault.Some? {
      return Some(Failed(AtLog, logFault.value)), trace;
    }
    var parsed := request.parse(fetchResponse);
    trace := trace + [CallParse(fetchResponse)];
    match parsed
    case Ok(v) => stop := Some(Parsed(retry, v));
    case Err(f) => stop := Some(Failed(AtParse, f));
  }

  /** `fulfill({ authority, request, fetch, logger })`. `trace` is the order
      in which the collaborators were called. */
  method Fulfill(authority: SereneAuthority, request: SereneRequest, transport: Transport, logger: SereneLogger)
    returns (outcome: Outcome, ghost trace: seq<Action>)
    modifies authority, request, transport, logger
    ensures var r := Fulfillment(ScriptOf(authority, request, transport, logger), old(WorldOf(authority, request, transport, logger)));
      && outcome == r.outcome
      && trace == r.trace
      && WorldOf(authority, request, transport, logger) == r.world
  {
    ghost var sc := ScriptOf(authority, request, transport, logger);
    ghost var w0 := WorldOf(authority, request, transport, logger);
    var stop;
    stop, trace := RefreshIfInvalid(authority, request, transport, logger);
    if stop.Some? {
      return stop.value, trace;
    }
    var retryLimit := authority.retryLimit;
    for retry := 0 to retryLimit + 1
      invariant Prepend(trace, Loop(sc, WorldOf(authority, request, transport, logger), retry, retryLimit)) == Fulfillment(sc, w0)
    {
      var ended, attemptTrace := Try(authority, request, transport, logger, retry);
      trace := trace + attemptTrace;
      if ended.Some? {
        return ended.value, trace;
      }
    }
    outcome := Exhausted(RetryLimitExceeded());
  }
}
