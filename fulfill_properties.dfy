/**
 * What `fulfill` promises, stated about `Fulfillment` (which `Fulfill` is
 * proved to compute). Counts of calls are read off the collaborators:
 * `prepared` counts `prepare` calls, `sent` holds what the transport was
 * given, `auth.refreshes` counts `refresh` calls and `events` holds what the
 * logger received.
 */
module FulfillProperties {
  import opened Platform
  import opened Authority
  import opened Logger
  import opened Fulfill

  // ----- One attempt -----

  /** Every attempt prepares exactly one request; it transmits at most one,
      refreshes at most once and only after transmitting, and only ever
      adds to what the collaborators have seen. */
  lemma AttemptEffects(sc: Script, w: World, retry: nat)
    ensures Attempt(sc, w, retry).Next? ==>
      var w' := Attempt(sc, w, retry).world;
      && w'.prepared == w.prepared + 1
      && |w'.sent| == |w.sent| + 1 && w.sent <= w'.sent
      && w'.auth.refreshes == w.auth.refreshes + 1
    ensures Attempt(sc, w, retry).Stop? ==>
      var r := Attempt(sc, w, retry).run;
      && r.world.prepared == w.prepared + 1
      && w.sent <= r.world.sent && |r.world.sent| <= |w.sent| + 1
      && w.auth.refreshes <= r.world.auth.refreshes <= w.auth.refreshes + (|r.world.sent| - |w.sent|)
      && !r.outcome.Exhausted?
      && (r.outcome.Parsed? ==>
            r.outcome.attempt == retry && |r.world.sent| == |w.sent| + 1 && r.world.auth.refreshes == w.auth.refreshes)
  {
  }

  /** The 401 rule: an attempt leads to another one exactly when every step
      succeeds and the response is a 401, and then its steps are, in order:
      prepare, the `willAuthenticate` event, authenticate, the `willFetch`
      event, the transmission of what `authenticate` yielded, the
      `willRefreshAuthority` event carrying this attempt's index, refresh. */
  lemma UnauthorizedRetries(sc: Script, w: World, retry: nat)
    ensures var prepared := FetchRequest(w.prepared, None);
      var authenticated := AuthenticateStep(sc.onAuthenticate, w.auth, prepared).0;
      && (Attempt(sc, w, retry).Next? <==>
            && sc.throwsOn(|w.events|).None?
            && authenticated.Ok?
            && sc.throwsOn(|w.events| + 1).None?
            && sc.replies(|w.sent|).Ok? && sc.replies(|w.sent|).value.status == 401
            && sc.throwsOn(|w.events| + 2).None?
            && sc.onRefresh(w.auth.refreshes).Renewed?)
      && (Attempt(sc, w, retry).Next? ==>
            Attempt(sc, w, retry).trace == [
              CallPrepare(prepared), Log(WillAuthenticate(prepared)), CallAuthenticate(prepared),
              Log(WillFetch(authenticated.value)), CallFetch(authenticated.value),
              Log(WillRefreshAuthority(Some(retry))), CallRefresh])
  {
  }

  /** Any response other than a 401, a not-ok 404 or 500 included, is
      announced by `willParse` and handed to `parse` on the same attempt;
      the call ends with `parse`'s result or fault, without a refresh. */
  lemma OtherResponsesAreParsed(sc: Script, w: World, retry: nat)
    requires sc.throwsOn(|w.events|).None? && sc.throwsOn(|w.events| + 1).None?
    requires AuthenticateStep(sc.onAuthenticate, w.auth, FetchRequest(w.prepared, None)).0.Ok?
    requires sc.replies(|w.sent|).Ok? && sc.replies(|w.sent|).value.status != 401
    ensures Attempt(sc, w, retry).Stop?
    ensures var prepared := FetchRequest(w.prepared, None);
      var toSend := AuthenticateStep(sc.onAuthenticate, w.auth, prepared).0.value;
      var response := sc.replies(|w.sent|).value;
      var r := Attempt(sc, w, retry).run;
      && r.world.auth.refreshes == w.auth.refreshes
      && r.world.sent == w.sent + [toSend]
      && |r.trace| >= 6
      && r.trace[..6] == [
           CallPrepare(prepared), Log(WillAuthenticate(prepared)), CallAuthenticate(prepared),
           Log(WillFetch(toSend)), CallFetch(toSend), Log(WillParse(response))]
      && (sc.throwsOn(|w.events| + 2).None? ==>
            && r.trace == r.trace[..6] + [CallParse(response)]
            && r.outcome == (match sc.parse(response)
                             case Ok(v) => Parsed(retry, v)
                             case Err(f) => Failed(AtParse, f)))
  {
  }

  // ----- The whole loop -----

  /** From attempt `retry` to `limit`: at most one attempt per index, with
      exactly one `prepare` each, at most one transmission each, and at
      most one refresh per transmission. */
  lemma {:induction false} LoopCounts(sc: Script, w: World, retry: nat, limit: nat)
    requires retry <= limit + 1
    decreases limit + 1 - retry
    ensures var r := Loop(sc, w, retry, limit);
      var prepares := r.world.prepared - w.prepared;
      var fetches := |r.world.sent| - |w.sent|;
      var refreshes := r.world.auth.refreshes - w.auth.refreshes;
      && w.sent <= r.world.sent
      && 0 <= fetches <= prepares <= fetches + 1
      && prepares <= limit + 1 - retry
      && 0 <= refreshes <= fetches
  {
    if retry <= limit {
      AttemptEffects(sc, w, retry);
      match Attempt(sc, w, retry)
      case Stop(r) =>
      case Next(w', t) =>
        LoopCounts(sc, w', retry + 1, limit);
    }
  }

  /** How the loop ends: exhaustion happens after every one of the
      remaining attempts transmitted and refreshed; a parsed result comes
      from the attempt it names, after one refresh per earlier attempt. */
  lemma {:induction false} LoopEffects(sc: Script, w: World, retry: nat, limit: nat)
    requires retry <= limit + 1
    decreases limit + 1 - retry
    ensures var r := Loop(sc, w, retry, limit);
      var prepares := r.world.prepared - w.prepared;
      var fetches := |r.world.sent| - |w.sent|;
      var refreshes := r.world.auth.refreshes - w.auth.refreshes;
      && (r.outcome.Exhausted? ==>
            && r.outcome.error == RetryLimitExceeded()
            && prepares == fetches == refreshes == limit + 1 - retry)
      && (r.outcome.Parsed? ==>
            && retry <= r.outcome.attempt <= limit
            && prepares == fetches == r.outcome.attempt - retry + 1
            && refreshes == r.outcome.attempt - retry)
  {
    if retry <= limit {
      AttemptEffects(sc, w, retry);
      match Attempt(sc, w, retry)
      case Stop(r) =>
      case Next(w', t) =>
        LoopEffects(sc, w', retry + 1, limit);
    }
  }

  // ----- A whole call -----

  /** The start of a call: an authority that is valid is not refreshed
      before the first `prepare`; one that is not valid is refreshed exactly
      once, announced by a `willRefreshAuthority` event without a retry
      index, and if that refresh throws, nothing is transmitted. */
  lemma EntryRefresh(sc: Script, w: World)
    ensures var r := Fulfillment(sc, w);
      var prepared := FetchRequest(w.prepared, None);
      && |r.trace| > 0
      && (w.auth.isValid ==> r.trace[0] == CallPrepare(prepared))
      && (!w.auth.isValid ==>
            && r.trace[0] == Log(WillRefreshAuthority(None))
            && (sc.throwsOn(|w.events|).Some? ==>
                  r.trace == [r.trace[0]] && r.outcome == Failed(AtLog, sc.throwsOn(|w.events|).value))
            && (sc.throwsOn(|w.events|).None? ==>
                  && |r.trace| > 1 && r.trace[1] == CallRefresh
                  && (sc.onRefresh(w.auth.refreshes).RefreshFailed? ==>
                        && r.trace == r.trace[..2]
                        && r.outcome == Failed(AtRefresh, sc.onRefresh(w.auth.refreshes).fault)
                        && r.world.sent == w.sent)
                  && (sc.onRefresh(w.auth.refreshes).Renewed? ==>
                        |r.trace| > 2 && r.trace[2] == CallPrepare(prepared))))
  {
    match Entry(sc, w)
    case Stop(r) =>
    case Next(w', t) =>
      assert w'.prepared == w.prepared;
      match Attempt(sc, w', 0)
      case Stop(r) =>
      case Next(w'', t') =>
  }

  /** Calls and attempts of a whole call. `retryLimit` is read once, after
      the entry refresh (`LimitRead`): later refreshes may change it without
      effect. There are at most `LimitRead + 1` attempts, one `prepare` and
      at most one transmission each. Exhaustion means exactly `LimitRead + 1`
      transmissions and as many refreshes after 401s, plus the entry refresh
      if the authority was not valid; it then carries the fixed error
      401 "Unauthorized" "Retry limit exceeded". */
  lemma FulfillmentEffects(sc: Script, w: World)
    ensures var r := Fulfillment(sc, w);
      var prepares := r.world.prepared - w.prepared;
      var fetches := |r.world.sent| - |w.sent|;
      var refreshes := r.world.auth.refreshes - w.auth.refreshes;
      var entry := if w.auth.isValid then 0 else 1;
      && w.sent <= r.world.sent
      && 0 <= fetches <= prepares <= fetches + 1
      && 0 <= refreshes <= fetches + entry
      && (Entry(sc, w).Stop? ==> prepares == 0 && fetches == 0)
      && (Entry(sc, w).Next? ==> prepares <= LimitRead(sc, w) + 1)
      && (r.outcome.Exhausted? ==>
            && Entry(sc, w).Next?
            && r.outcome.error == RestError(401, "Unauthorized", "Retry limit exceeded")
            && prepares == fetches == LimitRead(sc, w) + 1
            && refreshes == LimitRead(sc, w) + 1 + entry)
      && (r.outcome.Parsed? ==>
            && r.outcome.attempt <= LimitRead(sc, w)
            && prepares == fetches == r.outcome.attempt + 1
            && refreshes == r.outcome.attempt + entry)
  {
    match Entry(sc, w)
    case Stop(r) =>
    case Next(w', t) =>
      LoopCounts(sc, w', 0, w'.auth.retryLimit);
      LoopEffects(sc, w', 0, w'.auth.retryLimit);
  }

  /** The retry limit `fulfill` uses: the authority's, as it stands after
      the entry refresh. */
  function LimitRead(sc: Script, w: World): nat
  {
    match Entry(sc, w)
    case Next(w', _) => w'.auth.retryLimit
    case Stop(_) => w.auth.retryLimit
  }

  /** No step fails. */
  ghost predicate Smooth(sc: Script)
  {
    && (forall n: nat :: sc.throwsOn(n).None?)
    && (forall n: nat :: sc.onRefresh(n).Renewed?)
    && (forall n: nat :: !sc.onAuthenticate(n).AuthenticateFailed?)
  }

  lemma {:induction false} LoopAllUnauthorized(sc: Script, w: World, retry: nat, limit: nat)
    requires Smooth(sc)
    requires forall n: nat :: sc.replies(n) == Ok(Response(401))
    requires retry <= limit + 1
    decreases limit + 1 - retry
    ensures Loop(sc, w, retry, limit).outcome.Exhausted?
  {
    if retry <= limit {
      UnauthorizedRetries(sc, w, retry);
      LoopAllUnauthorized(sc, Attempt(sc, w, retry).world, retry + 1, limit);
    }
  }

  /** When every response is a 401 and nothing throws, the call ends with
      the exhaustion error after `LimitRead + 1` transmissions, where
      `LimitRead` is the limit after the entry refresh, whatever the later
      refreshes do to the authority's `retryLimit`. */
  lemma AllUnauthorizedExhausts(sc: Script, w: World)
    requires Smooth(sc)
    requires forall n: nat :: sc.replies(n) == Ok(Response(401))
    ensures var r := Fulfillment(sc, w);
      && r.outcome == Exhausted(RestError(401, "Unauthorized", "Retry limit exceeded"))
      && LimitRead(sc, w) == (if w.auth.isValid then w.auth.retryLimit else sc.onRefresh(w.auth.refreshes).retryLimit)
      && |r.world.sent| == |w.sent| + LimitRead(sc, w) + 1
      && r.world.auth.refreshes == w.auth.refreshes + LimitRead(sc, w) + 1 + (if w.auth.isValid then 0 else 1)
  {
    assert sc.throwsOn(|w.events|).None?;
    assert sc.onRefresh(w.auth.refreshes).Renewed?;
    match Entry(sc, w)
    case Next(w', t) =>
      LoopAllUnauthorized(sc, w', 0, w'.auth.retryLimit);
      FulfillmentEffects(sc, w);
  }

  /** A non-401 answer to the first transmission of a valid authority goes
      to `parse` on attempt 0: one transmission, no refresh. */
  lemma FirstAnswerParsed(sc: Script, w: World)
    requires w.auth.isValid
    requires sc.throwsOn(|w.events|).None? && sc.throwsOn(|w.events| + 1).None? && sc.throwsOn(|w.events| + 2).None?
    requires AuthenticateStep(sc.onAuthenticate, w.auth, FetchRequest(w.prepared, None)).0.Ok?
    requires sc.replies(|w.sent|).Ok? && sc.replies(|w.sent|).value.status != 401
    ensures var r := Fulfillment(sc, w);
      && r.outcome == (match sc.parse(sc.replies(|w.sent|).value)
                       case Ok(v) => Parsed(0, v)
                       case Err(f) => Failed(AtParse, f))
      && |r.world.sent| == |w.sent| + 1
      && r.world.auth.refreshes == w.auth.refreshes
  {
    OtherResponsesAreParsed(sc, w, 0);
  }

  /** With a retry limit of 1 and a valid authority, a 401 followed by a 200
      gives `parse`'s value for the second response, on attempt 1, after one
      refresh and two transmissions. */
  lemma UnauthorizedThenOk(sc: Script, w: World, v: int)
    requires Smooth(sc)
    requires w.auth.isValid && w.auth.retryLimit == 1
    requires sc.replies(|w.sent|) == Ok(Response(401)) && sc.replies(|w.sent| + 1) == Ok(Response(200))
    requires sc.parse(Response(200)) == Ok(v)
    ensures var r := Fulfillment(sc, w);
      && r.outcome == Parsed(1, v)
      && |r.world.sent| == |w.sent| + 2
      && r.world.auth.refreshes == w.auth.refreshes + 1
  {
    UnauthorizedRetries(sc, w, 0);
    var w1 := Attempt(sc, w, 0).world;
    AttemptEffects(sc, w, 0);
    assert sc.throwsOn(|w1.events|).None? && sc.throwsOn(|w1.events| + 1).None? && sc.throwsOn(|w1.events| + 2).None?;
    assert !sc.onAuthenticate(w1.auth.authentications).AuthenticateFailed?;
    OtherResponsesAreParsed(sc, w1, 1);
  }

  /** The fault that ended a failed call is the one the failing collaborator
      threw on its last call, and that call is the last step of the call:
      nothing is attempted after it. */
  ghost predicate Propagated(sc: Script, r: Run)
  {
    r.outcome.Failed? ==>
      && |r.trace| > 0
      && var last := r.trace[|r.trace| - 1];
      match r.outcome.step
      case AtLog =>
        && last.Log? && |r.world.events| > 0
        && last.event == r.world.events[|r.world.events| - 1]
        && sc.throwsOn(|r.world.events| - 1) == Some(r.outcome.fault)
      case AtRefresh =>
        && last == CallRefresh && r.world.auth.refreshes > 0
        && sc.onRefresh(r.world.auth.refreshes - 1) == RefreshFailed(r.outcome.fault)
      case AtAuthenticate =>
        && last.CallAuthenticate? && r.world.auth.authentications > 0
        && sc.onAuthenticate(r.world.auth.authentications - 1) == AuthenticateFailed(r.outcome.fault)
      case AtFetch =>
        && last.CallFetch? && |r.world.sent| > 0
        && sc.replies(|r.world.sent| - 1) == Err(r.outcome.fault)
      case AtParse =>
        && last.CallParse?
        && sc.parse(last.fetchResponse) == Err(r.outcome.fault)
  }

  /** An attempt that ends the call passes on the fault that ended it. */
  lemma AttemptPropagates(sc: Script, w: World, retry: nat)
    requires Attempt(sc, w, retry).Stop?
    ensures Propagated(sc, Attempt(sc, w, retry).run)
  {
  }

  /** Steps before a failure do not change which step failed. */
  lemma PrependPropagates(sc: Script, t: seq<Action>, r: Run)
    requires Propagated(sc, r)
    ensures Propagated(sc, Prepend(t, r))
  {
    if r.outcome.Failed? {
      assert (t + r.trace)[|t + r.trace| - 1] == r.trace[|r.trace| - 1];
    }
  }

  lemma {:induction false} LoopPropagates(sc: Script, w: World, retry: nat, limit: nat)
    decreases limit + 1 - retry
    ensures Propagated(sc, Loop(sc, w, retry, limit))
  {
    if retry <= limit {
      match Attempt(sc, w, retry)
      case Stop(r) =>
        AttemptPropagates(sc, w, retry);
      case Next(w', t) =>
        LoopPropagates(sc, w', retry + 1, limit);
        PrependPropagates(sc, t, Loop(sc, w', retry + 1, limit));
    }
  }

  /** A failure in `refresh`, `authenticate`, the transport, `parse` or the
      logger ends the call with that very fault, at that step. */
  lemma FailurePropagates(sc: Script, w: World)
    ensures Propagated(sc, Fulfillment(sc, w))
  {
    match Entry(sc, w)
    case Stop(r) =>
    case Next(w', t) =>
      LoopPropagates(sc, w', 0, w'.auth.retryLimit);
  }

  /** Every refresh leaves the authority valid. */
  ghost predicate RefreshValidates(sc: Script)
  {
    forall n: nat :: sc.onRefresh(n).Renewed? && sc.onRefresh(n).valid
  }

  lemma {:induction false} LoopKeepsValid(sc: Script, w: World, retry: nat, limit: nat)
    requires w.auth.isValid && RefreshValidates(sc)
    decreases limit + 1 - retry
    ensures Loop(sc, w, retry, limit).world.auth.isValid
  {
    if retry <= limit {
      assert sc.onRefresh(w.auth.refreshes).Renewed?;
      match Attempt(sc, w, retry)
      case Stop(r) =>
      case Next(w', t) =>
        LoopKeepsValid(sc, w', retry + 1, limit);
    }
  }

  /** An authority that is not valid on entry and becomes valid when
      refreshed is valid when the call returns, whatever the outcome, as
      long as the entry refresh was reached. */
  lemma BecomesValid(sc: Script, w: World)
    requires !w.auth.isValid && RefreshValidates(sc)
    requires sc.throwsOn(|w.events|).None?
    ensures Fulfillment(sc, w).world.auth.isValid
  {
    assert sc.onRefresh(w.auth.refreshes).Renewed?;
    match Entry(sc, w)
    case Next(w', t) =>
      LoopKeepsValid(sc, w', 0, w'.auth.retryLimit);
  }

  // ----- NoAuthority -----

  /** With `NoAuthority` there is no entry refresh and a single attempt. */
  lemma NoAuthorityOneAttempt(sc: Script, w: World)
    requires IsNoAuthority(w.auth)
    ensures var r := Fulfillment(sc, w);
      && |r.trace| > 0 && r.trace[0] == CallPrepare(FetchRequest(w.prepared, None))
      && r.world.prepared == w.prepared + 1
      && |r.world.sent| <= |w.sent| + 1
      && (r.outcome.Parsed? ==> r.outcome.attempt == 0)
  {
    EntryRefresh(sc, w);
    FulfillmentEffects(sc, w);
  }

  /** `NoAuthority.authenticate` yields no value and `fulfill` transmits
      whatever `authenticate` yields, so the transport never receives the
      prepared request, only "no value". */
  lemma NoAuthorityTransmitsNoRequest(sc: Script, w: World)
    requires IsNoAuthority(w.auth)
    requires sc.onAuthenticate == NoAuthorityAuthenticate
    ensures var r := Fulfillment(sc, w);
      r.world.sent == w.sent || r.world.sent == w.sent + [None]
  {
    NoAuthorityOneAttempt(sc, w);
    AttemptEffects(sc, w, 0);
    match Attempt(sc, w, 0)
    case Stop(r) =>
    case Next(w', t) =>
      assert Loop(sc, w', 1, 0).world == w';
  }
}
