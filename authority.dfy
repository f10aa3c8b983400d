/**
 * The authority contract (`SereneAuthority`): an object that decides whether
 * requests can be authenticated right now, can refresh its own credentials,
 * and applies them to outgoing requests. Its state changes in place when it
 * is refreshed, so it is a class.
 *
 * A concrete authority's behaviour is opaque to the protocol, so the class is
 * parameterised by what its n-th `refresh` and n-th `authenticate` call do.
 * The model's authority is narrower than the contract: `isValid` changes only
 * when `refresh` runs, and `authenticate` changes nothing but its call count
 * and yields the given request with the current credential, no value, or a
 * fault.
 */
module Authority {
  import opened Platform

  /** What the protocol can observe of an authority, plus the number of
      `refresh` and `authenticate` calls made so far. */
  datatype AuthorityState = AuthorityState(
    isValid: bool,
    retryLimit: nat,
    credential: nat,
    refreshes: nat,
    authentications: nat)

  /** What one `refresh` call does: renew the credentials (and with them
      `isValid` and possibly `retryLimit`), or throw. */
  datatype RefreshEffect =
    | Renewed(valid: bool, retryLimit: nat, credential: nat)
    | RefreshFailed(fault: Fault)

  /** What one `authenticate` call does. */
  datatype AuthenticateEffect =
    | Stamp                              // yields the request carrying the current credential
    | NoValue                            // yields nothing, as the declared `Promise<void>` does
    | AuthenticateFailed(fault: Fault)   // throws

  /** The state after one `refresh` call, and the fault it threw, if any. */
  function RefreshStep(plan: nat -> RefreshEffect, s: AuthorityState): (Option<Fault>, AuthorityState)
  {
    var counted := s.(refreshes := s.refreshes + 1);
    match plan(s.refreshes)
    case Renewed(valid, limit, credential) =>
      (None, counted.(isValid := valid, retryLimit := limit, credential := credential))
    case RefreshFailed(f) => (Some(f), counted)
  }

  /** What one `authenticate` call yields (`None` is "no value"), and the
      state after it. */
  function AuthenticateStep(plan: nat -> AuthenticateEffect, s: AuthorityState, fetchRequest: FetchRequest)
    : (Result<Option<FetchRequest>>, AuthorityState)
  {
    var counted := s.(authentications := s.authentications + 1);
    match plan(s.authentications)
    case Stamp => (Ok(Some(fetchRequest.(credential := Some(s.credential)))), counted)
    case NoValue => (Ok(None), counted)
    case AuthenticateFailed(f) => (Err(f), counted)
  }

  /** A successful `refresh` sets `isValid` to what the renewal says and
      counts the call; a failed one changes nothing but the count. */
  lemma RefreshDecidesValidity(plan: nat -> RefreshEffect, s: AuthorityState)
    ensures var (failure, s') := RefreshStep(plan, s);
      && s'.refreshes == s.refreshes + 1
      && s'.authentications == s.authentications
      && (failure.None? <==> plan(s.refreshes).Renewed?)
      && (failure.None? ==> s'.isValid == plan(s.refreshes).valid)
      && (failure.Some? ==> s' == s.(refreshes := s.refreshes + 1) && failure.value == plan(s.refreshes).fault)
  {
  }

  /** `authenticate` never changes validity, retry limit or credentials, and
      a request it yields is the one it was given, with a credential applied. */
  lemma AuthenticateKeepsState(plan: nat -> AuthenticateEffect, s: AuthorityState, fetchRequest: FetchRequest)
    ensures var (r, s') := AuthenticateStep(plan, s, fetchRequest);
      && s' == s.(authentications := s.authentications + 1)
      && (r.Err? <==> plan(s.authentications).AuthenticateFailed?)
      && (r.Ok? && r.value.Some? ==> r.value.value.serial == fetchRequest.serial && r.value.value.credential.Some?)
  {
  }

  // ----- The reference implementation `NoAuthority` -----

  /** `NoAuthority`'s getters: it never needs refreshing and allows no retry. */
  predicate IsNoAuthority(s: AuthorityState)
  {
    s.isValid && s.retryLimit == 0 && s.credential == 0
  }

  /** `NoAuthority.refresh` does nothing. */
  function NoAuthorityRefresh(n: nat): RefreshEffect
  {
    Renewed(true, 0, 0)
  }

  /** `NoAuthority.authenticate` does nothing and yields no value. */
  function NoAuthorityAuthenticate(n: nat): AuthenticateEffect
  {
    NoValue
  }

  /** Neither of `NoAuthority`'s operations changes its state (beyond the
      call counters) or throws, and `authenticate` yields no value. */
  lemma NoAuthorityIsInert(s: AuthorityState, fetchRequest: FetchRequest)
    requires IsNoAuthority(s)
    ensures var (failure, s') := RefreshStep(NoAuthorityRefresh, s);
      failure.None? && s' == s.(refreshes := s.refreshes + 1) && IsNoAuthority(s')
    ensures var (r, s') := AuthenticateStep(NoAuthorityAuthenticate, s, fetchRequest);
      r == Ok(None) && s' == s.(authentications := s.authentications + 1) && IsNoAuthority(s')
  {
  }

  /** An authority object. Its fields are what `SereneAuthority` exposes
      (`isValid`, `retryLimit`) and what its operations change. */
  class SereneAuthority {
    var isValid: bool
    var retryLimit: nat
    var credential: nat
    var refreshes: nat
    var authentications: nat
    const onRefresh: nat -> RefreshEffect
    const onAuthenticate: nat -> AuthenticateEffect

    function State(): AuthorityState
      reads this
    {
      AuthorityState(isValid, retryLimit, credential, refreshes, authentications)
    }

    constructor (isValid: bool, retryLimit: nat, onRefresh: nat -> RefreshEffect, onAuthenticate: nat -> AuthenticateEffect)
      ensures State() == AuthorityState(isValid, retryLimit, 0, 0, 0)
      ensures this.onRefresh == onRefresh && this.onAuthenticate == onAuthenticate
    {
      this.isValid, this.retryLimit, this.credential := isValid, retryLimit, 0;
      this.refreshes, this.authentications := 0, 0;
      this.onRefresh, this.onAuthenticate := onRefresh, onAuthenticate;
    }

    /** `new NoAuthority()`. */
    constructor NoAuthority()
      ensures State() == AuthorityState(true, 0, 0, 0, 0) && IsNoAuthority(State())
      ensures onRefresh == NoAuthorityRefresh && onAuthenticate == NoAuthorityAuthenticate
    {
      isValid, retryLimit, credential := true, 0, 0;
      refreshes, authentications := 0, 0;
      onRefresh, onAuthenticate := NoAuthorityRefresh, NoAuthorityAuthenticate;
    }

    /** `refresh`: renews the credentials or throws; `isValid` afterwards
        reflects the new state. */
    method Refresh() returns (failure: Option<Fault>)
      modifies this
      ensures (failure, State()) == RefreshStep(onRefresh, old(State()))
    {
      var effect := onRefresh(refreshes);
      refreshes := refreshes + 1;
      match effect
      case Renewed(valid, limit, c) =>
        isValid, retryLimit, credential := valid, limit, c;
        failure := None;
      case RefreshFailed(f) =>
        failure := Some(f);
    }

    /** `authenticate`: yields the request to transmit, nothing, or throws. */
    method Authenticate(fetchRequest: FetchRequest) returns (r: Result<Option<FetchRequest>>)
      modifies this
      ensures (r, State()) == AuthenticateStep(onAuthenticate, old(State()), fetchRequest)
    {
      var effect := onAuthenticate(authentications);
      authentications := authentications + 1;
      match effect
      case Stamp => r := Ok(Some(fetchRequest.(credential := Some(credential))));
      case NoValue => r := Ok(None);
      case AuthenticateFailed(f) => r := Err(f);
    }
  }
}
