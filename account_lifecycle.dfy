/**
 * The account state machine over whole sequences of requests.
 *
 * An account is absent, then stored unverified (after a signup), then
 * verified (after a token naming it is redeemed); no request deletes an
 * account, changes its id, name, email or digest, or makes it unverified
 * again. From an empty store, a login succeeds only for an email that was
 * signed up with that password and then verified by a later request.
 */
module AccountLifecycle {

  import opened Wrappers
  import opened Hashing
  import opened Tokens
  import opened Validation
  import opened UserController

  datatype Request =
    | SignupCall(req: SignupRequest, salt: string, mailFault: Option<string>)
    | VerifyCall(token: Jwt)
    | LoginCall(email: string, password: string)

  /** A request and the time it is handled at. */
  datatype Event = Event(now: int, request: Request)

  const Empty := State(map[], 0)

  /** The store after one request; a login reads the store only. */
  function Step(s: State, ev: Event, checks: Checks, baseUrl: string): State
  {
    match ev.request
    case SignupCall(req, salt, mailFault) => SignupSpec(s, req, checks, salt, ev.now, baseUrl, mailFault).state
    case VerifyCall(t) => VerifyEmailSpec(s, t, ev.now).state
    case LoginCall(_, _) => s
  }

  /** The store after the requests of `trace`, handled one after the other. */
  function Run(s: State, trace: seq<Event>, checks: Checks, baseUrl: string): State
  {
    if trace == [] then s
    else Step(Run(s, trace[..|trace| - 1], checks, baseUrl), trace[|trace| - 1], checks, baseUrl)
  }

  /** `s2` keeps every account of `s1` with the same id, name, email and
      digest, and keeps verified every account that was verified. */
  ghost predicate Persists(s1: State, s2: State)
  {
    && s1.nextId <= s2.nextId
    && forall e | e in s1.accounts ::
         && e in s2.accounts
         && s2.accounts[e] == s1.accounts[e].(isVerified := s2.accounts[e].isVerified)
         && (s1.accounts[e].isVerified ==> s2.accounts[e].isVerified)
  }

  /** `ev` is a signup of `email` with `password`. */
  predicate SignsUp(ev: Event, email: string, password: string)
  {
    ev.request.SignupCall? && ev.request.req.email == email && ev.request.req.password == password
  }

  /** `ev` presents, in time, an authentic verification token for `email`. */
  predicate Redeems(ev: Event, email: string)
  {
    && ev.request.VerifyCall?
    && Decode(ev.request.token, ev.now).Ok?
    && ev.request.token.claims.VerificationClaims?
    && ev.request.token.claims.email == email
  }

  lemma StepPersists(s: State, ev: Event, checks: Checks, baseUrl: string)
    ensures Persists(s, Step(s, ev, checks, baseUrl))
  {
  }

  lemma {:induction false} RunKeepsWf(s: State, trace: seq<Event>, checks: Checks, baseUrl: string)
    requires Wf(s)
    ensures Wf(Run(s, trace, checks, baseUrl))
  {
    if trace != [] {
      var before := trace[..|trace| - 1];
      var ev := trace[|trace| - 1];
      RunKeepsWf(s, before, checks, baseUrl);
      var mid := Run(s, before, checks, baseUrl);
      match ev.request
      case SignupCall(req, salt, mailFault) => SignupKeepsWf(mid, req, checks, salt, ev.now, baseUrl, mailFault);
      case VerifyCall(t) => VerifyEmailKeepsWf(mid, t, ev.now);
      case LoginCall(_, _) =>
    }
  }

  /** No sequence of requests deletes an account, alters anything of it but
      `isVerified`, or turns a verified account back to unverified. */
  lemma {:induction false} RunPersists(s: State, trace: seq<Event>, checks: Checks, baseUrl: string)
    ensures Persists(s, Run(s, trace, checks, baseUrl))
  {
    if trace != [] {
      var before := trace[..|trace| - 1];
      RunPersists(s, before, checks, baseUrl);
      StepPersists(Run(s, before, checks, baseUrl), trace[|trace| - 1], checks, baseUrl);
    }
  }

  lemma {:induction false} RunAppend(s: State, t: seq<Event>, u: seq<Event>, checks: Checks, baseUrl: string)
    ensures Run(s, t + u, checks, baseUrl) == Run(Run(s, t, checks, baseUrl), u, checks, baseUrl)
  {
    if u == [] {
      assert t + u == t;
    } else {
      assert (t + u)[..|t + u| - 1] == t + u[..|u| - 1];
      RunAppend(s, t, u[..|u| - 1], checks, baseUrl);
    }
  }

  /** Every account that was not there at the start was created by a signup
      of its email, with the password its digest matches. */
  lemma {:induction false} AccountOrigin(s: State, trace: seq<Event>, checks: Checks, baseUrl: string, email: string)
    requires email in Run(s, trace, checks, baseUrl).accounts && email !in s.accounts
    ensures exists i, p :: 0 <= i < |trace| && SignsUp(trace[i], email, p)
              && Matches(p, Run(s, trace, checks, baseUrl).accounts[email].passwordHash)
  {
    var n := |trace| - 1;
    var before := trace[..n];
    var mid := Run(s, before, checks, baseUrl);
    var last := Run(s, trace, checks, baseUrl);
    if email in mid.accounts {
      AccountOrigin(s, before, checks, baseUrl, email);
      var i, p :| 0 <= i < |before| && SignsUp(before[i], email, p) && Matches(p, mid.accounts[email].passwordHash);
      StepPersists(mid, trace[n], checks, baseUrl);
      assert SignsUp(trace[i], email, p) && Matches(p, last.accounts[email].passwordHash);
    } else {
      assert SignsUp(trace[n], email, trace[n].request.req.password);
    }
  }

  /** A request that leaves an account verified which was not verified before
      redeemed a token for its email, and the account was stored unverified. */
  lemma StepVerification(s: State, ev: Event, checks: Checks, baseUrl: string, email: string)
    requires email in Step(s, ev, checks, baseUrl).accounts
    requires Step(s, ev, checks, baseUrl).accounts[email].isVerified
    requires !(email in s.accounts && s.accounts[email].isVerified)
    ensures Redeems(ev, email) && email in s.accounts && !s.accounts[email].isVerified
  {
  }

  /** Every account verified now but not at the start was verified by a request
      that redeemed a token for its email while the account was stored unverified. */
  lemma {:induction false} VerificationOrigin(s: State, trace: seq<Event>, checks: Checks, baseUrl: string, email: string)
    requires email in Run(s, trace, checks, baseUrl).accounts
    requires Run(s, trace, checks, baseUrl).accounts[email].isVerified
    requires !(email in s.accounts && s.accounts[email].isVerified)
    ensures exists j :: 0 <= j < |trace| && Redeems(trace[j], email)
              && email in Run(s, trace[..j], checks, baseUrl).accounts
              && !Run(s, trace[..j], checks, baseUrl).accounts[email].isVerified
  {
    var n := |trace| - 1;
    var before := trace[..n];
    var mid := Run(s, before, checks, baseUrl);
    assert Run(s, trace, checks, baseUrl) == Step(mid, trace[n], checks, baseUrl);
    if email in mid.accounts && mid.accounts[email].isVerified {
      VerificationOrigin(s, before, checks, baseUrl, email);
      var j :| 0 <= j < |before| && Redeems(before[j], email)
                 && email in Run(s, before[..j], checks, baseUrl).accounts
                 && !Run(s, before[..j], checks, baseUrl).accounts[email].isVerified;
      assert before[..j] == trace[..j];
      assert Redeems(trace[j], email);
    } else {
      StepVerification(mid, trace[n], checks, baseUrl, email);
      assert trace[..n] == before;
    }
  }

  /**
   * From an empty store, a login that succeeds names an email that some
   * earlier request signed up with the very password given, and that a
   * request after that signup verified.
   */
  lemma LoginNeedsSignupThenVerification(trace: seq<Event>, checks: Checks, baseUrl: string,
                                         email: string, password: string, now: int)
    requires LoginSpec(Run(Empty, trace, checks, baseUrl), email, password, now).status == 200
    ensures exists i, j :: 0 <= i < j < |trace| && SignsUp(trace[i], email, password) && Redeems(trace[j], email)
  {
    var last := Run(Empty, trace, checks, baseUrl);
    VerificationOrigin(Empty, trace, checks, baseUrl, email);
    var j :| 0 <= j < |trace| && Redeems(trace[j], email)
               && email in Run(Empty, trace[..j], checks, baseUrl).accounts;
    var mid := Run(Empty, trace[..j], checks, baseUrl);
    AccountOrigin(Empty, trace[..j], checks, baseUrl, email);
    var i, p :| 0 <= i < j && SignsUp(trace[..j][i], email, p) && Matches(p, mid.accounts[email].passwordHash);
    assert trace == trace[..j] + trace[j..];
    RunAppend(Empty, trace[..j], trace[j..], checks, baseUrl);
    RunPersists(mid, trace[j..], checks, baseUrl);
    assert p == password;
    assert SignsUp(trace[i], email, password);
  }
}
