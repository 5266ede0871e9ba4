/**
 * The account workflow of controllers/userController.js: `signup`,
 * `verifyEmail` and `login` over a store of accounts keyed by email.
 *
 * An account is created unverified by a signup, becomes verified when a
 * verification token for its email is redeemed, and only a verified account
 * whose password matches can log in. Each handler is specified by a function
 * on the store (`SignupSpec`, `VerifyEmailSpec`, `LoginSpec`) that says what
 * it answers and what the store becomes; the `Controller` class runs the same
 * steps in place and is proved to agree with them.
 */
module UserController {

  import opened Wrappers
  import opened Hashing
  import opened Tokens
  import opened Http
  import opened Mailer
  import opened Validation

  /**
   * A stored user. `isVerified` is not set by `signup`; the user schema, which
   * is not part of this model, is taken to default it to `false`.
   */
  datatype Account = Account(id: nat, name: string, email: string, passwordHash: Digest, isVerified: bool)

  /** The store, keyed by email, and the id the next new account receives. */
  datatype State = State(accounts: map<string, Account>, nextId: nat)

  /** Every account sits under its own email, and ids are distinct and already handed out. */
  ghost predicate Wf(s: State)
  {
    && (forall e | e in s.accounts :: s.accounts[e].email == e && s.accounts[e].id < s.nextId)
    && (forall e1, e2 | e1 in s.accounts && e2 in s.accounts && e1 != e2 ::
          s.accounts[e1].id != s.accounts[e2].id)
  }

  /** What one request does: the new store, the mail delivered and the answer. */
  datatype Outcome = Outcome(state: State, sent: seq<Mail>, response: Response)

  const VerifyPath := "/api/user/verify/"
  const VerifySubject := "Verify your email"
  const ExpiredLinkText := "Verification link has expired. Please sign up again."
  const BadTokenText := "Invalid or expired token."
  const UnknownEmailText := "Invalid token"
  const AlreadyVerifiedText := "Email already verified"
  const VerifiedText := "Email verified successfully. You can now log in."
  const BadCredentialsText := "Invalid email or email not verified"
  const BadPasswordText := "Invalid password"

  /** The account a successful signup stores: the next id, the digest of the
      password and not yet verified. */
  function NewAccount(s: State, req: SignupRequest, salt: string): (a: Account)
    ensures a.email == req.email && a.name == req.name && a.id == s.nextId
    ensures !a.isVerified && Matches(req.password, a.passwordHash)
  {
    Account(s.nextId, req.name, req.email, Hash(req.password, salt), false)
  }

  /** The token a signup at `now` mails out: only name and email, valid one hour. */
  function VerificationToken(req: SignupRequest, now: int): (t: Jwt)
    ensures Decode(t, now).Ok? && Decode(t, now + VerificationTtl) == Expired
    ensures t.claims == VerificationClaims(req.name, req.email)
  {
    Sign(VerificationClaims(req.name, req.email), now, VerificationTtl)
  }

  /** The verification mail: to the new address, with `BASE_URL/api/user/verify/<token>`. */
  function VerificationMail(req: SignupRequest, token: Jwt, baseUrl: string): (m: Mail)
    ensures m.to == req.email && m.content.VerificationHtml?
    ensures m.content.link.prefix == baseUrl + "/api/user/verify/" && m.content.link.token == token
  {
    Mail(req.email, VerifySubject, VerificationHtml(req.name, Link(baseUrl + VerifyPath, token)))
  }

  /**
   * `signup`. A request that fails validation or names a stored email is
   * turned away with 400 before anything is written or sent. Otherwise the
   * account is stored first and the mail sent after, so a transport failure
   * answers 500 with the account already saved: nothing rolls it back.
   */
  function SignupSpec(s: State, req: SignupRequest, checks: Checks, salt: string, now: int,
                      baseUrl: string, mailFault: Option<string>): (o: Outcome)
    ensures o.response.status in {201, 400, 500}
    ensures o.response.status == 400 <==>
              SignupErrors(req, checks) != [] || req.email in s.accounts
    ensures o.response.status == 400 ==> o.state == s && o.sent == []
    ensures SignupErrors(req, checks) != [] ==>
              o.response.body == MessageAndFields("Validation failed", SignupErrors(req, checks))
    ensures SignupErrors(req, checks) == [] && req.email in s.accounts ==>
              o.response.body == Message("User already exists")
    ensures o.response.status != 400 ==>
              && o.state.accounts == s.accounts[req.email := NewAccount(s, req, salt)]
              && o.state.nextId == s.nextId + 1
    ensures o.response.status != 400 ==>
              o.sent == if mailFault.None?
                        then [VerificationMail(req, VerificationToken(req, now), baseUrl)]
                        else []
    ensures o.response.status == 201 <==> o.response.status != 400 && mailFault.None?
    ensures o.response.status == 500 ==>
              o.response.body == MessageAndError("Server error during signup", mailFault.value)
  {
    var errors := SignupErrors(req, checks);
    if errors != [] then
      Outcome(s, [], Response(400, MessageAndFields("Validation failed", errors)))
    else if req.email in s.accounts then
      Outcome(s, [], Response(400, Message("User already exists")))
    else
      var saved := State(s.accounts[req.email := NewAccount(s, req, salt)], s.nextId + 1);
      match mailFault
      case Some(message) =>
        Outcome(saved, [], Response(500, MessageAndError("Server error during signup", message)))
      case None =>
        var mail := VerificationMail(req, VerificationToken(req, now), baseUrl);
        Outcome(saved, [mail], Response(201, Message("Verification email sent")))
  }

  /** The email of the account a token can verify in `s` at `now`, if there is one. */
  predicate CanVerify(s: State, t: Jwt, now: int)
  {
    && Decode(t, now).Ok?
    && t.claims.VerificationClaims?
    && t.claims.email in s.accounts
    && !s.accounts[t.claims.email].isVerified
  }

  /**
   * `verifyEmail`. Only a redeemable token naming a stored, unverified account
   * changes anything, and then only that account's `isVerified`; every other
   * case answers 400 and leaves the store as it was. An expired token gets its
   * own message; a decoded token whose claims carry no email (a login token)
   * finds no account.
   */
  function VerifyEmailSpec(s: State, t: Jwt, now: int): (o: Outcome)
    ensures o.sent == [] && o.response.status in {200, 400}
    ensures o.response.status == 200 <==> CanVerify(s, t, now)
    ensures o.response.status == 400 ==> o.state == s
    ensures CanVerify(s, t, now) ==>
              var e := t.claims.email;
              o.state == State(s.accounts[e := s.accounts[e].(isVerified := true)], s.nextId)
    ensures Decode(t, now) == Expired ==> o.response.body == Text(ExpiredLinkText)
    ensures Decode(t, now) == Invalid ==> o.response.body == Text(BadTokenText)
    ensures Decode(t, now).Ok? && (EmailClaim(t.claims).None? || t.claims.email !in s.accounts) ==>
              o.response.body == Text(UnknownEmailText)
    ensures Decode(t, now).Ok? && EmailClaim(t.claims).Some? && t.claims.email in s.accounts
              && s.accounts[t.claims.email].isVerified ==>
              o.response.body == Text(AlreadyVerifiedText)
  {
    match Decode(t, now)
    case Expired => Outcome(s, [], Response(400, Text(ExpiredLinkText)))
    case Invalid => Outcome(s, [], Response(400, Text(BadTokenText)))
    case Ok(claims) =>
      match EmailClaim(claims)
      case None => Outcome(s, [], Response(400, Text(UnknownEmailText)))
      case Some(e) =>
        if e !in s.accounts then
          Outcome(s, [], Response(400, Text(UnknownEmailText)))
        else if s.accounts[e].isVerified then
          Outcome(s, [], Response(400, Text(AlreadyVerifiedText)))
        else
          var verified := s.accounts[e].(isVerified := true);
          Outcome(State(s.accounts[e := verified], s.nextId), [], Response(200, Text(VerifiedText)))
  }

  /**
   * `login`. An absent and an unverified account get the same answer; a
   * wrong password gets another. Success needs all three checks and returns a
   * one-day token over the account id with the account's public fields.
   */
  function LoginSpec(s: State, email: string, password: string, now: int): (r: Response)
    ensures r.status in {200, 400}
    ensures r.status == 200 <==>
              email in s.accounts && s.accounts[email].isVerified
              && Matches(password, s.accounts[email].passwordHash)
    ensures email !in s.accounts || !s.accounts[email].isVerified ==>
              r.body == Message(BadCredentialsText)
    ensures email in s.accounts && s.accounts[email].isVerified
              && !Matches(password, s.accounts[email].passwordHash) ==>
              r.body == Message(BadPasswordText)
    ensures r.status == 200 ==>
              var a := s.accounts[email];
              && r.body.LoginBody?
              && r.body.token.claims == SessionClaims(a.id)
              && r.body.token.exp == now + SessionTtl && r.body.token.authentic
              && r.body.user == PublicUser(a.id, a.name, a.email)
  {
    if email !in s.accounts || !s.accounts[email].isVerified then
      Response(400, Message(BadCredentialsText))
    else
      var a := s.accounts[email];
      if !Matches(password, a.passwordHash) then
        Response(400, Message(BadPasswordText))
      else
        var token := Sign(SessionClaims(a.id), now, SessionTtl);
        Response(200, LoginBody("Login successful", token, PublicUser(a.id, a.name, a.email)))
  }

  /** Every handler keeps the store well formed. */
  lemma SignupKeepsWf(s: State, req: SignupRequest, checks: Checks, salt: string, now: int,
                      baseUrl: string, mailFault: Option<string>)
    requires Wf(s)
    ensures Wf(SignupSpec(s, req, checks, salt, now, baseUrl, mailFault).state)
  {
  }

  lemma VerifyEmailKeepsWf(s: State, t: Jwt, now: int)
    requires Wf(s)
    ensures Wf(VerifyEmailSpec(s, t, now).state)
  {
  }

  /**
   * The intended path: a fresh, valid signup whose mail goes out answers 201;
   * the mailed token, presented within the hour, verifies the account; the
   * account can then log in with its password, and the same token presented
   * again is refused as already used.
   */
  lemma SignupVerifyLogin(s: State, req: SignupRequest, checks: Checks, salt: string, now: int,
                          baseUrl: string, later: int, again: int, loginAt: int)
    requires SignupErrors(req, checks) == [] && req.email !in s.accounts
    requires later < now + VerificationTtl && again < now + VerificationTtl
    ensures var signup := SignupSpec(s, req, checks, salt, now, baseUrl, None);
            && signup.response.status == 201 && |signup.sent| == 1
            && var token := signup.sent[0].content.link.token;
            && var verify := VerifyEmailSpec(signup.state, token, later);
            && verify.response == Response(200, Text(VerifiedText))
            && verify.state.accounts[req.email].isVerified
            && LoginSpec(verify.state, req.email, req.password, loginAt).status == 200
            && VerifyEmailSpec(verify.state, token, again).response == Response(400, Text(AlreadyVerifiedText))
  {
  }

  /** A verification token presented an hour or more after it was issued is
      refused as expired, whatever the store holds, and changes nothing. */
  lemma VerificationLinkExpires(s: State, req: SignupRequest, now: int, later: int)
    requires later >= now + VerificationTtl
    ensures VerifyEmailSpec(s, VerificationToken(req, now), later) ==
              Outcome(s, [], Response(400, Text(ExpiredLinkText)))
  {
  }

  /** The service with its store and its transport. */
  class Controller {
    var accounts: map<string, Account>
    var nextId: nat
    const mailer: Mailer
    /** `BASE_URL`. */
    const baseUrl: string
    /** The signup rules' checks, run by the route before the handler. */
    const checks: Checks

    function Model(): State
      reads this
    {
      State(accounts, nextId)
    }

    ghost predicate Valid()
      reads this
    {
      Wf(Model())
    }

    constructor (mailer: Mailer, baseUrl: string, checks: Checks)
      ensures Valid() && Model() == State(map[], 0)
      ensures this.mailer == mailer && this.baseUrl == baseUrl && this.checks == checks
    {
      accounts := map[];
      nextId := 0;
      this.mailer := mailer;
      this.baseUrl := baseUrl;
      this.checks := checks;
    }

    /** `signup`; `salt` is what `bcrypt.genSalt` returned and `mailFault` what the transport does. */
    method Signup(req: SignupRequest, salt: string, now: int, mailFault: Option<string>)
      returns (response: Response)
      requires Valid()
      modifies this, mailer
      ensures Valid()
      ensures var o := SignupSpec(old(Model()), req, checks, salt, now, baseUrl, mailFault);
              && Model() == o.state && response == o.response
              && mailer.outbox == old(mailer.outbox) + o.sent
    {
      var errors := SignupErrors(req, checks);
      if errors != [] {
        return Response(400, MessageAndFields("Validation failed", errors));
      }
      if req.email in accounts {
        return Response(400, Message("User already exists"));
      }
      var passwordHash := Hash(req.password, salt);
      accounts := accounts[req.email := Account(nextId, req.name, req.email, passwordHash, false)];
      nextId := nextId + 1;
      var token := Sign(VerificationClaims(req.name, req.email), now, VerificationTtl);
      var link := Link(baseUrl + VerifyPath, token);
      var error := mailer.Send(Mail(req.email, VerifySubject, VerificationHtml(req.name, link)), mailFault);
      if error.Some? {
        return Response(500, MessageAndError("Server error during signup", error.value));
      }
      response := Response(201, Message("Verification email sent"));
    }

    /** `verifyEmail` with the token from the link, at time `now`. */
    method VerifyEmail(t: Jwt, now: int) returns (response: Response)
      requires Valid()
      modifies this
      ensures Valid()
      ensures var o := VerifyEmailSpec(old(Model()), t, now);
              Model() == o.state && response == o.response
    {
      var decoded := Decode(t, now);
      if decoded == Expired {
        return Response(400, Text(ExpiredLinkText));
      } else if decoded == Invalid {
        return Response(400, Text(BadTokenText));
      }
      var email := EmailClaim(decoded.claims);
      if email.None? || email.value !in accounts {
        return Response(400, Text(UnknownEmailText));
      }
      var user := accounts[email.value];
      if user.isVerified {
        return Response(400, Text(AlreadyVerifiedText));
      }
      user := user.(isVerified := true);
      accounts := accounts[email.value := user];
      response := Response(200, Text(VerifiedText));
    }

    /** `login`: reads the store and changes nothing. */
    method Login(email: string, password: string, now: int) returns (response: Response)
      ensures response == LoginSpec(Model(), email, password, now)
    {
      if email !in accounts || !accounts[email].isVerified {
        return Response(400, Message(BadCredentialsText));
      }
      var user := accounts[email];
      var isMatch := Matches(password, user.passwordHash);
      if !isMatch {
        return Response(400, Message(BadPasswordText));
      }
      var token := Sign(SessionClaims(user.id), now, SessionTtl);
      response := Response(200, LoginBody("Login successful", token, PublicUser(user.id, user.name, user.email)));
    }
  }
}
