/**
 * The account handlers of routes/index.js: registration and its admin-code
 * rule, the password-reset flow with its one-hour, single-use token, and the
 * payment that marks an account as paid. Accounts live in a store whose
 * handlers update them step by step, as the source assigns document fields
 * and saves them. The clock, the random bytes, the configured admin code,
 * the hashing library and the payment processor come in as parameters.
 */
module Accounts {
  import opened Http
  import Hex
  import Middleware

  /** Accounts are kept in insertion order; an id is a position. */
  type AccountId = nat

  /** The salt and hash `setPassword` stores, as the hashing library produced them. */
  datatype Credential = Credential(hash: string)

  datatype Account = Account(
    username: string,
    email: string,
    credential: Credential,
    isAdmin: bool,
    isPaid: bool,
    resetToken: Option<string>,
    resetExpires: Option<int>)  // milliseconds since the epoch

  const TokenBytes := 20
  const TokenLifetime := 3600000  // one hour, in milliseconds
  const Amount := 2000            // the fee, in cents

  const UserExists := "A user with the given username is already registered"
  const NoAccount := "No account with that email address exists."
  const TokenInvalid := "Password reset token is invalid or has expired."
  const PasswordsDiffer := "Passwords do not match."
  const PasswordChanged := "Success! Your password has been changed."
  const AlreadyPaid := "Your account is already paid"
  const AuthenticationRequired :=
    "This card requires authentication in order to proceeded. Please use a different card."

  /** The `findOne` filters the handlers use; the token filter carries
      `resetPasswordExpires: { $gt: now }`. */
  datatype Query = ByUsername(username: string) | ByEmail(email: string) | ByToken(token: string, now: int)

  predicate Matches(a: Account, q: Query)
  {
    match q
    case ByUsername(name) => a.username == name
    case ByEmail(email) => a.email == email
    case ByToken(token, now) =>
      a.resetToken == Some(token) && a.resetExpires.Some? && a.resetExpires.value > now
  }

  /** `findOne`: the first account, in natural order, that matches. */
  function FindOne(s: seq<Account>, q: Query): (r: Option<AccountId>)
    ensures r.Some? ==> r.value < |s| && Matches(s[r.value], q) &&
                        forall j :: 0 <= j < r.value ==> !Matches(s[j], q)
    ensures r.None? <==> forall j :: 0 <= j < |s| ==> !Matches(s[j], q)
  {
    if s == [] then None
    else if Matches(s[0], q) then Some(0)
    else match FindOne(s[1..], q)
      case None => None
      case Some(k) => Some(k + 1)
  }

  /** 20 random bytes in hexadecimal. */
  predicate IsToken(t: string)
  {
    |t| == 2 * TokenBytes && Hex.IsHexString(t)
  }

  /** The token and its expiry are set together and cleared together. */
  predicate WellFormed(a: Account)
  {
    (a.resetToken.Some? <==> a.resetExpires.Some?) &&
    (a.resetToken.Some? ==> IsToken(a.resetToken.value))
  }

  /** Every account well formed, and no two accounts with one username. */
  predicate Consistent(s: seq<Account>)
  {
    (forall i :: 0 <= i < |s| ==> WellFormed(s[i])) &&
    (forall i, j :: 0 <= i < j < |s| ==> s[i].username != s[j].username)
  }

  /** Registration grants the administrator flag on a matching admin code,
      and only when an admin code is configured. */
  function AdminGrant(submitted: Option<string>, configured: Option<string>): (g: bool)
    ensures g <==> configured.Some? && submitted.Some? && submitted.value == configured.value
    ensures configured.None? ==> !g
  {
    configured.Some? && submitted == configured
  }

  /** `req.body.adminCode === process.env.ADMIN_CODE` as written: a request
      without the field and a server without the variable compare `undefined`
      with `undefined`. */
  function AdminGrantAsWritten(submitted: Option<string>, configured: Option<string>): (g: bool)
    ensures g <==> (submitted.None? && configured.None?) ||
                   (submitted.Some? && configured.Some? && submitted.value == configured.value)
  {
    submitted == configured
  }

  /** Without a configured code, the source makes an administrator of anyone
      who leaves the field out; the corrected rule does not. */
  lemma AdminGrantWithoutCode()
    ensures AdminGrantAsWritten(None, None)
    ensures !AdminGrant(None, None)
  {
  }

  /** The corrected rule agrees with the source wherever a code is configured. */
  lemma AdminGrantAgrees(submitted: Option<string>, configured: Option<string>)
    ensures AdminGrant(submitted, configured) <==> configured.Some? && AdminGrantAsWritten(submitted, configured)
  {
  }

  /** `POST /forgot` on the account found at `i`. */
  function Issue(s: seq<Account>, i: AccountId, token: string, now: int): (r: seq<Account>)
    requires i < |s|
    ensures |r| == |s| && forall j :: 0 <= j < |s| && j != i ==> r[j] == s[j]
    ensures r[i].resetToken == Some(token) && r[i].resetExpires == Some(now + TokenLifetime)
    ensures r[i].username == s[i].username && r[i].email == s[i].email && r[i].credential == s[i].credential
    ensures r[i].isAdmin == s[i].isAdmin && r[i].isPaid == s[i].isPaid
  {
    s[i := s[i].(resetToken := Some(token), resetExpires := Some(now + TokenLifetime))]
  }

  /** `POST /reset/:token` with matching passwords: `setPassword`'s result
      (ignored by the source when it fails) and the cleared token. */
  function Consume(s: seq<Account>, i: AccountId, credential: Option<Credential>): (r: seq<Account>)
    requires i < |s|
    ensures |r| == |s| && forall j :: 0 <= j < |s| && j != i ==> r[j] == s[j]
    ensures r[i].resetToken.None? && r[i].resetExpires.None?
    ensures credential.Some? ==> r[i].credential == credential.value
    ensures credential.None? ==> r[i].credential == s[i].credential
    ensures r[i].username == s[i].username && r[i].email == s[i].email
    ensures r[i].isAdmin == s[i].isAdmin && r[i].isPaid == s[i].isPaid
  {
    var a := s[i];
    s[i := a.(credential := if credential.Some? then credential.value else a.credential,
              resetToken := None, resetExpires := None)]
  }

  /** `req.user.isPaid = true` after a confirmed payment. */
  function MarkPaid(s: seq<Account>, i: AccountId): (r: seq<Account>)
    requires i < |s|
    ensures |r| == |s| && forall j :: 0 <= j < |s| && j != i ==> r[j] == s[j]
    ensures r[i].isPaid
    ensures r[i].username == s[i].username && r[i].email == s[i].email && r[i].credential == s[i].credential
    ensures r[i].isAdmin == s[i].isAdmin
    ensures r[i].resetToken == s[i].resetToken && r[i].resetExpires == s[i].resetExpires
  {
    s[i := s[i].(isPaid := true)]
  }

  /** What `/pay` answers when the payment processor declines. */
  function DeclineMessage(code: Option<string>, message: string): (m: string)
    ensures code == Some("authentication_required") ==> m == AuthenticationRequired
    ensures code != Some("authentication_required") ==> m == message
  {
    if code == Some("authentication_required") then AuthenticationRequired else message
  }

  /** A token is accepted exactly while some account stores it and its expiry
      lies strictly after the request's time. */
  lemma TokenAccepted(s: seq<Account>, token: string, now: int)
    ensures FindOne(s, ByToken(token, now)).Some? <==>
              exists i :: 0 <= i < |s| && s[i].resetToken == Some(token) &&
                          s[i].resetExpires.Some? && now < s[i].resetExpires.value
  {
    if FindOne(s, ByToken(token, now)).None? {
      forall i | 0 <= i < |s| ensures !Matches(s[i], ByToken(token, now)) { }
    }
  }

  /** In a consistent store a username names one account: the lookup by
      username finds exactly the account that holds it. */
  lemma UsernameIdentifies(s: seq<Account>, i: AccountId)
    requires Consistent(s)
    requires i < |s|
    ensures FindOne(s, ByUsername(s[i].username)) == Some(i)
  {
    assert Matches(s[i], ByUsername(s[i].username));
  }

  /** An issued token opens the reset form for requests strictly before one
      hour has passed, and for none at or after it, provided no other account
      holds the same token. */
  lemma IssuedTokenWindow(s: seq<Account>, i: AccountId, token: string, issuedAt: int, now: int)
    requires i < |s|
    requires forall j :: 0 <= j < |s| && j != i ==> s[j].resetToken != Some(token)
    ensures FindOne(Issue(s, i, token, issuedAt), ByToken(token, now)) ==
              if now < issuedAt + TokenLifetime then Some(i) else None
  {
    var s' := Issue(s, i, token, issuedAt);
    var r := FindOne(s', ByToken(token, now));
    if now < issuedAt + TokenLifetime {
      assert Matches(s'[i], ByToken(token, now));
      assert r.Some?;
    } else {
      forall j | 0 <= j < |s'| ensures !Matches(s'[j], ByToken(token, now)) {
        if j != i {
          assert s'[j] == s[j];
        }
      }
    }
  }

  /** A new request overwrites the token: the previous one no longer opens
      the reset form for that account. */
  lemma IssueInvalidatesPrevious(s: seq<Account>, i: AccountId, token: string, issuedAt: int, previous: string, now: int)
    requires i < |s| && previous != token
    ensures !Matches(Issue(s, i, token, issuedAt)[i], ByToken(previous, now))
  {
  }

  /** After a successful reset the token is gone: resubmitting it fails the
      lookup, provided no other account holds the same token. */
  lemma ConsumedTokenRejected(s: seq<Account>, i: AccountId, credential: Option<Credential>, token: string, now: int)
    requires i < |s|
    requires forall j :: 0 <= j < |s| && j != i ==> s[j].resetToken != Some(token)
    ensures FindOne(Consume(s, i, credential), ByToken(token, now)).None?
    ensures forall t, n :: !Matches(Consume(s, i, credential)[i], ByToken(t, n))
  {
    var s' := Consume(s, i, credential);
    forall j | 0 <= j < |s'| ensures !Matches(s'[j], ByToken(token, now)) {
      if j != i {
        assert s'[j] == s[j];
      }
    }
  }

  /** The transitions keep the store consistent. */
  lemma IssueKeepsConsistent(s: seq<Account>, i: AccountId, token: string, now: int)
    requires Consistent(s) && i < |s| && IsToken(token)
    ensures Consistent(Issue(s, i, token, now))
  {
    var s' := Issue(s, i, token, now);
    forall j | 0 <= j < |s| ensures s'[j].username == s[j].username { }
  }

  lemma ConsumeKeepsConsistent(s: seq<Account>, i: AccountId, credential: Option<Credential>)
    requires Consistent(s) && i < |s|
    ensures Consistent(Consume(s, i, credential))
  {
    var s' := Consume(s, i, credential);
    forall j | 0 <= j < |s| ensures s'[j].username == s[j].username { }
  }

  lemma MarkPaidKeepsConsistent(s: seq<Account>, i: AccountId)
    requires Consistent(s) && i < |s|
    ensures Consistent(MarkPaid(s, i))
  {
    var s' := MarkPaid(s, i);
    forall j | 0 <= j < |s| ensures s'[j].username == s[j].username { }
  }

  /** The account record created by a successful registration. */
  function NewAccount(username: string, email: string, credential: Credential, adminCode: Option<string>, configuredCode: Option<string>): Account
  {
    Account(username, email, credential, AdminGrant(adminCode, configuredCode), false, None, None)
  }

  /** The request `/pay` sends to the payment processor. */
  datatype PaymentIntent = PaymentIntent(
    amount: nat, currency: string, paymentMethod: string, errorOnRequiresAction: bool, confirm: bool)

  /** What the payment processor answers: a confirmed intent, or an error
      with an optional code and a message. */
  datatype IntentResult = Confirmed(clientSecret: string) | Declined(code: Option<string>, message: string)

  function IntentFor(paymentMethod: string, currency: string): PaymentIntent
  {
    PaymentIntent(Amount, currency, paymentMethod, true, true)
  }

  class AccountStore {
    var accounts: seq<Account>

    ghost predicate Valid()
      reads this
    {
      Consistent(accounts)
    }

    constructor ()
      ensures Valid() && accounts == []
    {
      accounts := [];
    }

    /** `req.user` of a session naming an account, as passport restores it. */
    function CurrentUser(session: Option<AccountId>): (u: Option<Middleware.Identity>)
      reads this
    {
      if session.Some? && session.value < |accounts| then
        var a := accounts[session.value];
        Some(Middleware.Identity(session.value, a.username, a.isAdmin, a.isPaid))
      else
        None
    }

    /** `POST /register`: the new account, signed in on success. */
    method Register(username: string, email: string, adminCode: Option<string>, configuredCode: Option<string>,
                    hashed: Result<Credential>)
      returns (resp: Response, session: Option<AccountId>)
      requires Valid()
      modifies this
      ensures Valid()
      ensures FindOne(old(accounts), ByUsername(username)).Some? ==>
                accounts == old(accounts) && session == None && resp == Render("register", Some(UserExists))
      ensures FindOne(old(accounts), ByUsername(username)).None? && hashed.Err? ==>
                accounts == old(accounts) && session == None && resp == Render("register", Some(hashed.message))
      ensures FindOne(old(accounts), ByUsername(username)).None? && hashed.Ok? ==>
                && accounts == old(accounts) + [NewAccount(username, email, hashed.value, adminCode, configuredCode)]
                && session == Some(|old(accounts)|)
                && FindOne(accounts, ByUsername(username)) == session
                && resp == Redirect(Some(Flash(Success, "Successfully Signed Up! Welcome to YelpCamp, " + username + ".")),
                                    Path("/checkout"))
    {
      var isAdmin := false;
      if AdminGrant(adminCode, configuredCode) {
        isAdmin := true;
      }
      if FindOne(accounts, ByUsername(username)).Some? {
        return Render("register", Some(UserExists)), None;
      }
      if hashed.Err? {
        return Render("register", Some(hashed.message)), None;
      }
      var created := Account(username, email, hashed.value, isAdmin, false, None, None);
      accounts := accounts + [created];
      session := Some(|accounts| - 1);
      UsernameIdentifies(accounts, |accounts| - 1);
      resp := Redirect(Some(Flash(Success, "Successfully Signed Up! Welcome to YelpCamp, " + username + ".")),
                       Path("/checkout"));
    }

    /** `POST /forgot`: store the token and its expiry on the account with the
        given email, then mail the link. */
    method Forgot(email: string, random: seq<Hex.byte>, now: int, mailError: Option<string>) returns (resp: Response)
      requires Valid()
      requires |random| == TokenBytes
      modifies this
      ensures Valid()
      ensures FindOne(old(accounts), ByEmail(email)).None? ==>
                accounts == old(accounts) && resp == Redirect(Some(Flash(Error, NoAccount)), Path("/forgot"))
      ensures FindOne(old(accounts), ByEmail(email)).Some? ==>
                && accounts == Issue(old(accounts), FindOne(old(accounts), ByEmail(email)).value, Hex.Encode(random), now)
                && resp == if mailError.Some? then Fail(mailError.value)
                           else Redirect(Some(Flash(Success, "An e-mail has been sent to " + email + " with further instructions.")),
                                         Path("/forgot"))
    {
      var token := Hex.Encode(random);
      var found := FindOne(accounts, ByEmail(email));
      if found.None? {
        return Redirect(Some(Flash(Error, NoAccount)), Path("/forgot"));
      }
      var i := found.value;
      var user := accounts[i];
      user := user.(resetToken := Some(token));
      user := user.(resetExpires := Some(now + TokenLifetime));
      IssueKeepsConsistent(accounts, i, token, now);
      accounts := accounts[i := user];
      if mailError.Some? {
        resp := Fail(mailError.value);
      } else {
        resp := Redirect(Some(Flash(Success, "An e-mail has been sent to " + email + " with further instructions.")),
                         Path("/forgot"));
      }
    }

    /** `GET /reset/:token`: the reset form, for a stored and unexpired token only. */
    function ResetPage(token: string, now: int): (r: Response)
      reads this
      ensures r == Render("reset", None) <==>
                exists i :: 0 <= i < |accounts| && Matches(accounts[i], ByToken(token, now))
      ensures r != Render("reset", None) ==> r == Redirect(Some(Flash(Error, TokenInvalid)), Path("/forgot"))
    {
      if FindOne(accounts, ByToken(token, now)).None? then Redirect(Some(Flash(Error, TokenInvalid)), Path("/forgot"))
      else Render("reset", None)
    }

    /** `POST /reset/:token`: on matching passwords, store the new credential,
        clear the token and its expiry, and sign the account in. */
    method Reset(token: string, now: int, password: string, confirm: string, newCredential: Option<Credential>)
      returns (resp: Response, session: Option<AccountId>)
      requires Valid()
      modifies this
      ensures Valid()
      ensures FindOne(old(accounts), ByToken(token, now)).None? ==>
                accounts == old(accounts) && session == None && resp == Redirect(Some(Flash(Error, TokenInvalid)), Back)
      ensures FindOne(old(accounts), ByToken(token, now)).Some? && password != confirm ==>
                accounts == old(accounts) && session == None && resp == Redirect(Some(Flash(Error, PasswordsDiffer)), Back)
      ensures FindOne(old(accounts), ByToken(token, now)).Some? && password == confirm ==>
                var i := FindOne(old(accounts), ByToken(token, now)).value;
                && accounts == Consume(old(accounts), i, newCredential)
                && session == Some(i)
                && resp == Redirect(Some(Flash(Success, PasswordChanged)), Path("/campgrounds"))
    {
      var found := FindOne(accounts, ByToken(token, now));
      if found.None? {
        return Redirect(Some(Flash(Error, TokenInvalid)), Back), None;
      }
      if password != confirm {
        return Redirect(Some(Flash(Error, PasswordsDiffer)), Back), None;
      }
      var i := found.value;
      var user := accounts[i];
      if newCredential.Some? {
        user := user.(credential := newCredential.value);
      }
      user := user.(resetToken := None);
      user := user.(resetExpires := None);
      ConsumeKeepsConsistent(accounts, i, newCredential);
      accounts := accounts[i := user];
      session := Some(i);
      resp := Redirect(Some(Flash(Success, PasswordChanged)), Path("/campgrounds"));
    }

    /** `GET /checkout`, behind `isLoggedIn`: a paid account is sent on. */
    function Checkout(session: Option<AccountId>, json: bool): (r: Response)
      reads this
      ensures CurrentUser(session).None? ==> r == Middleware.IsLoggedIn(Middleware.Request(None, json))
      ensures CurrentUser(session).Some? ==>
                r == if accounts[session.value].isPaid
                     then Redirect(Some(Flash(Success, AlreadyPaid)), Path("/campgrounds"))
                     else Render("checkout", None)
    {
      var login := Middleware.IsLoggedIn(Middleware.Request(CurrentUser(session), json));
      if login != Next then login
      else if CurrentUser(session).value.isPaid then Redirect(Some(Flash(Success, AlreadyPaid)), Path("/campgrounds"))
      else Render("checkout", None)
    }

    /** `POST /pay`, behind `isLoggedIn`: ask the processor to confirm the
        fixed amount at once; mark the account paid only when it does. */
    method Pay(session: Option<AccountId>, json: bool, paymentMethod: string, currency: string,
               processor: PaymentIntent -> IntentResult)
      returns (resp: Response)
      requires Valid()
      modifies this
      ensures Valid()
      ensures CurrentUser(session).None? ==>
                accounts == old(accounts) && resp == Middleware.IsLoggedIn(Middleware.Request(None, json))
      ensures old(CurrentUser(session)).Some? ==>
                match processor(IntentFor(paymentMethod, currency))
                case Confirmed(secret) =>
                  accounts == MarkPaid(old(accounts), session.value) && resp == Send(SecretBody(secret))
                case Declined(code, message) =>
                  accounts == old(accounts) && resp == Send(ErrorBody(DeclineMessage(code, message)))
    {
      var login := Middleware.IsLoggedIn(Middleware.Request(CurrentUser(session), json));
      if login != Next {
        return login;
      }
      var i := session.value;
      var intent := processor(IntentFor(paymentMethod, currency));
      match intent
      case Confirmed(secret) =>
        MarkPaidKeepsConsistent(accounts, i);
        var user := accounts[i];
        user := user.(isPaid := true);
        accounts := accounts[i := user];
        resp := Send(SecretBody(secret));
      case Declined(code, message) =>
        if code == Some("authentication_required") {
          resp := Send(ErrorBody(AuthenticationRequired));
        } else {
          resp := Send(ErrorBody(message));
        }
    }
  }
}
