/** The credential handlers of loginController.js: login, the forgotten
    password one-time code, its verification, the reset, and the password
    change.  bcrypt `hash`/`compare`, `Math.random`, the clock and the mailer
    are parameters. */
module Login {
  import opened Js
  import opened Accounts

  /** How long a reset code stays valid: ten minutes, in milliseconds. */
  const OtpLifetime: int := 10 * 60 * 1000

  /** `generateOTP`: `Math.floor(100000 + Math.random() * 900000)` for a
      random number in [0, 1) is always a six-digit code. */
  function GenerateOtp(random: real): (otp: int)
    requires 0.0 <= random < 1.0
    ensures 100000 <= otp <= 999999
  {
    (100000.0 + random * 900000.0).Floor
  }

  /** `loginTrainer`: 400 without email or password, 404 when no account has
      the lower-cased email, 401 when the password does not match, otherwise
      200 for that account (whose id the token carries). */
  method LoginTrainer(db: AccountTable, email: string, password: string, compare: (string, string) -> bool)
    returns (status: int, who: Option<Id>)
    requires db.Valid()
    ensures email == "" || password == "" ==> status == 400 && who.None?
    ensures (email != "" && password != "" && forall k :: k in db.accounts ==> db.accounts[k].email != Lower(email))
              ==> status == 404 && who.None?
    ensures status == 401 <==>
              email != "" && password != ""
              && exists k :: k in db.accounts && db.accounts[k].email == Lower(email)
                               && !compare(password, db.accounts[k].password)
    ensures (email != "" && password != ""
             && exists k :: k in db.accounts && db.accounts[k].email == Lower(email)
                              && compare(password, db.accounts[k].password))
            ==> status == 200
    ensures status == 401 ==> who.None?
    ensures status == 200 <==> who.Some?
    ensures status in {200, 400, 401, 404}
    ensures who.Some? ==>
              && email != "" && password != ""
              && who.value in db.accounts
              && db.accounts[who.value].email == Lower(email)
              && compare(password, db.accounts[who.value].password)
  {
    if email == "" || password == "" {
      return 400, None;
    }
    var found := FindByEmail(db.accounts, Lower(email));
    if found.None? {
      return 404, None;
    }
    forall k | k in db.accounts && db.accounts[k].email == Lower(email)
      ensures k == found.value
    {
      FoundByEmailIsUnique(db.accounts, Lower(email), k, found.value);
    }
    if !compare(password, db.accounts[found.value].password) {
      return 401, None;
    }
    status, who := 200, found;
  }

  /** An account whose stored email is not all lower case can never log in:
      the lookup uses the lower-cased email with an exact match. */
  lemma MixedCaseEmailCannotLogIn(m: map<Id, Account>, k: Id, email: string)
    requires k in m && Lower(m[k].email) != m[k].email
    ensures m[k].email != Lower(email)
  {
    LowerIsIdempotent(email);
  }

  lemma LowerIsIdempotent(s: string)
    ensures Lower(Lower(s)) == Lower(s)
  {
  }

  /** `forgottrainerPassword`: 400 without an email or for an unknown email;
      otherwise the account gets a fresh six-digit code valid for ten minutes.
      The code is saved before the mail is sent, so a mailer failure (500)
      still leaves it stored. */
  method ForgotPassword(db: AccountTable, email: string, random: real, now: int, mailSent: bool)
    returns (status: int)
    requires db.Valid()
    requires 0.0 <= random < 1.0
    modifies db
    ensures db.Valid()
    ensures status == 400 <==> email == "" || forall k :: k in old(db.accounts) ==> old(db.accounts)[k].email != email
    ensures status == 400 ==> db.accounts == old(db.accounts)
    ensures status != 400 ==>
              status == (if mailSent then 200 else 500)
              && (exists k :: k in old(db.accounts) && old(db.accounts)[k].email == email
                    && db.accounts == old(db.accounts)[k := old(db.accounts)[k].(
                         resetOTP := Some(GenerateOtp(random)), otpExpires := Some(now + OtpLifetime))])
  {
    if email == "" {
      return 400;
    }
    var found := FindByEmail(db.accounts, email);
    if found.None? {
      return 400;
    }
    var k := found.value;
    var otp := GenerateOtp(random);
    db.accounts := db.accounts[k := db.accounts[k].(resetOTP := Some(otp), otpExpires := Some(now + OtpLifetime))];
    status := if mailSent then 200 else 500;
  }

  /** The stored code equals the submitted one under `!==`: the schema keeps
      `resetOTP` as a Number, so only a JSON number can match. */
  predicate OtpMatches(a: Account, otp: Value)
  {
    a.resetOTP.Some? && otp == Num(a.resetOTP.value)
  }

  /** `otpExpires < Date.now()`; an unset expiry never compares as earlier. */
  predicate OtpExpired(a: Account, now: int)
  {
    a.otpExpires.Some? && a.otpExpires.value < now
  }

  /** `VerifyEmail`: 400 without email or code, 404 for an unknown email,
      400 when the code differs or has expired, otherwise 200.  It changes
      nothing: the code stays stored. */
  method VerifyEmail(db: AccountTable, email: string, otp: Value, now: int) returns (status: int)
    requires db.Valid()
    ensures email == "" || !Truthy(otp) ==> status == 400
    ensures status == 404 <==>
              email != "" && Truthy(otp) && forall k :: k in db.accounts ==> db.accounts[k].email != email
    ensures status == 200 <==>
              email != "" && Truthy(otp)
              && (exists k :: k in db.accounts && db.accounts[k].email == email
                    && OtpMatches(db.accounts[k], otp) && !OtpExpired(db.accounts[k], now))
    ensures otp.Str? ==> status != 200
    ensures status in {200, 400, 404}
  {
    if email == "" || !Truthy(otp) {
      return 400;
    }
    var found := FindByEmail(db.accounts, email);
    if found.None? {
      return 404;
    }
    var a := db.accounts[found.value];
    if !OtpMatches(a, otp) || OtpExpired(a, now) {
      return 400;
    }
    status := 200;
  }

  /** `resetPassword`: both new passwords are required, the email must name
      an account and the two passwords must agree; the stored code is never
      consulted.  Success stores the hash of the new password and clears both
      code fields. */
  method ResetPassword(db: AccountTable, email: string, newPassword: string, confirmPassword: string,
                       hash: string -> string)
    returns (status: int)
    requires db.Valid()
    modifies db
    ensures db.Valid()
    ensures status in {200, 400}
    ensures status == 200 <==>
              newPassword != "" && confirmPassword != "" && newPassword == confirmPassword
              && (exists k :: k in old(db.accounts) && old(db.accounts)[k].email == email)
    ensures status == 400 ==> db.accounts == old(db.accounts)
    ensures status == 200 ==>
              exists k :: k in old(db.accounts) && old(db.accounts)[k].email == email
                && db.accounts == old(db.accounts)[k := old(db.accounts)[k].(
                     password := hash(newPassword), resetOTP := None, otpExpires := None)]
  {
    if newPassword == "" || confirmPassword == "" {
      return 400;
    }
    var found := FindByEmail(db.accounts, email);
    if found.None? {
      return 400;
    }
    if newPassword != confirmPassword {
      return 400;
    }
    var k := found.value;
    db.accounts := db.accounts[k := db.accounts[k].(password := hash(newPassword), resetOTP := None, otpExpires := None)];
    status := 200;
  }

  /** Outcome of an ordered check chain: the account to act on, or the
      status of the first check that failed. */
  datatype Check = Pass(key: Id) | Fail(status: int)

  /** The check chain of `changetrainerPassword`, in source order: all three
      fields present (400); the id names an account (a malformed id throws,
      500; an unknown one is 404); the old password matches (400); the new
      password differs from the old (400); the confirmation agrees (400). */
  function ChangePasswordCheck(accounts: map<Id, Account>, id: string, oldPassword: string, newPassword: string,
                               confirmPassword: string, compare: (string, string) -> bool): (c: Check)
    ensures oldPassword == "" || newPassword == "" || confirmPassword == "" ==> c == Fail(400)
    ensures c.Fail? ==> c.status in {400, 404, 500}
    ensures c == Fail(500) <==>
              oldPassword != "" && newPassword != "" && confirmPassword != "" && !IsValidObjectId(id)
    ensures c == Fail(404) <==>
              oldPassword != "" && newPassword != "" && confirmPassword != "" && IsValidObjectId(id)
              && Lower(id) !in accounts
    ensures c.Pass? <==>
              oldPassword != "" && newPassword != "" && confirmPassword != ""
              && IsValidObjectId(id) && Lower(id) in accounts
              && compare(oldPassword, accounts[Lower(id)].password)
              && newPassword != oldPassword && newPassword == confirmPassword
    ensures c.Pass? ==> c.key == Lower(id) && c.key in accounts
  {
    if oldPassword == "" || newPassword == "" || confirmPassword == "" then Fail(400)
    else if !IsValidObjectId(id) then Fail(500)
    else if Lower(id) !in accounts then Fail(404)
    else if !compare(oldPassword, accounts[Lower(id)].password) then Fail(400)
    else if newPassword == oldPassword then Fail(400)
    else if newPassword != confirmPassword then Fail(400)
    else Pass(Lower(id))
  }

  /** The first failing check decides: with a wrong old password the answer
      is 400 whatever the new and confirmation passwords are, and a new
      password equal to the old one is refused even when confirmed. */
  lemma ChangePasswordFirstFailureDecides(accounts: map<Id, Account>, id: string, oldPassword: string,
                                          p: string, q: string, compare: (string, string) -> bool)
    requires oldPassword != "" && p != "" && q != ""
    requires IsValidObjectId(id) && Lower(id) in accounts
    ensures !compare(oldPassword, accounts[Lower(id)].password) ==>
              ChangePasswordCheck(accounts, id, oldPassword, p, q, compare) == Fail(400)
    ensures ChangePasswordCheck(accounts, id, oldPassword, oldPassword, oldPassword, compare).Fail?
  {
  }

  /** `changetrainerPassword`: runs the check chain, then replaces only the
      password, with the hash of the new one. */
  method ChangePassword(db: AccountTable, id: string, oldPassword: string, newPassword: string,
                        confirmPassword: string, compare: (string, string) -> bool, hash: string -> string)
    returns (status: int)
    requires db.Valid()
    modifies db
    ensures db.Valid()
    ensures var c := ChangePasswordCheck(old(db.accounts), id, oldPassword, newPassword, confirmPassword, compare);
            if c.Fail? then status == c.status && db.accounts == old(db.accounts)
            else status == 200
                 && db.accounts == old(db.accounts)[c.key := old(db.accounts)[c.key].(password := hash(newPassword))]
  {
    var c := ChangePasswordCheck(db.accounts, id, oldPassword, newPassword, confirmPassword, compare);
    if c.Fail? {
      return c.status;
    }
    db.accounts := db.accounts[c.key := db.accounts[c.key].(password := hash(newPassword))];
    status := 200;
  }
}
