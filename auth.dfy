/** The authentication middlewares of auth.js.  `TrainerAuth` resolves the
    token cookie to an account; `isAdmin` and `isMember` are role gates over
    the resolved caller.  JWT verification is a parameter. */
module Auth {
  import opened Js
  import opened Accounts

  /** The resolved caller (`req.trainer`).  The account schema has no
      `isAdmin` field, so the flag is an explicit input. */
  datatype Caller = Caller(id: Id, isAdmin: bool)

  /** What a gate does: call `next()`, or answer with an error status. */
  datatype Gate = Next | Deny(status: int)

  /** `isAdmin`: passes only an admin caller; anyone else gets 403. */
  function IsAdmin(caller: Option<Caller>): (g: Gate)
    ensures g == Next <==> caller.Some? && caller.value.isAdmin
    ensures g != Next ==> g == Deny(403)
  {
    if caller.None? || !caller.value.isAdmin then Deny(403) else Next
  }

  /** `isMember`: no caller is 401, an admin is 403, a member passes. */
  function IsMember(caller: Option<Caller>): (g: Gate)
    ensures g == Deny(401) <==> caller.None?
    ensures g == Deny(403) <==> caller.Some? && caller.value.isAdmin
    ensures g == Next <==> caller.Some? && !caller.value.isAdmin
  {
    if caller.None? then Deny(401)
    else if caller.value.isAdmin then Deny(403)
    else Next
  }

  /** Every authenticated caller passes exactly one of the two role gates. */
  lemma ExactlyOneRole(c: Caller)
    ensures (IsAdmin(Some(c)) == Next) != (IsMember(Some(c)) == Next)
  {
  }

  /** Outcome of `TrainerAuth`: the caller's key and account, or an error. */
  datatype AuthResult = Authenticated(id: Id, account: Account) | AuthFailed(status: int)

  /** `TrainerAuth`: a missing token, a token `verify` rejects, a decoded id
      that is not an ObjectId or that names no account all end in the catch
      block's 400; otherwise `req.trainer` is the account with the decoded id.
      `verify` yields the `_id` claim, or `None` when it throws. */
  function TrainerAuth(token: string, verify: string -> Option<string>, accounts: map<Id, Account>): (r: AuthResult)
    ensures token == "" ==> r == AuthFailed(400)
    ensures r.AuthFailed? ==> r.status == 400
    ensures r.Authenticated? <==>
              token != "" && verify(token).Some? && IsValidObjectId(verify(token).value)
              && Lower(verify(token).value) in accounts
    ensures r.Authenticated? ==> r.id == Lower(verify(token).value) && r.id in accounts && r.account == accounts[r.id]
  {
    if token == "" then AuthFailed(400)
    else
      match verify(token)
      case None => AuthFailed(400)
      case Some(claim) =>
        if !IsValidObjectId(claim) then AuthFailed(400)
        else if Lower(claim) !in accounts then AuthFailed(400)
        else Authenticated(Lower(claim), accounts[Lower(claim)])
  }
}
