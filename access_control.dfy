/** The access-control middlewares of accessControl.js: pure decisions over
    the caller and the path id.  The single assignment each makes on success
    (`req.member`, `req.targetTrainer`) is returned as the granted id. */
module AccessControl {
  import opened Js
  import opened Accounts
  import opened Auth

  /** `next()` with the id written to the request, or an error status. */
  datatype Access = Granted(target: Id) | Refused(status: int)

  /** `checkMemberAccess`: 401 without a caller; an admin always passes; a
      member passes when the path carries no id or carries exactly their own
      id, and gets 403 otherwise.  `req.member` is always the caller. */
  function CheckMemberAccess(caller: Option<Caller>, pathId: string): (a: Access)
    ensures caller.None? <==> a == Refused(401)
    ensures caller.Some? && caller.value.isAdmin ==> a == Granted(caller.value.id)
    ensures caller.Some? && !caller.value.isAdmin ==>
              a == (if pathId == "" || pathId == caller.value.id then Granted(caller.value.id) else Refused(403))
    ensures a.Granted? ==> caller.Some? && a.target == caller.value.id
  {
    if caller.None? then Refused(401)
    else if caller.value.isAdmin then Granted(caller.value.id)
    else if pathId != "" && caller.value.id != pathId then Refused(403)
    else Granted(caller.value.id)
  }

  /** `checkTrainerAccess`: 401 without a caller.  An admin passes only when
      the id names an existing account of type 'trainer' (a malformed id makes
      the lookup throw, and the catch answers 403); a member passes only for
      their own id.  No error ever passes. */
  function CheckTrainerAccess(caller: Option<Caller>, pathId: string, accounts: map<Id, Account>): (a: Access)
    ensures caller.None? <==> a == Refused(401)
    ensures a.Refused? ==> a.status in {401, 403}
    ensures caller.Some? && caller.value.isAdmin ==>
              (a.Granted? <==> IsValidObjectId(pathId) && Lower(pathId) in accounts
                               && accounts[Lower(pathId)].accountType == "trainer")
    ensures caller.Some? && caller.value.isAdmin && a.Granted? ==>
              a.target == Lower(pathId) && accounts[a.target].accountType == "trainer"
    ensures caller.Some? && !caller.value.isAdmin ==>
              a == (if pathId == caller.value.id then Granted(caller.value.id) else Refused(403))
  {
    if caller.None? then Refused(401)
    else if caller.value.isAdmin then
      if !IsValidObjectId(pathId) then Refused(403)
      else if Lower(pathId) !in accounts || accounts[Lower(pathId)].accountType != "trainer" then Refused(403)
      else Granted(Lower(pathId))
    else if caller.value.id != pathId then Refused(403)
    else Granted(caller.value.id)
  }

  /** A member never passes either middleware for somebody else's id. */
  lemma MembersOnlyReachThemselves(c: Caller, pathId: string, accounts: map<Id, Account>)
    requires !c.isAdmin && pathId != "" && pathId != c.id
    ensures CheckMemberAccess(Some(c), pathId) == Refused(403)
    ensures CheckTrainerAccess(Some(c), pathId, accounts) == Refused(403)
  {
  }
}
