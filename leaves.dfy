/** Leave requests (leaveModel.js) and the handlers of leaveController.js.
    Members file, edit and withdraw their own requests while they are
    pending; only an admin sets a request's status.  Every handler runs after
    `TrainerAuth`, so the caller is always present.  The clock is a
    parameter; timestamps are integers. */
module Leaves {
  import opened Js
  import opened Auth
  import opened Query

  /** The schema's status enum. */
  datatype LeaveStatus = Approved | Rejected | Pending

  /** The enum check Mongoose's validator applies to a status string. */
  function ParseStatus(s: string): (r: Option<LeaveStatus>)
    ensures r == Some(Approved) <==> s == "Approved"
    ensures r == Some(Rejected) <==> s == "Rejected"
    ensures r == Some(Pending) <==> s == "Pending"
  {
    if s == "Approved" then Some(Approved)
    else if s == "Rejected" then Some(Rejected)
    else if s == "Pending" then Some(Pending)
    else None
  }

  /** A leave document: the requesting member, the day of leave (as a time
      value), the reason, the status and the automatic timestamps. */
  datatype Leave = Leave(
    memberId: Id,
    date: int,
    reason: string,
    status: LeaveStatus,
    createdAt: int,
    updatedAt: int)

  function Owner(l: Leave): Id { l.memberId }

  function Created(l: Leave): int { l.createdAt }

  /** The fields of a request body that the schema knows, after casting. */
  datatype LeaveBody = LeaveBody(
    memberId: Field<string>,
    date: Field<int>,
    reason: Field<string>,
    status: Field<string>)

  /** A stored leave satisfies the schema: an owner that is an account key
      and a non-empty reason (a required String rejects ""). */
  predicate ValidLeave(l: Leave)
  {
    IsKey(l.memberId) && l.reason != ""
  }

  /** The status a new document gets: the default when none is given, and
      a validation error for anything outside the enum. */
  function InitialStatus(f: Field<string>): (r: Option<LeaveStatus>)
    ensures f.Absent? ==> r == Some(Pending)
    ensures f.Malformed? ==> r.None?
    ensures f.Given? ==> r == ParseStatus(f.value)
  {
    match f
    case Absent => Some(Pending)
    case Malformed => None
    case Given(s) => ParseStatus(s)
  }

  /** `new LeaveModel({ ...req.body, memberId })` followed by `save()`:
      `memberId` always comes from the caller, whatever the body says; a
      missing or uncastable date, a missing or empty reason, or a status
      outside the enum fails validation. */
  function NewLeave(memberId: Id, body: LeaveBody, now: int): (r: Option<Leave>)
    ensures r.Some? <==>
              body.date.Given? && body.reason.Given? && body.reason.value != "" && InitialStatus(body.status).Some?
    ensures r.Some? ==>
              && r.value.memberId == memberId
              && r.value.date == body.date.value && r.value.reason == body.reason.value
              && Some(r.value.status) == InitialStatus(body.status)
              && r.value.createdAt == now && r.value.updatedAt == now
  {
    if body.date.Given? && body.reason.Given? && body.reason.value != "" && InitialStatus(body.status).Some? then
      Some(Leave(memberId, body.date.value, body.reason.value, InitialStatus(body.status).value, now, now))
    else None
  }

  /** Whatever `memberId` the body carries, a new leave belongs to the
      member who files it. */
  lemma NewLeaveIgnoresBodyOwner(memberId: Id, body: LeaveBody, other: Field<string>, now: int)
    ensures NewLeave(memberId, body, now) == NewLeave(memberId, body.(memberId := other), now)
    ensures NewLeave(memberId, body, now).Some? ==> NewLeave(memberId, body, now).value.memberId == memberId
  {
  }

  /** The body passes `findByIdAndUpdate` with `runValidators`: each field it
      carries casts and validates. */
  predicate PatchValid(body: LeaveBody)
  {
    && (body.memberId.Absent? || (body.memberId.Given? && IsValidObjectId(body.memberId.value)))
    && !body.date.Malformed?
    && (body.reason.Absent? || (body.reason.Given? && body.reason.value != ""))
    && (body.status.Absent? || (body.status.Given? && ParseStatus(body.status.value).Some?))
  }

  /** `findByIdAndUpdate(id, req.body, { runValidators: true })`: every field
      the body carries is written as it is, `memberId` and `status`
      included, and `updatedAt` becomes now. */
  function ApplyPatch(l: Leave, body: LeaveBody, now: int): (r: Option<Leave>)
    ensures r.Some? <==> PatchValid(body)
    ensures r.Some? ==>
              && r.value.memberId == (if body.memberId.Given? then Lower(body.memberId.value) else l.memberId)
              && r.value.date == (if body.date.Given? then body.date.value else l.date)
              && r.value.reason == (if body.reason.Given? then body.reason.value else l.reason)
              && r.value.status == (if body.status.Given? then ParseStatus(body.status.value).value else l.status)
              && r.value.createdAt == l.createdAt && r.value.updatedAt == now
    ensures r.Some? && ValidLeave(l) ==> ValidLeave(r.value)
  {
    if !PatchValid(body) then None
    else
      var owner := if body.memberId.Given? then CastIsCanonical(body.memberId.value); Lower(body.memberId.value)
                   else l.memberId;
      Some(Leave(
        owner,
        if body.date.Given? then body.date.value else l.date,
        if body.reason.Given? then body.reason.value else l.reason,
        if body.status.Given? then ParseStatus(body.status.value).value else l.status,
        l.createdAt,
        now))
  }

  /** The edit a member may make to a pending request is unfiltered: it can
      approve the request itself, or hand it to another member. */
  lemma {:induction false} MemberEditIsUnfiltered(l: Leave, other: Id, now: int)
    requires IsValidObjectId(other)
    ensures ApplyPatch(l, LeaveBody(Absent, Absent, Absent, Given("Approved")), now)
              == Some(l.(status := Approved, updatedAt := now))
    ensures ApplyPatch(l, LeaveBody(Given(other), Absent, Absent, Absent), now)
              == Some(l.(memberId := Lower(other), updatedAt := now))
  {
    assert ParseStatus("Approved") == Some(Approved);
  }

  class LeaveStore {
    var docs: map<Id, Leave>

    ghost predicate Valid()
      reads this
    {
      forall k :: k in docs ==> IsKey(k) && ValidLeave(docs[k])
    }

    constructor ()
      ensures Valid() && docs == map[]
    {
      docs := map[];
    }

    /** The caller may act on the document under `key` as its owner. */
    predicate OwnedBy(key: Id, caller: Caller)
      reads this
    {
      key in docs && docs[key].memberId == caller.id
    }

    /** `addLeave`: an admin is refused (403); otherwise the request is
        stored under a fresh id with the caller as its member, or refused
        with 400 when it fails validation. */
    method AddLeave(caller: Caller, body: LeaveBody, newId: Id, now: int) returns (status: int, saved: Option<Leave>)
      requires Valid()
      requires IsKey(caller.id)
      requires IsKey(newId) && newId !in docs
      modifies this
      ensures Valid()
      ensures caller.isAdmin ==> status == 403
      ensures !caller.isAdmin && NewLeave(caller.id, body, now).None? ==> status == 400
      ensures status == 201 <==> !caller.isAdmin && NewLeave(caller.id, body, now).Some?
      ensures status == 201 ==>
                saved == NewLeave(caller.id, body, now) && docs == old(docs)[newId := saved.value]
                && saved.value.memberId == caller.id
      ensures status != 201 ==> saved.None? && docs == old(docs)
    {
      if caller.isAdmin {
        return 403, None;
      }
      var leave := NewLeave(caller.id, body, now);
      if leave.None? {
        return 400, None;
      }
      docs := docs[newId := leave.value];
      status, saved := 201, leave;
    }

    /** `getLeaveById`: 400 for a malformed id; the filter adds the caller
        as owner for a non-admin, so a member gets 404 for another member's
        request exactly as for a missing one. */
    method GetLeaveById(caller: Caller, id: string) returns (status: int, leave: Option<Leave>)
      ensures !IsValidObjectId(id) ==> status == 400 && leave.None?
      ensures IsValidObjectId(id) && !(Lower(id) in docs && InScope(OwnerScope(caller), docs[Lower(id)].memberId)) ==>
                status == 404
      ensures status == 200 <==>
                IsValidObjectId(id) && Lower(id) in docs && InScope(OwnerScope(caller), docs[Lower(id)].memberId)
      ensures status == 200 ==> leave == Some(docs[Lower(id)])
      ensures status == 200 && !caller.isAdmin ==> leave.value.memberId == caller.id
      ensures status != 200 ==> status in {400, 404} && leave.None?
    {
      if !IsValidObjectId(id) {
        return 400, None;
      }
      var key := Lower(id);
      var scope := OwnerScope(caller);
      if key !in docs || !InScope(scope, docs[key].memberId) {
        return 404, None;
      }
      status, leave := 200, Some(docs[key]);
    }

    /** `getAllLeave`: the caller's requests (every request for an admin),
        each once, newest first.  An empty result is still a 200. */
    method GetAllLeave(caller: Caller) returns (status: int, ids: seq<Id>, leaves: seq<Leave>)
      ensures status == 200
      ensures |leaves| == |ids|
      ensures forall i :: 0 <= i < |ids| ==> ids[i] in docs && leaves[i] == docs[ids[i]]
      ensures forall i :: 0 <= i < |leaves| ==> caller.isAdmin || leaves[i].memberId == caller.id
      ensures forall k :: k in docs && (caller.isAdmin || docs[k].memberId == caller.id) ==> k in ids
      ensures forall i, j :: 0 <= i < j < |ids| ==> ids[i] != ids[j]
      ensures forall i, j :: 0 <= i < j < |leaves| ==> leaves[j].createdAt <= leaves[i].createdAt
    {
      var keys := Matching(docs, OwnerScope(caller), Owner);
      ids := SortNewestFirst(keys, docs, Created);
      var current := docs;
      leaves := seq(|ids|, i requires 0 <= i < |ids| => current[ids[i]]);
      status := 200;
    }

    /** `updateLeave`: 400 for a malformed id, 403 for an admin, 404 unless
        the caller owns the request, 400 unless it is pending, 400 when the
        body fails validation; otherwise the body is applied as it is. */
    method UpdateLeave(caller: Caller, id: string, body: LeaveBody, now: int) returns (status: int, updated: Option<Leave>)
      requires Valid()
      modifies this
      ensures Valid()
      ensures !IsValidObjectId(id) ==> status == 400
      ensures IsValidObjectId(id) && caller.isAdmin ==> status == 403
      ensures IsValidObjectId(id) && !caller.isAdmin && !old(OwnedBy(Lower(id), caller)) ==> status == 404
      ensures (IsValidObjectId(id) && !caller.isAdmin && old(OwnedBy(Lower(id), caller))
               && old(docs)[Lower(id)].status != Pending) ==> status == 400
      ensures (IsValidObjectId(id) && !caller.isAdmin && old(OwnedBy(Lower(id), caller))
               && old(docs)[Lower(id)].status == Pending && !PatchValid(body)) ==> status == 400
      ensures status == 200 <==>
                IsValidObjectId(id) && !caller.isAdmin && old(OwnedBy(Lower(id), caller))
                && old(docs)[Lower(id)].status == Pending && PatchValid(body)
      ensures status == 200 ==>
                updated == ApplyPatch(old(docs)[Lower(id)], body, now)
                && docs == old(docs)[Lower(id) := updated.value]
      ensures status != 200 ==> status in {400, 403, 404} && updated.None? && docs == old(docs)
    {
      if !IsValidObjectId(id) {
        return 400, None;
      }
      if caller.isAdmin {
        return 403, None;
      }
      var key := Lower(id);
      if !OwnedBy(key, caller) {
        return 404, None;
      }
      if docs[key].status != Pending {
        return 400, None;
      }
      var patched := ApplyPatch(docs[key], body, now);
      if patched.None? {
        return 400, None;
      }
      docs := docs[key := patched.value];
      CastIsCanonical(id);
      status, updated := 200, patched;
    }

    /** `deleteLeave`: the same checks as `updateLeave`; a pending request
        of the caller's own is removed, and nothing else. */
    method DeleteLeave(caller: Caller, id: string) returns (status: int)
      requires Valid()
      modifies this
      ensures Valid()
      ensures !IsValidObjectId(id) ==> status == 400
      ensures IsValidObjectId(id) && caller.isAdmin ==> status == 403
      ensures IsValidObjectId(id) && !caller.isAdmin && !old(OwnedBy(Lower(id), caller)) ==> status == 404
      ensures (IsValidObjectId(id) && !caller.isAdmin && old(OwnedBy(Lower(id), caller))
               && old(docs)[Lower(id)].status != Pending) ==> status == 400
      ensures status == 200 <==>
                IsValidObjectId(id) && !caller.isAdmin && old(OwnedBy(Lower(id), caller))
                && old(docs)[Lower(id)].status == Pending
      ensures status == 200 ==> docs == old(docs) - {Lower(id)}
      ensures status != 200 ==> status in {400, 403, 404} && docs == old(docs)
    {
      if !IsValidObjectId(id) {
        return 400;
      }
      if caller.isAdmin {
        return 403;
      }
      var key := Lower(id);
      if !OwnedBy(key, caller) {
        return 404;
      }
      if docs[key].status != Pending {
        return 400;
      }
      docs := docs - {key};
      status := 200;
    }

    /** `updateLeaveStatus`: 400 for a malformed id, 403 for a non-admin, 400
        for a missing status or one outside the enum, 404 for an unknown
        request; otherwise only the status changes, to any of the three
        values whatever the current one is.  `save()` bumps `updatedAt` only
        when the document was modified, so setting the status a request
        already has leaves it untouched. */
    method UpdateLeaveStatus(caller: Caller, id: string, newStatus: string, now: int)
      returns (status: int, updated: Option<Leave>)
      requires Valid()
      modifies this
      ensures Valid()
      ensures !IsValidObjectId(id) ==> status == 400
      ensures IsValidObjectId(id) && !caller.isAdmin ==> status == 403
      ensures IsValidObjectId(id) && caller.isAdmin && ParseStatus(newStatus).None? ==> status == 400
      ensures IsValidObjectId(id) && caller.isAdmin && ParseStatus(newStatus).Some? && Lower(id) !in old(docs) ==>
                status == 404
      ensures status == 200 <==>
                IsValidObjectId(id) && caller.isAdmin && ParseStatus(newStatus).Some? && Lower(id) in old(docs)
      ensures status == 200 ==>
                var l := old(docs)[Lower(id)];
                var l' := if l.status == ParseStatus(newStatus).value then l
                          else l.(status := ParseStatus(newStatus).value, updatedAt := now);
                updated == Some(l') && docs == old(docs)[Lower(id) := l']
      ensures status != 200 ==> status in {400, 403, 404} && updated.None? && docs == old(docs)
    {
      if !IsValidObjectId(id) {
        return 400, None;
      }
      if !caller.isAdmin {
        return 403, None;
      }
      var parsed := ParseStatus(newStatus);
      if newStatus == "" || parsed.None? {
        return 400, None;
      }
      var key := Lower(id);
      if key !in docs {
        return 404, None;
      }
      var leave := docs[key];
      if leave.status != parsed.value {
        leave := leave.(status := parsed.value, updatedAt := now);
      }
      docs := docs[key := leave];
      CastIsCanonical(id);
      status, updated := 200, Some(leave);
    }
  }
}
