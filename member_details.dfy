/** The membership lifecycle of memberController.js over the collection of
    memberDetailsModel.js: one details record per account, an end date that
    is the start date plus the membership months (plus leave days), and a
    status forced to 'Expired' once the end date is on or before today.
    Today's date and the date parser are parameters; dates are stored as
    calendar dates rather than their YYYY-MM-DD text. */
module MemberDetails {
  import opened Js
  import opened Dates
  import opened ResponseUtils
  import opened Accounts
  import opened Auth

  /** A details record.  The schema's `user` reference is the table key. */
  datatype Details = Details(
    startDate: CivilDate,
    endDate: CivilDate,
    status: string,
    months: int,
    goal: string,
    goalStatus: string,
    due: int)

  /** Request body of `createMemberDetails`; the empty string stands for a
      missing text field, `None` for a missing `member`. */
  datatype CreateBody = CreateBody(
    member: Option<string>,
    startDate: string,
    month: Value,
    goal: string,
    goalStatus: string,
    due: Value,
    status: string)

  /** Request body of `updateMemberDetails`. */
  datatype UpdateBody = UpdateBody(
    startDate: string,
    month: Value,
    goal: string,
    goalStatus: string,
    due: Value,
    status: string,
    leaveDays: Value)

  /** What a create or update decides: an error status, or the record to
      store under a key. */
  datatype Outcome = Rejected(status: int) | Stored(key: Id, details: Details)

  /** The message of the error a failed cast or validation throws. */
  const CastFailure: string := "Cast to ObjectId or Number failed"

  predicate IsAdminCaller(caller: Option<Caller>)
  {
    caller.Some? && caller.value.isAdmin
  }

  /** `Number(member_month) || 12`: a missing, zero or non-numeric month
      count becomes twelve. */
  function MonthsOrDefault(month: Value): (n: int)
    ensures n != 0
    ensures ToNumber(month).Some? && ToNumber(month).value != 0 ==> n == ToNumber(month).value
    ensures ToNumber(month).None? || ToNumber(month) == Some(0) ==> n == 12
  {
    match ToNumber(month)
    case Some(m) => if m != 0 then m else 12
    case None => 12
  }

  /** `Number(member_month) || details.member_month || 12`. */
  function RecomputedMonths(month: Value, stored: int): (n: int)
    ensures n != 0
    ensures ToNumber(month).Some? && ToNumber(month).value != 0 ==> n == ToNumber(month).value
    ensures (ToNumber(month).None? || ToNumber(month) == Some(0)) ==> n == (if stored != 0 then stored else 12)
  {
    match ToNumber(month)
    case Some(m) => if m != 0 then m else if stored != 0 then stored else 12
    case None => if stored != 0 then stored else 12
  }

  /** A Number field after Mongoose's cast: a falsy value is not written (the
      `fallback` stays), a truthy one must convert or the save fails. */
  function CastIfTruthy(v: Value, fallback: int): (r: Option<int>)
    ensures !Truthy(v) ==> r == Some(fallback)
    ensures Truthy(v) ==> r == ToNumber(v)
  {
    if Truthy(v) then ToNumber(v) else Some(fallback)
  }

  function TextOr(s: string, fallback: string): (r: string)
    ensures r != "" || fallback == ""
    ensures s != "" ==> r == s
    ensures s == "" ==> r == fallback
  {
    if s != "" then s else fallback
  }

  /** The decision of `createMemberDetails` over the accounts, the existing
      details and today's date. */
  function CreateOutcome(caller: Option<Caller>, body: CreateBody, accounts: map<Id, Account>,
                         existing: map<Id, Details>, today: CivilDate, parse: string -> Option<CivilDate>)
    : (o: Outcome)
    ensures !IsAdminCaller(caller) ==> o == Rejected(403)
    ensures o == Rejected(404) <==>
              IsAdminCaller(caller)
              && (body.member.None? || (IsValidObjectId(body.member.value) && Lower(body.member.value) !in accounts))
    ensures (IsAdminCaller(caller) && body.member.Some? && !IsValidObjectId(body.member.value)) ==> o == Rejected(500)
    ensures (IsAdminCaller(caller) && body.member.Some? && IsValidObjectId(body.member.value)
             && Lower(body.member.value) in accounts
             && (accounts[Lower(body.member.value)].accountType != "member" || Lower(body.member.value) in existing))
            ==> o == Rejected(400)
    ensures o.Rejected? ==> o.status in {400, 403, 404, 500}
    // a request that passes every check is stored
    ensures o.Stored? <==>
              IsAdminCaller(caller) && body.member.Some? && IsValidObjectId(body.member.value)
              && Lower(body.member.value) in accounts && accounts[Lower(body.member.value)].accountType == "member"
              && Lower(body.member.value) !in existing
              && (body.startDate == "" || parse(body.startDate).Some?)
              && CastIfTruthy(body.due, 0).Some?
    ensures o.Stored? ==>
              && IsAdminCaller(caller) && body.member.Some? && IsValidObjectId(body.member.value)
              && o.key == Lower(body.member.value) && IsKey(o.key)
              && o.key in accounts && accounts[o.key].accountType == "member"
              && o.key !in existing
    // the start date is the parsed one, or today when none is given
    ensures o.Stored? ==> if body.startDate == "" then o.details.startDate == today
                          else parse(body.startDate) == Some(o.details.startDate)
    ensures (IsAdminCaller(caller) && body.member.Some? && IsValidObjectId(body.member.value)
             && Lower(body.member.value) in accounts && body.startDate != "" && parse(body.startDate).None?)
            ==> o.Rejected? && o.status == 400
    // a due amount that does not cast fails the save (500)
    ensures (IsAdminCaller(caller) && body.member.Some? && IsValidObjectId(body.member.value)
             && Lower(body.member.value) in accounts && accounts[Lower(body.member.value)].accountType == "member"
             && Lower(body.member.value) !in existing
             && (body.startDate == "" || parse(body.startDate).Some?)
             && CastIfTruthy(body.due, 0).None?) ==> o == Rejected(500)
    // months default to twelve and fix the end date
    ensures o.Stored? ==> o.details.months == MonthsOrDefault(body.month)
    ensures o.Stored? ==> o.details.endDate == AddMonthsAndDays(o.details.startDate, o.details.months, 0)
    // status: expired exactly when the end date has been reached
    ensures o.Stored? && IsExpired(o.details.endDate, today) ==> o.details.status == "Expired"
    ensures o.Stored? && !IsExpired(o.details.endDate, today) ==> o.details.status == TextOr(body.status, "Active")
    // defaults of the remaining fields
    ensures o.Stored? ==> o.details.goal == TextOr(body.goal, "Fitness")
    ensures o.Stored? ==> o.details.goalStatus == TextOr(body.goalStatus, "Completed")
    ensures o.Stored? ==> Some(o.details.due) == CastIfTruthy(body.due, 0)
    ensures (o.Rejected? && o.status == 500) ==>
              body.member.Some? && (!IsValidObjectId(body.member.value) || CastIfTruthy(body.due, 0).None?)
  {
    if !IsAdminCaller(caller) then Rejected(403)
    else if body.member.None? then Rejected(404)
    else if !IsValidObjectId(body.member.value) then Rejected(500)
    else
      var key := Lower(body.member.value);
      if key !in accounts then Rejected(404)
      else if accounts[key].accountType != "member" then Rejected(400)
      else if key in existing then Rejected(400)
      else
        var start := if body.startDate == "" then Some(today) else parse(body.startDate);
        if start.None? then Rejected(400)
        else
          var due := CastIfTruthy(body.due, 0);
          if due.None? then Rejected(500)
          else
            CastIsCanonical(body.member.value);
            Stored(key, NewDetails(body, start.value, today, due.value))
  }

  /** The record `createMemberDetails` stores: the month count defaulting to
      twelve, the end date that many months after the start, the supplied or
      default texts, and 'Expired' once the end date is reached. */
  function NewDetails(body: CreateBody, start: CivilDate, today: CivilDate, due: int): Details
  {
    var months := MonthsOrDefault(body.month);
    var end := AddMonthsAndDays(start, months, 0);
    Details(start, end, if IsExpired(end, today) then "Expired" else TextOr(body.status, "Active"),
            months, TextOr(body.goal, "Fitness"), TextOr(body.goalStatus, "Completed"), due)
  }

  /** Both Number fields of an update body either are falsy (not written)
      or convert. */
  predicate CastsSucceed(d: Details, body: UpdateBody)
  {
    CastIfTruthy(body.month, d.months).Some? && CastIfTruthy(body.due, d.due).Some?
  }

  /** The loaded record `d` with every supplied field of `body` written
      over it, and the (already parsed) start date `start`. */
  function Written(d: Details, start: CivilDate, body: UpdateBody): Details
    requires CastsSucceed(d, body)
  {
    d.(startDate := start,
       months := CastIfTruthy(body.month, d.months).value,
       goal := TextOr(body.goal, d.goal),
       goalStatus := TextOr(body.goalStatus, d.goalStatus),
       due := CastIfTruthy(body.due, d.due).value,
       status := TextOr(body.status, d.status))
  }

  /** The end date after an update of the written record `w`: leave days
      extend the stored end date, otherwise a new start or month count
      recomputes it. */
  function UpdatedEnd(w: Details, body: UpdateBody): (e: CivilDate)
    ensures body.leaveDays.Num? && body.leaveDays.n > 0 ==> e == AddDays(w.endDate, body.leaveDays.n)
  {
    if body.leaveDays.Num? && body.leaveDays.n > 0 then
      AddMonthsDirection(w.endDate, 0);
      AddMonthsAndDays(w.endDate, 0, body.leaveDays.n)
    else if body.startDate != "" || Truthy(body.month) then AddMonthsAndDays(w.startDate, RecomputedMonths(body.month, w.months), 0)
    else w.endDate
  }

  /** The record `d` after a successful update from `body`. */
  function Patched(d: Details, start: CivilDate, body: UpdateBody, today: CivilDate): (p: Details)
    requires CastsSucceed(d, body)
    ensures p.startDate == start
    ensures Some(p.months) == CastIfTruthy(body.month, d.months) && Some(p.due) == CastIfTruthy(body.due, d.due)
    ensures p.goal == TextOr(body.goal, d.goal) && p.goalStatus == TextOr(body.goalStatus, d.goalStatus)
    ensures body.leaveDays.Num? && body.leaveDays.n > 0 ==> p.endDate == AddDays(d.endDate, body.leaveDays.n)
    ensures !(body.leaveDays.Num? && body.leaveDays.n > 0) && (body.startDate != "" || Truthy(body.month)) ==>
              p.endDate == AddMonthsAndDays(start, RecomputedMonths(body.month, p.months), 0)
    ensures !(body.leaveDays.Num? && body.leaveDays.n > 0) && body.startDate == "" && !Truthy(body.month) ==>
              p.endDate == d.endDate
    ensures IsExpired(p.endDate, today) ==> p.status == "Expired"
    ensures !IsExpired(p.endDate, today) ==> p.status == TextOr(body.status, d.status)
  {
    var w := Written(d, start, body);
    var end := UpdatedEnd(w, body);
    w.(endDate := end, status := if IsExpired(end, today) then "Expired" else w.status)
  }

  /** The field-by-field writes of `updateMemberDetails` on the loaded record:
      each supplied field overwrites the stored one.  `castFailed` reports a
      Number field that the save will refuse. */
  method WriteSuppliedFields(loaded: Details, start: CivilDate, body: UpdateBody)
    returns (details: Details, castFailed: bool)
    ensures castFailed <==> !CastsSucceed(loaded, body)
    ensures !castFailed ==> details == Written(loaded, start, body)
  {
    details := loaded.(startDate := start);
    castFailed := false;
    if Truthy(body.month) {
      var n := ToNumber(body.month);
      if n.None? {
        castFailed := true;
      } else {
        details := details.(months := n.value);
      }
    }
    if body.goal != "" {
      details := details.(goal := body.goal);
    }
    if body.goalStatus != "" {
      details := details.(goalStatus := body.goalStatus);
    }
    if Truthy(body.due) {
      var n := ToNumber(body.due);
      if n.None? {
        castFailed := true;
      } else {
        details := details.(due := n.value);
      }
    }
    if body.status != "" {
      details := details.(status := body.status);
    }
  }

  /** The whole update of the loaded record: the supplied fields, then the
      end date, then the expiry override. */
  method PatchDetails(loaded: Details, start: CivilDate, body: UpdateBody, today: CivilDate)
    returns (details: Details, castFailed: bool)
    ensures castFailed <==> !CastsSucceed(loaded, body)
    ensures !castFailed ==> details == Patched(loaded, start, body, today)
  {
    details, castFailed := WriteSuppliedFields(loaded, start, body);
    if body.leaveDays.Num? && body.leaveDays.n > 0 {
      details := details.(endDate := AddMonthsAndDays(details.endDate, 0, body.leaveDays.n));
    } else if body.startDate != "" || Truthy(body.month) {
      var months := RecomputedMonths(body.month, details.months);
      details := details.(endDate := AddMonthsAndDays(start, months, 0));
    }
    if IsExpired(details.endDate, today) {
      details := details.(status := "Expired");
    }
  }

  /** The decision of `updateMemberDetails`: the record with the supplied
      fields written over it, the end date recomputed, and the status forced
      to 'Expired' once the end date is reached. */
  function UpdateOutcome(caller: Option<Caller>, id: string, body: UpdateBody, existing: map<Id, Details>,
                         today: CivilDate, parse: string -> Option<CivilDate>): (o: Outcome)
    ensures !IsAdminCaller(caller) ==> o == Rejected(403)
    ensures IsAdminCaller(caller) && !IsValidObjectId(id) ==> o == Rejected(500)
    ensures IsAdminCaller(caller) && IsValidObjectId(id) && Lower(id) !in existing ==> o == Rejected(404)
    ensures (IsAdminCaller(caller) && IsValidObjectId(id) && Lower(id) in existing
             && body.startDate != "" && parse(body.startDate).None?) ==> o == Rejected(400)
    // a month count or due amount that does not cast fails the save (500)
    ensures (IsAdminCaller(caller) && IsValidObjectId(id) && Lower(id) in existing
             && (body.startDate == "" || parse(body.startDate).Some?)
             && (CastIfTruthy(body.month, 0).None? || CastIfTruthy(body.due, 0).None?)) ==> o == Rejected(500)
    ensures o.Rejected? ==> o.status in {400, 403, 404, 500}
    ensures o.Stored? <==>
              IsAdminCaller(caller) && IsValidObjectId(id) && Lower(id) in existing
              && (body.startDate == "" || parse(body.startDate).Some?)
              && CastIfTruthy(body.month, 0).Some? && CastIfTruthy(body.due, 0).Some?
    ensures o.Stored? ==> o.key == Lower(id) && o.key in existing
    // only supplied (truthy) fields overwrite the stored ones
    ensures o.Stored? ==>
              var old_ := existing[o.key];
              && o.details.startDate == (if body.startDate == "" then old_.startDate else parse(body.startDate).value)
              && Some(o.details.months) == CastIfTruthy(body.month, old_.months)
              && o.details.goal == TextOr(body.goal, old_.goal)
              && o.details.goalStatus == TextOr(body.goalStatus, old_.goalStatus)
              && Some(o.details.due) == CastIfTruthy(body.due, old_.due)
    // leave days extend the stored end date and take precedence over a new start or month count
    ensures o.Stored? && body.leaveDays.Num? && body.leaveDays.n > 0 ==>
              o.details.endDate == AddDays(existing[o.key].endDate, body.leaveDays.n)
    ensures o.Stored? && !(body.leaveDays.Num? && body.leaveDays.n > 0) && (body.startDate != "" || Truthy(body.month)) ==>
              o.details.endDate == AddMonthsAndDays(o.details.startDate, RecomputedMonths(body.month, o.details.months), 0)
    ensures o.Stored? && !(body.leaveDays.Num? && body.leaveDays.n > 0) && body.startDate == "" && !Truthy(body.month) ==>
              o.details.endDate == existing[o.key].endDate
    // a reached end date overrides any supplied status
    ensures o.Stored? && IsExpired(o.details.endDate, today) ==> o.details.status == "Expired"
    ensures o.Stored? && !IsExpired(o.details.endDate, today) ==>
              o.details.status == TextOr(body.status, existing[o.key].status)
  {
    if !IsAdminCaller(caller) then Rejected(403)
    else if !IsValidObjectId(id) then Rejected(500)
    else if Lower(id) !in existing then Rejected(404)
    else
      var key := Lower(id);
      var d := existing[key];
      var start := if body.startDate == "" then Some(d.startDate) else parse(body.startDate);
      if start.None? then Rejected(400)
      else if !CastsSucceed(d, body) then Rejected(500)
      else Stored(key, Patched(d, start.value, body, today))
  }

  /** Only an admin can create, update or delete details. */
  lemma OnlyAdminsChangeDetails(caller: Option<Caller>, id: string, create: CreateBody, update: UpdateBody,
                                accounts: map<Id, Account>, existing: map<Id, Details>, today: CivilDate,
                                parse: string -> Option<CivilDate>)
    requires !IsAdminCaller(caller)
    ensures CreateOutcome(caller, create, accounts, existing, today, parse) == Rejected(403)
    ensures UpdateOutcome(caller, id, update, existing, today, parse) == Rejected(403)
  {
  }

  /** `createMemberDetails` demands an account of type 'member', a type the
      account schema does not allow: with schema-valid accounts it never
      stores anything. */
  lemma SchemaAccountsNeverGetDetails(caller: Option<Caller>, body: CreateBody, accounts: map<Id, Account>,
                                      existing: map<Id, Details>, today: CivilDate, parse: string -> Option<CivilDate>)
    requires WellFormed(accounts)
    ensures CreateOutcome(caller, body, accounts, existing, today, parse).Rejected?
  {
  }

  /** A `member_due` of 0 is falsy, so an update can never reset a due
      amount to zero; the same holds for the month count. */
  lemma DueCannotBeCleared(caller: Option<Caller>, id: string, body: UpdateBody, existing: map<Id, Details>,
                           today: CivilDate, parse: string -> Option<CivilDate>)
    requires body.due == Num(0) && body.month == Num(0)
    requires UpdateOutcome(caller, id, body, existing, today, parse).Stored?
    ensures var o := UpdateOutcome(caller, id, body, existing, today, parse);
            o.details.due == existing[o.key].due && o.details.months == existing[o.key].months
  {
  }

  /** The text "0" is truthy, so it is written and cast to 0: an update
      that sends `"0"` does set the due amount and the month count to zero. */
  lemma ZeroTextSetsZero(caller: Option<Caller>, id: string, body: UpdateBody, existing: map<Id, Details>,
                         today: CivilDate, parse: string -> Option<CivilDate>)
    requires body.due == Str("0") && body.month == Str("0")
    requires UpdateOutcome(caller, id, body, existing, today, parse).Stored?
    ensures var o := UpdateOutcome(caller, id, body, existing, today, parse);
            o.details.due == 0 && o.details.months == 0
  {
  }

  /** The worked example: a twelve-month membership created on 2024-01-15 (a
      day that has not yet passed) ends on 2025-01-15, and ten leave days
      then move its end to 2025-01-25 while the status stays as supplied. */
  lemma {:induction false} CreateThenLeaveExample(caller: Caller, member: Id, accounts: map<Id, Account>,
                                                  parse: string -> Option<CivilDate>)
    requires caller.isAdmin && IsKey(member)
    requires member in accounts && accounts[member].accountType == "member"
    requires parse("2024-01-15") == Some(Date(2024, 1, 15))
    ensures var created := CreateOutcome(Some(caller), CreateBody(Some(member), "2024-01-15", Undefined, "", "", Undefined, ""),
                                         accounts, map[], Date(2024, 1, 10), parse);
            && created.Stored?
            && created.details == Details(Date(2024, 1, 15), Date(2025, 1, 15), "Active", 12, "Fitness", "Completed", 0)
            && var updated := UpdateOutcome(Some(caller), member, UpdateBody("", Undefined, "", "", Undefined, "", Num(10)),
                                            map[member := created.details], Date(2024, 1, 10), parse);
               updated.Stored? && updated.details == created.details.(endDate := Date(2025, 1, 25))
  {
    assert Lower(member) == member;
    MembershipExamples();
    assert !IsExpired(Date(2025, 1, 15), Date(2024, 1, 10));
    assert !IsExpired(Date(2025, 1, 25), Date(2024, 1, 10));
    assert AddDays(Date(2025, 1, 15), 10) == Date(2025, 1, 25);
  }

  /** The details collection, keyed by the member's account id. */
  class MemberDetailsTable {
    var byUser: map<Id, Details>

    /** Every key is the canonical form of an account id; keying by the
        account makes `user` unique. */
    ghost predicate Valid()
      reads this
    {
      forall k :: k in byUser ==> IsKey(k)
    }

    constructor ()
      ensures Valid() && byUser == map[]
    {
      byUser := map[];
    }

    /** `createMemberDetails`: follows `CreateOutcome`, inserting exactly the
        decided record and answering 201 with it. */
    method CreateMemberDetails(caller: Option<Caller>, body: CreateBody, accounts: map<Id, Account>,
                               today: CivilDate, parse: string -> Option<CivilDate>)
      returns (r: Response<Details>)
      requires Valid()
      modifies this
      ensures Valid()
      ensures var o := CreateOutcome(caller, body, accounts, old(byUser), today, parse);
              match o
              case Rejected(status) => r.status == status && IsErrorBody(r.body) && byUser == old(byUser)
              case Stored(key, d) =>
                r == SendCreated("Member details created successfully", Doc(d)) && byUser == old(byUser)[key := d]
    {
      ghost var o := CreateOutcome(caller, body, accounts, byUser, today, parse);
      if caller.None? || !caller.value.isAdmin {
        assert o == Rejected(403);
        return SendForbidden("Only trainers can create member details");
      }
      if body.member.None? {
        assert o == Rejected(404);
        return SendNotFound("Target member not found");
      }
      var member := body.member.value;
      if !IsValidObjectId(member) {
        assert o == Rejected(500);
        return SendError(500, CastFailure);
      }
      var key := Lower(member);
      if key !in accounts {
        assert o == Rejected(404);
        return SendNotFound("Target member not found");
      }
      if accounts[key].accountType != "member" {
        assert o == Rejected(400);
        return SendBadRequest("Cannot add member details to a trainer");
      }
      if key in byUser {
        assert o == Rejected(400);
        return SendBadRequest("Member details already exist. Use update instead.");
      }
      var startDate := today;
      if body.startDate != "" {
        var parsed := parse(body.startDate);
        if parsed.None? {
          assert o == Rejected(400);
          return SendBadRequest("Invalid start date format. Use YYYY-MM-DD or DD-MM-YYYY");
        }
        startDate := parsed.value;
      }
      CastIsCanonical(member);
      assert o == (if CastIfTruthy(body.due, 0).None? then Rejected(500)
                   else Stored(key, NewDetails(body, startDate, today, CastIfTruthy(body.due, 0).value)));
      r := InsertNew(key, body, startDate, today);
    }

    /** The end of `createMemberDetails` once the account and start-date
        checks have passed: the record gets its defaults and end date, the
        due amount is cast (a failure answers 500), and the record is
        inserted under `key`. */
    method InsertNew(key: Id, body: CreateBody, startDate: CivilDate, today: CivilDate) returns (r: Response<Details>)
      requires Valid() && IsKey(key)
      modifies this
      ensures Valid()
      ensures CastIfTruthy(body.due, 0).None? ==> r.status == 500 && IsErrorBody(r.body) && byUser == old(byUser)
      ensures CastIfTruthy(body.due, 0).Some? ==>
                var d := NewDetails(body, startDate, today, CastIfTruthy(body.due, 0).value);
                r == SendCreated("Member details created successfully", Doc(d)) && byUser == old(byUser)[key := d]
    {
      var months := MonthsOrDefault(body.month);
      var endDate := AddMonthsAndDays(startDate, months, 0);
      var status := if body.status != "" then body.status else "Active";
      if IsExpired(endDate, today) {
        status := "Expired";
      }
      var due := 0;
      if Truthy(body.due) {
        var n := ToNumber(body.due);
        if n.None? {
          return SendError(500, CastFailure);
        }
        due := n.value;
      }
      var goal := if body.goal != "" then body.goal else "Fitness";
      var goalStatus := if body.goalStatus != "" then body.goalStatus else "Completed";
      var details := Details(startDate, endDate, status, months, goal, goalStatus, due);
      byUser := byUser[key := details];
      r := SendCreated("Member details created successfully", Doc(details));
    }

    /** `getMemberDetailsById`: 400 for a malformed id, 403 without a caller
        or for a member asking about another id, 404 without details, and
        otherwise 200 with the record. */
    function GetMemberDetailsById(caller: Option<Caller>, id: string): (r: Response<Details>)
      reads this
      ensures !IsValidObjectId(id) ==> r.status == 400
      ensures IsValidObjectId(id) && caller.None? ==> r.status == 403
      ensures IsValidObjectId(id) && caller.Some? && !caller.value.isAdmin && caller.value.id != id ==> r.status == 403
      ensures (IsValidObjectId(id) && caller.Some? && (caller.value.isAdmin || caller.value.id == id)
               && Lower(id) !in byUser) ==> r.status == 404
      ensures r.status == 200 <==>
                IsValidObjectId(id) && caller.Some? && (caller.value.isAdmin || caller.value.id == id)
                && Lower(id) in byUser
      ensures r.status == 200 ==> r.body.data == Doc(byUser[Lower(id)])
      ensures r.status != 200 ==> r.status in {400, 403, 404} && IsErrorBody(r.body)
    {
      if !IsValidObjectId(id) then SendBadRequest("Invalid MemberDetails ID")
      else if caller.None? then SendForbidden("Authentication required")
      else if !caller.value.isAdmin && caller.value.id != id then
        SendForbidden("Access denied. You can only view your own profile.")
      else if Lower(id) !in byUser then SendNotFound("Member details not found")
      else SendSuccess("Member details retrieved successfully", Doc(byUser[Lower(id)]))
    }

    /** `getAllMemberDetails`: an admin sees every record, anybody else only
        their own; no records is still a 200 (with an empty list).  Without a
        caller the handler reads a property of `undefined` and answers 500. */
    function GetAllMemberDetails(caller: Option<Caller>): (r: Response<map<Id, Details>>)
      reads this
      ensures caller.None? <==> r.status == 500
      ensures caller.Some? ==> r.status == 200 && r.body.success
      ensures caller.Some? && caller.value.isAdmin ==>
                r.body.data == (if byUser == map[] then EmptyList else Doc(byUser))
      ensures caller.Some? && !caller.value.isAdmin ==>
                if caller.value.id in byUser then r.body.data == Doc(map[caller.value.id := byUser[caller.value.id]])
                else r.body.data == EmptyList
    {
      if caller.None? then SendError(500, "Cannot read properties of undefined (reading 'isAdmin')")
      else if caller.value.isAdmin then
        if byUser == map[] then SendSuccess("No details plans found", EmptyList)
        else SendSuccess("Member details fetched successfully", Doc(byUser))
      else if caller.value.id in byUser then
        SendSuccess("Member details fetched successfully", Doc(map[caller.value.id := byUser[caller.value.id]]))
      else SendSuccess("No details plans found", EmptyList)
    }

    /** `updateMemberDetails`: loads the record, writes the supplied fields
        over it one at a time, recomputes the end date and saves; follows
        `UpdateOutcome`.  A failing cast is only detected by the save, so it
        leaves the table unchanged. */
    method UpdateMemberDetails(caller: Option<Caller>, id: string, body: UpdateBody, today: CivilDate,
                               parse: string -> Option<CivilDate>)
      returns (r: Response<Details>)
      requires Valid()
      modifies this
      ensures Valid()
      ensures var o := UpdateOutcome(caller, id, body, old(byUser), today, parse);
              match o
              case Rejected(status) => r.status == status && IsErrorBody(r.body) && byUser == old(byUser)
              case Stored(key, d) =>
                r == SendSuccess("Member details updated successfully", Doc(d)) && byUser == old(byUser)[key := d]
    {
      if caller.None? || !caller.value.isAdmin {
        return SendForbidden("Only trainers can update member details");
      }
      if !IsValidObjectId(id) {
        return SendError(500, CastFailure);
      }
      var key := Lower(id);
      if key !in byUser {
        return SendNotFound("Member details not found");
      }
      var loaded := byUser[key];
      var startDate := loaded.startDate;
      if body.startDate != "" {
        var parsed := parse(body.startDate);
        if parsed.None? {
          return SendBadRequest("Invalid start date format. Use YYYY-MM-DD or DD-MM-YYYY");
        }
        startDate := parsed.value;
      }
      var details, castFailed := PatchDetails(loaded, startDate, body, today);
      if castFailed {
        return SendError(500, CastFailure);
      }
      byUser := byUser[key := details];
      r := SendSuccess("Member details updated successfully", Doc(details));
    }

    /** `deleteMemberDetails`: admins only; removes exactly the named
        member's record. */
    method DeleteMemberDetails(caller: Option<Caller>, id: string) returns (r: Response<Details>)
      requires Valid()
      modifies this
      ensures Valid()
      ensures !IsAdminCaller(caller) ==> r.status == 403
      ensures IsAdminCaller(caller) && !IsValidObjectId(id) ==> r.status == 500
      ensures IsAdminCaller(caller) && IsValidObjectId(id) ==>
                r.status == (if Lower(id) in old(byUser) then 200 else 404)
      ensures r.status == 200 ==> byUser == old(byUser) - {Lower(id)} && r.body.success
      ensures r.status != 200 ==> byUser == old(byUser) && IsErrorBody(r.body)
    {
      if caller.None? || !caller.value.isAdmin {
        return SendForbidden("Only trainers can delete member details");
      }
      if !IsValidObjectId(id) {
        return SendError(500, CastFailure);
      }
      var key := Lower(id);
      if key !in byUser {
        return SendNotFound("Member details not found");
      }
      byUser := byUser - {key};
      r := SendSuccess("Member details deleted successfully");
    }
  }
}
