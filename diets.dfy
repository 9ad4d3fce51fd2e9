/** Diet plans (dietModel.js) and the handlers of dietController.js.  Each
    handler runs after `TrainerAuth`; it validates the path id, builds the
    filter `{ _id }` with `memberId = caller` added for a non-admin, and then
    inserts, updates or removes at most one plan.  The database keeps at
    most one plan per member and weekday. */
module Diets {
  import opened Js
  import opened Auth
  import opened AccessControl
  import opened Query
  import opened Weekdays

  datatype Diet = Diet(
    day: Weekday,
    memberId: Id,
    breakfast: string,
    lunch: string,
    snack: string,
    dinner: string,
    createdAt: int,
    updatedAt: int)

  function Owner(d: Diet): Id { d.memberId }

  /** The fields of a request body that the schema knows, after casting. */
  datatype DietBody = DietBody(
    day: Field<string>,
    memberId: Field<string>,
    breakfast: Field<string>,
    lunch: Field<string>,
    snack: Field<string>,
    dinner: Field<string>)

  /** A required String field that validates: present and not empty. */
  predicate Filled(f: Field<string>)
  {
    f.Given? && f.value != ""
  }

  /** A required String field in an update: absent, or present and not
      empty. */
  predicate FilledIfGiven(f: Field<string>)
  {
    f.Absent? || Filled(f)
  }

  /** A stored plan satisfies the schema. */
  predicate ValidDiet(d: Diet)
  {
    IsKey(d.memberId) && d.breakfast != "" && d.lunch != "" && d.snack != "" && d.dinner != ""
  }

  /** The compound unique index `{ day, memberId }`. */
  ghost predicate SlotsUnique(m: map<Id, Diet>)
  {
    forall a, b :: a in m && b in m && a != b ==> m[a].day != m[b].day || m[a].memberId != m[b].memberId
  }

  /** Some plan other than `except` already holds the member's weekday. */
  predicate SlotTaken(m: map<Id, Diet>, day: Weekday, memberId: Id, except: Option<Id>)
  {
    exists k :: k in m && Some(k) != except && m[k].day == day && m[k].memberId == memberId
  }

  /** `new DietModel({ ...req.body, memberId })` validated by `save()`: the
      day must be one of the enum's names and all four meals must be given. */
  function NewDiet(memberId: Id, body: DietBody, now: int): (r: Option<Diet>)
    ensures r.Some? <==>
              body.day.Given? && ParseWeekday(body.day.value).Some?
              && Filled(body.breakfast) && Filled(body.lunch) && Filled(body.snack) && Filled(body.dinner)
    ensures r.Some? ==>
              && r.value.memberId == memberId && Name(r.value.day) == body.day.value
              && r.value.breakfast == body.breakfast.value && r.value.lunch == body.lunch.value
              && r.value.snack == body.snack.value && r.value.dinner == body.dinner.value
              && r.value.createdAt == now && r.value.updatedAt == now
  {
    if body.day.Given? && ParseWeekday(body.day.value).Some?
       && Filled(body.breakfast) && Filled(body.lunch) && Filled(body.snack) && Filled(body.dinner)
    then Some(Diet(ParseWeekday(body.day.value).value, memberId, body.breakfast.value, body.lunch.value,
                   body.snack.value, body.dinner.value, now, now))
    else None
  }

  /** The body passes `findOneAndUpdate` with `runValidators`: each field it
      carries casts and validates. */
  predicate PatchValid(body: DietBody)
  {
    && (body.day.Absent? || (body.day.Given? && ParseWeekday(body.day.value).Some?))
    && (body.memberId.Absent? || (body.memberId.Given? && IsValidObjectId(body.memberId.value)))
    && FilledIfGiven(body.breakfast) && FilledIfGiven(body.lunch)
    && FilledIfGiven(body.snack) && FilledIfGiven(body.dinner)
  }

  /** The body written over a plan as it is, `memberId` included, with
      `updatedAt` set to now. */
  function ApplyPatch(d: Diet, body: DietBody, now: int): (r: Diet)
    requires PatchValid(body)
    ensures body.day.Absent? ==> r.day == d.day
    ensures body.day.Given? ==> Name(r.day) == body.day.value
    ensures r.memberId == (if body.memberId.Given? then Lower(body.memberId.value) else d.memberId)
    ensures r.breakfast == (if body.breakfast.Given? then body.breakfast.value else d.breakfast)
    ensures r.lunch == (if body.lunch.Given? then body.lunch.value else d.lunch)
    ensures r.snack == (if body.snack.Given? then body.snack.value else d.snack)
    ensures r.dinner == (if body.dinner.Given? then body.dinner.value else d.dinner)
    ensures r.createdAt == d.createdAt && r.updatedAt == now
    ensures ValidDiet(d) ==> ValidDiet(r)
  {
    var owner := if body.memberId.Given? then CastIsCanonical(body.memberId.value); Lower(body.memberId.value)
                 else d.memberId;
    Diet(
      if body.day.Given? then ParseWeekday(body.day.value).value else d.day,
      owner,
      if body.breakfast.Given? then body.breakfast.value else d.breakfast,
      if body.lunch.Given? then body.lunch.value else d.lunch,
      if body.snack.Given? then body.snack.value else d.snack,
      if body.dinner.Given? then body.dinner.value else d.dinner,
      d.createdAt,
      now)
  }

  /** An empty update body only touches `updatedAt`. */
  lemma EmptyPatchOnlyTouches(d: Diet, now: int)
    ensures ApplyPatch(d, DietBody(Absent, Absent, Absent, Absent, Absent, Absent), now) == d.(updatedAt := now)
  {
  }

  /** A status code with the plan the handler answers with, if any. */
  datatype Reply = Reply(status: int, diet: Option<Diet>)

  class DietStore {
    var docs: map<Id, Diet>

    ghost predicate Valid()
      reads this
    {
      (forall k :: k in docs ==> IsKey(k) && ValidDiet(docs[k])) && SlotsUnique(docs)
    }

    constructor ()
      ensures Valid() && docs == map[]
    {
      docs := map[];
    }

    /** The filter `{ _id: id }`, plus `memberId` for a non-admin, matches
        the plan stored under `key`. */
    predicate Reachable(key: Id, caller: Caller)
      reads this
    {
      key in docs && InScope(OwnerScope(caller), docs[key].memberId)
    }

    /** `adddiet`: an admin must name a well-formed member id in the body; a
        member always files for themselves.  A body that fails validation,
        or a weekday the member already has a plan for, is refused (400). */
    method AddDiet(caller: Caller, body: DietBody, newId: Id, now: int) returns (status: int, saved: Option<Diet>)
      requires Valid()
      requires IsKey(caller.id)
      requires IsKey(newId) && newId !in docs
      modifies this
      ensures Valid()
      ensures status in {201, 400}
      ensures BodyOwner(caller, body.memberId).None? ==> status == 400
      ensures status == 201 <==>
                && BodyOwner(caller, body.memberId).Some?
                && NewDiet(BodyOwner(caller, body.memberId).value, body, now).Some?
                && !SlotTaken(old(docs), NewDiet(BodyOwner(caller, body.memberId).value, body, now).value.day,
                              BodyOwner(caller, body.memberId).value, None)
      ensures status == 201 ==>
                saved == NewDiet(BodyOwner(caller, body.memberId).value, body, now)
                && docs == old(docs)[newId := saved.value]
      ensures status == 201 && !caller.isAdmin ==> saved.value.memberId == caller.id
      ensures status != 201 ==> saved.None? && docs == old(docs)
    {
      var memberId: Id;
      if caller.isAdmin {
        if !body.memberId.Given? || body.memberId.value == "" {
          return 400, None;
        }
        if !IsValidObjectId(body.memberId.value) {
          return 400, None;
        }
        memberId := Lower(body.memberId.value);
        CastIsCanonical(body.memberId.value);
      } else {
        memberId := caller.id;
      }
      var diet := NewDiet(memberId, body, now);
      if diet.None? {
        return 400, None;
      }
      if SlotTaken(docs, diet.value.day, memberId, None) {
        return 400, None;
      }
      docs := docs[newId := diet.value];
      status, saved := 201, diet;
    }

    /** `getdietById`: 400 for a malformed id; otherwise the plan the scoped
        filter matches, or 404, which a member also gets for another
        member's plan. */
    function GetDietById(caller: Caller, id: string): (r: Reply)
      reads this
      ensures !IsValidObjectId(id) ==> r == Reply(400, None)
      ensures IsValidObjectId(id) && !Reachable(Lower(id), caller) ==> r == Reply(404, None)
      ensures r.status == 200 <==> IsValidObjectId(id) && Reachable(Lower(id), caller)
      ensures r.status == 200 ==> r.diet == Some(docs[Lower(id)])
      ensures r.status == 200 && !caller.isAdmin ==> r.diet.value.memberId == caller.id
      ensures r.status != 200 ==> r.status in {400, 404} && r.diet.None?
    {
      if !IsValidObjectId(id) then Reply(400, None)
      else if !Reachable(Lower(id), caller) then Reply(404, None)
      else Reply(200, Some(docs[Lower(id)]))
    }

    /** The route `getdietById/:id`, where `checkMemberAccess` runs first. */
    function DietByIdRoute(caller: Caller, id: string): (r: Reply)
      reads this
      ensures caller.isAdmin ==> r == GetDietById(caller, id)
      ensures !caller.isAdmin && id != "" && id != caller.id ==> r == Reply(403, None)
    {
      match CheckMemberAccess(Some(caller), id)
      case Refused(status) => Reply(status, None)
      case Granted(_) => GetDietById(caller, id)
    }

    /** Through that route a member only ever obtains a plan whose own id is
        the member's account id: the middleware compares the path id with
        the caller, the handler with the plan's id. */
    lemma {:induction false} MemberRouteNeedsOwnAccountId(caller: Caller, id: string)
      requires !caller.isAdmin && IsKey(caller.id)
      ensures DietByIdRoute(caller, id).status == 200 ==> id == caller.id && caller.id in docs
    {
      if DietByIdRoute(caller, id).status == 200 {
        assert CheckMemberAccess(Some(caller), id).Granted?;
      }
    }

    /** `getAlldiet`: every plan for an admin, the caller's plans for anybody
        else; an empty result is still a 200. */
    function GetAllDiet(caller: Caller): (found: map<Id, Diet>)
      reads this
      ensures forall k :: k in found <==> Reachable(k, caller)
      ensures forall k :: k in found ==> k in docs && found[k] == docs[k]
      ensures caller.isAdmin ==> found == docs
    {
      var keys := Matching(docs, OwnerScope(caller), Owner);
      assert caller.isAdmin ==> keys == docs.Keys;
      map k | k in keys :: docs[k]
    }

    /** `getDietByDay`: some plan for that weekday name within the caller's
        scope, or 404 when there is none.  The day is compared as text, so a
        name outside the enum never matches. */
    method GetDietByDay(caller: Caller, day: string) returns (r: Reply)
      ensures r.status in {200, 404}
      ensures r.status == 200 <==>
                exists k :: Reachable(k, caller) && Name(docs[k].day) == day
      ensures r.status == 200 ==>
                r.diet.Some? && Name(r.diet.value.day) == day
                && (caller.isAdmin || r.diet.value.memberId == caller.id)
                && exists k :: k in docs && docs[k] == r.diet.value
      ensures r.status == 404 ==> r.diet.None?
    {
      if k :| k in docs && InScope(OwnerScope(caller), docs[k].memberId) && Name(docs[k].day) == day {
        r := Reply(200, Some(docs[k]));
      } else {
        r := Reply(404, None);
      }
    }

    /** `updatediet`: 400 for a malformed id or a body that fails validation
        (checked before the query runs), 404 when the scoped filter matches
        nothing, 400 when the result would duplicate a member's weekday;
        otherwise the body is written over the plan as it is. */
    method UpdateDiet(caller: Caller, id: string, body: DietBody, now: int) returns (r: Reply)
      requires Valid()
      modifies this
      ensures Valid()
      ensures !IsValidObjectId(id) || !PatchValid(body) ==> r.status == 400
      ensures IsValidObjectId(id) && PatchValid(body) && !old(Reachable(Lower(id), caller)) ==> r.status == 404
      ensures (IsValidObjectId(id) && PatchValid(body) && old(Reachable(Lower(id), caller))
               && var d := ApplyPatch(old(docs)[Lower(id)], body, now);
                  SlotTaken(old(docs), d.day, d.memberId, Some(Lower(id)))) ==> r.status == 400
      ensures r.status == 200 <==>
                && IsValidObjectId(id) && PatchValid(body) && old(Reachable(Lower(id), caller))
                && var d := ApplyPatch(old(docs)[Lower(id)], body, now);
                   !SlotTaken(old(docs), d.day, d.memberId, Some(Lower(id)))
      ensures r.status == 200 ==>
                r.diet == Some(ApplyPatch(old(docs)[Lower(id)], body, now))
                && docs == old(docs)[Lower(id) := r.diet.value]
      ensures r.status != 200 ==> r.status in {400, 404} && r.diet.None? && docs == old(docs)
    {
      if !IsValidObjectId(id) {
        return Reply(400, None);
      }
      if !PatchValid(body) {
        return Reply(400, None);
      }
      var key := Lower(id);
      if !Reachable(key, caller) {
        return Reply(404, None);
      }
      var diet := ApplyPatch(docs[key], body, now);
      if SlotTaken(docs, diet.day, diet.memberId, Some(key)) {
        return Reply(400, None);
      }
      docs := docs[key := diet];
      CastIsCanonical(id);
      r := Reply(200, Some(diet));
    }

    /** `deletediet`: 400 for a malformed id, 404 when the scoped filter
        matches nothing; otherwise exactly the matched plan is removed. */
    method DeleteDiet(caller: Caller, id: string) returns (status: int)
      requires Valid()
      modifies this
      ensures Valid()
      ensures !IsValidObjectId(id) ==> status == 400
      ensures IsValidObjectId(id) ==> status == (if old(Reachable(Lower(id), caller)) then 200 else 404)
      ensures status == 200 ==> docs == old(docs) - {Lower(id)}
      ensures status != 200 ==> docs == old(docs)
    {
      if !IsValidObjectId(id) {
        return 400;
      }
      var key := Lower(id);
      if !Reachable(key, caller) {
        return 404;
      }
      docs := docs - {key};
      status := 200;
    }
  }
}
