/** Workout entries (workoutModel.js) and the handlers of
    workoutController.js: the same role-scoped pattern as the diet plans,
    without a uniqueness index, and with the list sorted newest first. */
module Workouts {
  import opened Js
  import opened Auth
  import opened Query
  import opened Weekdays

  datatype Workout = Workout(
    day: Weekday,
    memberId: Id,
    videoTitle: string,
    videoURL: string,
    setsMinutes: string,
    repeats: string,
    minimumWeight: Option<string>,
    createdAt: int,
    updatedAt: int)

  function Owner(w: Workout): Id { w.memberId }

  function Created(w: Workout): int { w.createdAt }

  /** The fields of a request body that the schema knows, after casting.
      The optional `minimumWeight` casts `null` to `null` (`Given(None)`),
      which no validator refuses; for the required fields `null` fails
      validation like a missing value. */
  datatype WorkoutBody = WorkoutBody(
    day: Field<string>,
    memberId: Field<string>,
    videoTitle: Field<string>,
    videoURL: Field<string>,
    setsMinutes: Field<string>,
    repeats: Field<string>,
    minimumWeight: Field<Option<string>>)

  /** A required String field that validates: present and not empty. */
  predicate Filled(f: Field<string>)
  {
    f.Given? && f.value != ""
  }

  /** A stored entry satisfies the schema. */
  predicate ValidWorkout(w: Workout)
  {
    IsKey(w.memberId) && w.videoTitle != "" && w.videoURL != "" && w.setsMinutes != "" && w.repeats != ""
  }

  /** `new WorkoutModel({ ...req.body, memberId })` validated by `save()`:
      a day from the enum and the four required texts; `minimumWeight` is
      optional, may be `null`, and otherwise must cast to a string. */
  function NewWorkout(memberId: Id, body: WorkoutBody, now: int): (r: Option<Workout>)
    ensures r.Some? <==>
              body.day.Given? && ParseWeekday(body.day.value).Some?
              && Filled(body.videoTitle) && Filled(body.videoURL) && Filled(body.setsMinutes) && Filled(body.repeats)
              && !body.minimumWeight.Malformed?
    ensures r.Some? ==>
              && r.value.memberId == memberId && Name(r.value.day) == body.day.value
              && r.value.videoTitle == body.videoTitle.value && r.value.videoURL == body.videoURL.value
              && r.value.setsMinutes == body.setsMinutes.value && r.value.repeats == body.repeats.value
              && (body.minimumWeight.Absent? ==> r.value.minimumWeight.None?)
              && (body.minimumWeight.Given? ==> r.value.minimumWeight == body.minimumWeight.value)
              && r.value.createdAt == now && r.value.updatedAt == now
  {
    if body.day.Given? && ParseWeekday(body.day.value).Some?
       && Filled(body.videoTitle) && Filled(body.videoURL) && Filled(body.setsMinutes) && Filled(body.repeats)
       && !body.minimumWeight.Malformed?
    then Some(Workout(ParseWeekday(body.day.value).value, memberId, body.videoTitle.value, body.videoURL.value,
                      body.setsMinutes.value, body.repeats.value,
                      if body.minimumWeight.Given? then body.minimumWeight.value else None, now, now))
    else None
  }

  /** The body passes `findOneAndUpdate` with `runValidators`. */
  predicate PatchValid(body: WorkoutBody)
  {
    && (body.day.Absent? || (body.day.Given? && ParseWeekday(body.day.value).Some?))
    && (body.memberId.Absent? || (body.memberId.Given? && IsValidObjectId(body.memberId.value)))
    && (body.videoTitle.Absent? || Filled(body.videoTitle))
    && (body.videoURL.Absent? || Filled(body.videoURL))
    && (body.setsMinutes.Absent? || Filled(body.setsMinutes))
    && (body.repeats.Absent? || Filled(body.repeats))
    && !body.minimumWeight.Malformed?
  }

  /** The body written over an entry as it is, `memberId` included, with
      `updatedAt` set to now. */
  function ApplyPatch(w: Workout, body: WorkoutBody, now: int): (r: Workout)
    requires PatchValid(body)
    ensures body.day.Absent? ==> r.day == w.day
    ensures body.day.Given? ==> Name(r.day) == body.day.value
    ensures r.memberId == (if body.memberId.Given? then Lower(body.memberId.value) else w.memberId)
    ensures r.videoTitle == (if body.videoTitle.Given? then body.videoTitle.value else w.videoTitle)
    ensures r.videoURL == (if body.videoURL.Given? then body.videoURL.value else w.videoURL)
    ensures r.setsMinutes == (if body.setsMinutes.Given? then body.setsMinutes.value else w.setsMinutes)
    ensures r.repeats == (if body.repeats.Given? then body.repeats.value else w.repeats)
    ensures r.minimumWeight == (if body.minimumWeight.Given? then body.minimumWeight.value else w.minimumWeight)
    ensures r.createdAt == w.createdAt && r.updatedAt == now
    ensures ValidWorkout(w) ==> ValidWorkout(r)
  {
    var owner := if body.memberId.Given? then CastIsCanonical(body.memberId.value); Lower(body.memberId.value)
                 else w.memberId;
    Workout(
      if body.day.Given? then ParseWeekday(body.day.value).value else w.day,
      owner,
      if body.videoTitle.Given? then body.videoTitle.value else w.videoTitle,
      if body.videoURL.Given? then body.videoURL.value else w.videoURL,
      if body.setsMinutes.Given? then body.setsMinutes.value else w.setsMinutes,
      if body.repeats.Given? then body.repeats.value else w.repeats,
      if body.minimumWeight.Given? then body.minimumWeight.value else w.minimumWeight,
      w.createdAt,
      now)
  }

  /** A `null` minimumWeight is accepted: a new entry is stored without one,
      and an update clears the one it had. */
  lemma NullMinimumWeightClears(memberId: Id, w: Workout, body: WorkoutBody, now: int)
    requires body.minimumWeight == Given(None)
    ensures NewWorkout(memberId, body, now).Some? ==> NewWorkout(memberId, body, now).value.minimumWeight.None?
    ensures PatchValid(body) ==> ApplyPatch(w, body, now).minimumWeight.None?
    ensures PatchValid(body) <==> PatchValid(body.(minimumWeight := Absent))
  {
  }

  /** A status code with the entry the handler answers with, if any. */
  datatype Reply = Reply(status: int, workout: Option<Workout>)

  class WorkoutStore {
    var docs: map<Id, Workout>

    ghost predicate Valid()
      reads this
    {
      forall k :: k in docs ==> IsKey(k) && ValidWorkout(docs[k])
    }

    constructor ()
      ensures Valid() && docs == map[]
    {
      docs := map[];
    }

    /** The filter `{ _id: id }`, plus `memberId` for a non-admin, matches
        the entry stored under `key`. */
    predicate Reachable(key: Id, caller: Caller)
      reads this
    {
      key in docs && InScope(OwnerScope(caller), docs[key].memberId)
    }

    /** `addWorkout`: an admin must name a well-formed member id in the
        body; a member always files for themselves; a body that fails
        validation is refused (400). */
    method AddWorkout(caller: Caller, body: WorkoutBody, newId: Id, now: int)
      returns (status: int, saved: Option<Workout>)
      requires Valid()
      requires IsKey(caller.id)
      requires IsKey(newId) && newId !in docs
      modifies this
      ensures Valid()
      ensures status in {201, 400}
      ensures BodyOwner(caller, body.memberId).None? ==> status == 400
      ensures status == 201 <==>
                BodyOwner(caller, body.memberId).Some? && NewWorkout(BodyOwner(caller, body.memberId).value, body, now).Some?
      ensures status == 201 ==>
                saved == NewWorkout(BodyOwner(caller, body.memberId).value, body, now)
                && docs == old(docs)[newId := saved.value]
      ensures status == 201 && !caller.isAdmin ==> saved.value.memberId == caller.id
      ensures status != 201 ==> saved.None? && docs == old(docs)
    {
      var memberId: Id;
      if caller.isAdmin {
        if !body.memberId.Given? || body.memberId.value == "" {
          return 400, None;
        }
        if !IsValidObjectId(body.memberId.value) {
          return 400, None;
        }
        memberId := Lower(body.memberId.value);
        CastIsCanonical(body.memberId.value);
      } else {
        memberId := caller.id;
      }
      var workout := NewWorkout(memberId, body, now);
      if workout.None? {
        return 400, None;
      }
      docs := docs[newId := workout.value];
      status, saved := 201, workout;
    }

    /** `getWorkoutById`: 400 for a malformed id; otherwise the entry the
        scoped filter matches, or 404. */
    function GetWorkoutById(caller: Caller, id: string): (r: Reply)
      reads this
      ensures !IsValidObjectId(id) ==> r == Reply(400, None)
      ensures IsValidObjectId(id) && !Reachable(Lower(id), caller) ==> r == Reply(404, None)
      ensures r.status == 200 <==> IsValidObjectId(id) && Reachable(Lower(id), caller)
      ensures r.status == 200 ==> r.workout == Some(docs[Lower(id)])
      ensures r.status == 200 && !caller.isAdmin ==> r.workout.value.memberId == caller.id
      ensures r.status != 200 ==> r.status in {400, 404} && r.workout.None?
    {
      if !IsValidObjectId(id) then Reply(400, None)
      else if !Reachable(Lower(id), caller) then Reply(404, None)
      else Reply(200, Some(docs[Lower(id)]))
    }

    /** `getAllWorkout`: the caller's entries (every entry for an admin),
        each once, newest first.  An empty result is still a 200. */
    method GetAllWorkout(caller: Caller) returns (status: int, ids: seq<Id>, workouts: seq<Workout>)
      ensures status == 200
      ensures |workouts| == |ids|
      ensures forall i :: 0 <= i < |ids| ==> Reachable(ids[i], caller) && workouts[i] == docs[ids[i]]
      ensures forall k :: Reachable(k, caller) ==> k in ids
      ensures forall i, j :: 0 <= i < j < |ids| ==> ids[i] != ids[j]
      ensures forall i, j :: 0 <= i < j < |workouts| ==> workouts[j].createdAt <= workouts[i].createdAt
    {
      var keys := Matching(docs, OwnerScope(caller), Owner);
      ids := SortNewestFirst(keys, docs, Created);
      var current := docs;
      workouts := seq(|ids|, i requires 0 <= i < |ids| => current[ids[i]]);
      status := 200;
    }

    /** `updateWorkout`: 400 for a malformed id or a body that fails
        validation (checked before the query runs), 404 when the scoped
        filter matches nothing; otherwise the body is written over the entry
        as it is. */
    method UpdateWorkout(caller: Caller, id: string, body: WorkoutBody, now: int) returns (r: Reply)
      requires Valid()
      modifies this
      ensures Valid()
      ensures !IsValidObjectId(id) || !PatchValid(body) ==> r.status == 400
      ensures r.status == 200 <==> IsValidObjectId(id) && PatchValid(body) && old(Reachable(Lower(id), caller))
      ensures IsValidObjectId(id) && PatchValid(body) && !old(Reachable(Lower(id), caller)) ==> r.status == 404
      ensures r.status == 200 ==>
                r.workout == Some(ApplyPatch(old(docs)[Lower(id)], body, now))
                && docs == old(docs)[Lower(id) := r.workout.value]
      ensures r.status != 200 ==> r.workout.None? && docs == old(docs)
    {
      if !IsValidObjectId(id) {
        return Reply(400, None);
      }
      if !PatchValid(body) {
        return Reply(400, None);
      }
      var key := Lower(id);
      if !Reachable(key, caller) {
        return Reply(404, None);
      }
      var workout := ApplyPatch(docs[key], body, now);
      docs := docs[key := workout];
      CastIsCanonical(id);
      r := Reply(200, Some(workout));
    }

    /** `deleteWorkout`: 400 for a malformed id, 404 when the scoped filter
        matches nothing; otherwise exactly the matched entry is removed. */
    method DeleteWorkout(caller: Caller, id: string) returns (status: int)
      requires Valid()
      modifies this
      ensures Valid()
      ensures !IsValidObjectId(id) ==> status == 400
      ensures IsValidObjectId(id) ==> status == (if old(Reachable(Lower(id), caller)) then 200 else 404)
      ensures status == 200 ==> docs == old(docs) - {Lower(id)}
      ensures status != 200 ==> docs == old(docs)
    {
      if !IsValidObjectId(id) {
        return 400;
      }
      var key := Lower(id);
      if !Reachable(key, caller) {
        return 404;
      }
      docs := docs - {key};
      status := 200;
    }
  }
}
