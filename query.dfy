/** The role-scoped filter every record handler builds (`query.memberId =
    req.trainer._id` for non-admins) and the database operations the handlers
    call on it: selecting the matching documents and sorting them by
    `createdAt`, newest first. */
module Query {
  import opened Js
  import opened Auth

  /** The `memberId` condition a handler adds to its filter: none for an
      admin, the caller's own id for anybody else. */
  function OwnerScope(caller: Caller): (scope: Option<Id>)
    ensures scope.None? <==> caller.isAdmin
    ensures scope.Some? ==> scope.value == caller.id
  {
    if caller.isAdmin then None else Some(caller.id)
  }

  /** A document owned by `memberId` passes the scope condition. */
  predicate InScope(scope: Option<Id>, memberId: Id)
  {
    scope.None? || scope.value == memberId
  }

  /** The `memberId` that `adddiet` and `addWorkout` store: for an admin the
      body's, which must be present and a well-formed ObjectId; for anybody
      else the caller's own, whatever the body says. */
  function BodyOwner(caller: Caller, bodyMember: Field<string>): (r: Option<Id>)
    ensures caller.isAdmin ==>
              (r.Some? <==> bodyMember.Given? && bodyMember.value != "" && IsValidObjectId(bodyMember.value))
    ensures caller.isAdmin && r.Some? ==> r.value == Lower(bodyMember.value)
    ensures !caller.isAdmin ==> r == Some(caller.id)
  {
    if !caller.isAdmin then Some(caller.id)
    else if !bodyMember.Given? || bodyMember.value == "" || !IsValidObjectId(bodyMember.value) then None
    else Some(Lower(bodyMember.value))
  }

  /** `find(query)` with the scope condition: the keys of the documents
      whose owner passes it. */
  function Matching<R>(docs: map<Id, R>, scope: Option<Id>, owner: R -> Id): (ks: set<Id>)
    ensures ks <= docs.Keys
    ensures forall k :: k in ks <==> k in docs && InScope(scope, owner(docs[k]))
  {
    set k | k in docs && InScope(scope, owner(docs[k]))
  }

  /** What a non-admin's scoped query matches is exactly their own
      documents; what an admin's matches is everything. */
  lemma MatchingSelectsOwnDocuments<R>(docs: map<Id, R>, caller: Caller, owner: R -> Id)
    ensures caller.isAdmin ==> Matching(docs, OwnerScope(caller), owner) == docs.Keys
    ensures !caller.isAdmin ==>
              forall k :: k in Matching(docs, OwnerScope(caller), owner) <==> k in docs && owner(docs[k]) == caller.id
  {
  }

  /** `s` lists every key of `keys` exactly once, newest first. */
  ghost predicate NewestFirst<R>(s: seq<Id>, keys: set<Id>, docs: map<Id, R>, created: R -> int)
    requires keys <= docs.Keys
  {
    && (forall i :: 0 <= i < |s| ==> s[i] in keys)
    && (forall k :: k in keys ==> k in s)
    && (forall i, j :: 0 <= i < j < |s| ==> s[i] != s[j])
    && (forall i, j :: 0 <= i < j < |s| ==> created(docs[s[j]]) <= created(docs[s[i]]))
  }

  /** `k` is a newest document among `keys`. */
  predicate IsNewest<R>(k: Id, keys: set<Id>, docs: map<Id, R>, created: R -> int)
    requires keys <= docs.Keys
  {
    k in keys && forall j :: j in keys ==> created(docs[j]) <= created(docs[k])
  }

  /** A non-empty set of documents has a newest one. */
  lemma {:induction false} NewestExists<R>(keys: set<Id>, docs: map<Id, R>, created: R -> int)
    requires keys != {} && keys <= docs.Keys
    ensures exists k :: IsNewest(k, keys, docs, created)
    decreases keys
  {
    var x :| x in keys;
    var rest := keys - {x};
    if rest == {} {
      assert keys == rest + {x};
      assert IsNewest(x, keys, docs, created);
    } else {
      NewestExists(rest, docs, created);
      var y :| IsNewest(y, rest, docs, created);
      if created(docs[x]) <= created(docs[y]) {
        assert IsNewest(y, keys, docs, created);
      } else {
        assert IsNewest(x, keys, docs, created);
      }
    }
  }

  /** `.sort({ createdAt: -1 })` over the selected documents: every one once,
      newest first (documents created at the same instant in any order). */
  method SortNewestFirst<R>(keys: set<Id>, docs: map<Id, R>, created: R -> int) returns (s: seq<Id>)
    requires keys <= docs.Keys
    ensures NewestFirst(s, keys, docs, created)
    decreases keys
  {
    if keys == {} {
      return [];
    }
    NewestExists(keys, docs, created);
    var k :| IsNewest(k, keys, docs, created);
    var tail := SortNewestFirst(keys - {k}, docs, created);
    s := [k] + tail;
  }
}
