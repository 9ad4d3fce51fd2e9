/** The account collection (registerModel.js) and the handlers of
    registerController.js that create, update and delete accounts.  Password
    hashing and date parsing are parameters; image files are not modelled. */
module Accounts {
  import opened Js

  /** The schema's enum for `type`. */
  predicate IsSchemaType(t: string)
  {
    t == "trainer" || t == "user"
  }

  /** An account document.  `birthDate` is the parsed `Date` as a time value;
      `resetOTP` and `otpExpires` are unset until a reset is requested. */
  datatype Account = Account(
    name: string,
    contact: string,
    email: string,
    birthDate: int,
    password: string,
    image: Option<string>,
    accountType: string,
    resetOTP: Option<int>,
    otpExpires: Option<int>)

  /** No two accounts share an email address. */
  ghost predicate EmailsUnique(m: map<Id, Account>)
  {
    forall a, b :: a in m && b in m && a != b ==> m[a].email != m[b].email
  }

  /** What every account created through `createRegister` satisfies: a
      canonical key, a type from the schema enum, and a unique, non-empty
      email (a missing email is refused). */
  ghost predicate WellFormed(m: map<Id, Account>)
  {
    EmailsUnique(m) && forall k :: k in m ==> IsKey(k) && IsSchemaType(m[k].accountType) && m[k].email != ""
  }

  /** `findOne({ email })`: some account with exactly this email, or none. */
  method FindByEmail(m: map<Id, Account>, email: string) returns (found: Option<Id>)
    ensures found.None? <==> forall k :: k in m ==> m[k].email != email
    ensures found.Some? ==> found.value in m && m[found.value].email == email
  {
    if k :| k in m && m[k].email == email {
      found := Some(k);
    } else {
      found := None;
    }
  }

  /** With unique emails the account found by email is the only one. */
  lemma FoundByEmailIsUnique(m: map<Id, Account>, email: string, k: Id, j: Id)
    requires EmailsUnique(m)
    requires k in m && m[k].email == email
    requires j in m && m[j].email == email
    ensures k == j
  {
  }

  /** Request body of `createRegister`; the empty string stands for a missing
      field (both are falsy). */
  datatype RegisterBody = RegisterBody(
    name: string, contact: string, email: string, birthDate: string, password: string, accountType: string)

  predicate MissingField(b: RegisterBody)
  {
    b.name == "" || b.contact == "" || b.email == "" || b.birthDate == "" || b.password == "" || b.accountType == ""
  }

  class AccountTable {
    var accounts: map<Id, Account>

    ghost predicate Valid()
      reads this
    {
      WellFormed(accounts)
    }

    constructor ()
      ensures Valid() && accounts == map[]
    {
      accounts := map[];
    }

    /** `createRegister`: all six fields, a parseable birth date and an
        unused email are required; the password is stored hashed.  A type
        outside the schema enum fails Mongoose validation (500). */
    method CreateRegister(body: RegisterBody, newId: Id, hash: string -> string, parseDate: string -> Option<int>)
      returns (status: int)
      requires Valid()
      requires IsKey(newId) && newId !in accounts
      modifies this
      ensures Valid()
      ensures MissingField(body) ==> status == 400
      ensures !MissingField(body) && parseDate(body.birthDate).None? ==> status == 400
      ensures (!MissingField(body) && parseDate(body.birthDate).Some?
               && exists k :: k in old(accounts) && old(accounts)[k].email == body.email) ==> status == 400
      ensures status == 201 <==>
                !MissingField(body) && parseDate(body.birthDate).Some?
                && (forall k :: k in old(accounts) ==> old(accounts)[k].email != body.email)
                && IsSchemaType(body.accountType)
      ensures (!MissingField(body) && parseDate(body.birthDate).Some?
               && (forall k :: k in old(accounts) ==> old(accounts)[k].email != body.email)
               && !IsSchemaType(body.accountType)) ==> status == 500
      ensures status in {201, 400, 500}
      ensures status != 201 ==> accounts == old(accounts)
      ensures status == 201 ==>
                accounts == old(accounts)[newId := Account(body.name, body.contact, body.email,
                  parseDate(body.birthDate).value, hash(body.password), None, body.accountType, None, None)]
    {
      if MissingField(body) {
        return 400;
      }
      var birth := parseDate(body.birthDate);
      if birth.None? {
        return 400;
      }
      var existing := FindByEmail(accounts, body.email);
      if existing.Some? {
        return 400;
      }
      var hashed := hash(body.password);
      if !IsSchemaType(body.accountType) {
        return 500;
      }
      accounts := accounts[newId := Account(body.name, body.contact, body.email, birth.value, hashed,
                                            None, body.accountType, None, None)];
      status := 201;
    }

    /** `updateRegister`: name and contact are overwritten only when
        supplied, a supplied birth date must parse, and a new image path
        replaces the old one.  Nothing is saved before the final step, so
        every failure leaves the table unchanged.  A malformed id makes
        `findById` throw (500). */
    method UpdateRegister(id: string, name: string, contact: string, birthDate: string,
                          newImage: Option<string>, parseDate: string -> Option<int>)
      returns (status: int)
      requires Valid()
      modifies this
      ensures Valid()
      ensures !IsValidObjectId(id) ==> status == 500
      ensures IsValidObjectId(id) && Lower(id) !in old(accounts) ==> status == 404
      ensures IsValidObjectId(id) && Lower(id) in old(accounts) ==>
                status == (if birthDate != "" && parseDate(birthDate).None? then 400 else 200)
      ensures status != 200 ==> accounts == old(accounts)
      ensures status == 200 ==>
                var key := Lower(id);
                var a := old(accounts)[key];
                accounts == old(accounts)[key := a.(
                  name := if name != "" then name else a.name,
                  contact := if contact != "" then contact else a.contact,
                  birthDate := if birthDate != "" then parseDate(birthDate).value else a.birthDate,
                  image := if newImage.Some? then newImage else a.image)]
    {
      if !IsValidObjectId(id) {
        return 500;
      }
      var key := Lower(id);
      if key !in accounts {
        return 404;
      }
      var existing := accounts[key];
      if name != "" {
        existing := existing.(name := name);
      }
      if contact != "" {
        existing := existing.(contact := contact);
      }
      if birthDate != "" {
        var birth := parseDate(birthDate);
        if birth.None? {
          return 400;
        }
        existing := existing.(birthDate := birth.value);
      }
      if newImage.Some? {
        existing := existing.(image := newImage);
      }
      accounts := accounts[key := existing];
      status := 200;
    }

    /** `deleteRegister`: removes exactly the named account. */
    method DeleteRegister(id: string) returns (status: int)
      requires Valid()
      modifies this
      ensures Valid()
      ensures !IsValidObjectId(id) ==> status == 500
      ensures IsValidObjectId(id) ==> status == (if Lower(id) in old(accounts) then 200 else 404)
      ensures status == 200 ==> accounts == old(accounts) - {Lower(id)}
      ensures status != 200 ==> accounts == old(accounts)
    {
      if !IsValidObjectId(id) {
        return 500;
      }
      var key := Lower(id);
      if key !in accounts {
        return 404;
      }
      accounts := accounts - {key};
      status := 200;
    }
  }
}
