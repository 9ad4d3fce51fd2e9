# FitnessApp gym backend: a Dafny model

This project models the request handlers of the FitnessApp gym backend. The backend is an Express and Mongoose service with two kinds of account. Trainers (admins) manage members. Members see their own diet plans, workouts and membership details, and they file leave requests.

What is modelled:

- **Accounts and passwords** (`Accounts`, `Login`):
  - registration, profile update and account removal;
  - login by email and password;
  - the one-time-code flow for a forgotten password;
  - changing a password.
- **Authentication and role gates** (`Auth`, `AccessControl`):
  - resolving the token to a caller;
  - the `isAdmin` and `isMember` gates;
  - the `checkMemberAccess` and `checkTrainerAccess` middlewares.
- **Response envelopes** (`ResponseUtils`): the `{ success, message, data }` body and the status code of every `send*Response` helper.
- **Membership details** (`MemberDetails`, with the calendar arithmetic in `Dates`):
  - one record per member;
  - an end date computed from the start date plus the membership months, extended by leave days;
  - a status forced to `Expired` once the end date is on or before today.
- **Leave requests** (`Leaves`): members file, edit and withdraw their own pending requests; only an admin sets the status.
- **Diet plans and workouts** (`Diets`, `Workouts`, `Weekdays`):
  - per-member, per-weekday entries;
  - role-scoped queries: a non-admin's filter always carries their own id (`Query`);
  - for diets, the unique `(day, memberId)` index.

How the model is built:

- **Stores are classes.** Each collection is a class that owns a `map` from document id to record. Each handler is a method that changes that map and returns the status code and body the handler sends.
- **Decisions are pure functions.** Where a handler's decision can be stated as a pure function (`CreateOutcome`, `UpdateOutcome`, `NewLeave`, `ApplyPatch`, `NewDiet`, `ChangePasswordCheck`), the method's postcondition ties it to that function. Separate lemmas then state what the function promises.
- **Ids and Mongoose casts** (`Js`):
  - A path or body id is valid when it is 24 hexadecimal characters (`isValid`).
  - Its stored form is lower case, which is how Mongoose casts it.
  - A malformed id that reaches a query without an `isValid` guard throws a cast error. The model returns the status that the handler's `catch` sends for it.
- **JavaScript values** (`Js`): body values that the handlers test for truthiness or pass to `Number(...)` are a small `Value` datatype. Fields that Mongoose casts before validating are a `Field` type, which is absent, malformed, or given.
- **Outside services are parameters.** JWT verification, bcrypt hashing and comparison, `Math.random`, the mailer's success, the clock and the date parser are all passed in as parameters.

Behaviours of the code that the model keeps as written:

- **Member details require an account type the schema forbids.** `createMemberDetails` accepts only an account whose `type` is `'member'` (src/controllers/memberController.js:28). The account schema only allows `trainer` and `user` (src/models/registerModel.js:23-26). `MemberDetails.SchemaAccountsNeverGetDetails` proves that, for schema-valid accounts, creation is always refused.
- **Mixed-case emails cannot log in.** Login lower-cases the submitted email and then looks it up by exact match. Registration stores the email as given. `Login.MixedCaseEmailCannotLogIn` proves that an account whose stored email has an upper-case letter can never log in.
- **`resetPassword` never checks the one-time code.** `VerifyEmail` only reads it and changes nothing. A code sent as a JSON string never equals the stored Number.
- **`forgottrainerPassword` stores the new code before it sends the mail**, so the code stays stored even when sending fails (500).
- **A member's leave edit is not filtered.** It can set the request's own `status` or its `memberId` (`Leaves.MemberEditIsUnfiltered`).
- **`getdietById` behind `checkMemberAccess`:** a member gets a plan only when the plan's own id equals the member's account id (`Diets.DietStore.MemberRouteNeedsOwnAccountId`).
- **Sending the number 0 never resets `member_due` or `member_month` to zero**, because 0 is falsy and the field is skipped (`MemberDetails.DueCannotBeCleared`). The text `"0"` is truthy, so it is written and cast to 0 (`MemberDetails.ZeroTextSetsZero`).
- **Workout and diet updates run their validators before the query.** A body that fails validation is a 400 even when the id matches nothing.

## Model

| member | source | states |
|---|---|---|
| Js.ToNumber | src/controllers/memberController.js:43 | `Number(v)` for the body values the handlers convert: a number is itself, `undefined` is NaN (`None`), and `null`, `""` and `false` are 0 |
| Js.NumberOfDecimalText | src/controllers/memberController.js:43 | the decimal text of any integer (optionally negative) converts back to that integer |
| Js.Lower | src/controllers/loginController.js:18 | `toLowerCase` keeps the length and maps each letter A-Z to a-z, leaving other characters alone |
| Dates.DaysInMonth | src/controllers/memberController.js:10-14 | month lengths: 31 days exactly for months 1, 3, 5, 7, 8, 10 and 12, 30 exactly for months 4, 6, 9 and 11, and February 29 in leap years and 28 otherwise |
| Dates.NextDay | src/controllers/memberController.js:12 | the next calendar day is strictly later and is either the following day of the same month or the first of a month |
| Dates.YearLength | src/controllers/memberController.js:12 | on the day ordinal a year is 366 days long exactly when it is a Gregorian leap year and 365 days otherwise |
| Dates.NextDayCounts | src/controllers/memberController.js:12 | the next calendar day is exactly one day on the day ordinal, across month and year ends |
| Dates.AddDays | src/controllers/memberController.js:12 | adding n days leaves the date unchanged exactly when n is 0 and moves it strictly later otherwise |
| Dates.AddDaysCounts | src/controllers/memberController.js:12 | `add(n, 'day')` gives exactly the date n days on the day ordinal |
| Dates.AddDaysTwice | src/controllers/memberController.js:12 | adding a days and then b days is adding a + b days |
| Dates.AddDaysMonotonic | src/controllers/memberController.js:12 | adding more days never gives an earlier date |
| Dates.AddMonths | src/controllers/memberController.js:12 | adding n months moves the month index by exactly n and keeps the day, clamped to the last day of the target month |
| Dates.AddMonthsAndDays | src/controllers/memberController.js:10-14 | `addMonthsAndDays` adds the months first; with no days it is the month addition, with days it is strictly later |
| Dates.AddMonthsDirection | src/controllers/memberController.js:10-14 | adding zero months is the identity, and a positive number of months moves the date strictly later |
| Dates.AddTwelveMonths | src/controllers/memberController.js:19 | the default twelve-month membership ends on the same month and day a year later, except 29 February, which becomes the 28th |
| Dates.MembershipExamples | src/controllers/memberController.js:10-14 | twelve months from 2024-01-15 is 2025-01-15, plus ten leave days is 2025-01-25, and 31 January plus a month clamps to the end of February in leap and common years |
| Dates.ExpiryBoundary | src/controllers/memberController.js:47-49 | an end date equal to today is already expired, tomorrow's is not, and adding leave days never makes an unexpired membership expire |
| ResponseUtils.SendResponse | src/utils/ResponseUtils.js:1-7 | the response has the given status, success flag and message; the data is never `undefined`: an omitted or `undefined` argument becomes `null`, and any other value is sent as it is |
| ResponseUtils.SendSuccess | src/utils/ResponseUtils.js:9-15 | status 200 and success true; truthy data is sent as given and falsy data is replaced by `[]`, so the data sent is always truthy |
| ResponseUtils.SendCreated | src/utils/ResponseUtils.js:25-31 | status 201 and success true; truthy data is sent as given and falsy data is replaced by `[]` |
| ResponseUtils.SendError | src/utils/ResponseUtils.js:17-23 | the given status and message, success false and data `[]` |
| ResponseUtils.SendNotFound | src/utils/ResponseUtils.js:33-39 | status 404 with the message, success false and data `[]` |
| ResponseUtils.SendBadRequest | src/utils/ResponseUtils.js:41-47 | status 400 with the message, success false and data `[]` |
| ResponseUtils.SendUnauthorized | src/utils/ResponseUtils.js:49-55 | status 401 with the message, success false and data `[]` |
| ResponseUtils.SendForbidden | src/utils/ResponseUtils.js:57-63 | status 403 with the message, success false and data `[]` |
| ResponseUtils.FixedCodesAreErrorResponses | src/utils/ResponseUtils.js:17-63 | each fixed-code helper is `sendErrorResponse` at its own code, and the success and created helpers both report success at different codes |
| ResponseUtils.HelpersAreSendResponse | src/utils/ResponseUtils.js:1-31 | the success, created and error helpers send the envelope `sendResponse` would send at 200, 201 or the given code, with `data \|\| []` on success and `[]` on error |
| Accounts.FindByEmail | src/controllers/registerController.js:27-30 | `findOne({ email })` finds nothing exactly when no account has that email, and otherwise finds an account with exactly that email |
| Accounts.FoundByEmailIsUnique | src/controllers/registerController.js:27-33 | while registration keeps emails unique, two accounts with the same email are the same account |
| Accounts.AccountTable.CreateRegister | src/controllers/registerController.js:8-53 | 400 for a missing field, an unparsable birth date or an email already in use; 500 for a type outside the enum; otherwise 201, adding exactly one account with the hashed password; nothing changes on failure |
| Accounts.AccountTable.UpdateRegister | src/controllers/registerController.js:96-166 | 500 for a malformed id, 404 for an unknown one; otherwise only the supplied fields and the new image change on that one account |
| Accounts.AccountTable.DeleteRegister | src/controllers/registerController.js:169-197 | 500 for a malformed id, 404 for an unknown one, otherwise 200, removing exactly that account |
| Auth.IsAdmin | src/middlewares/auth.js:29-39 | passes exactly an admin caller and answers 403 to everyone else |
| Auth.IsMember | src/middlewares/auth.js:41-55 | 401 without a caller, 403 for an admin, and passes exactly a non-admin caller |
| Auth.ExactlyOneRole | src/middlewares/auth.js:29-55 | every authenticated caller passes exactly one of the two role gates |
| Auth.TrainerAuth | src/middlewares/auth.js:4-27 | authenticates exactly when the token is present, verifies to a well-formed id and that id names an account, which becomes the caller; every failure is a 400 |
| AccessControl.CheckMemberAccess | src/middlewares/accessControl.js:5-32 | 401 without a caller; an admin always passes; a member passes only with an empty path id or their own id, otherwise 403 |
| AccessControl.CheckTrainerAccess | src/middlewares/accessControl.js:35-67 | 401 without a caller; an admin passes only when the path id names a trainer account (403 otherwise); a member passes only for their own id |
| AccessControl.MembersOnlyReachThemselves | src/middlewares/accessControl.js:21-59 | a member naming any other non-empty id is refused with 403 by both middlewares |
| Login.GenerateOtp | src/controllers/loginController.js:7 | for a random number in [0, 1) the code is a six-digit number between 100000 and 999999 |
| Login.LoginTrainer | src/controllers/loginController.js:9-56 | 400 without email or password, 404 when no account has the lower-cased email, 401 exactly when the account with the lower-cased email has a different password, and 200 whenever that account's password matches, reporting that account |
| Login.MixedCaseEmailCannotLogIn | src/controllers/loginController.js:18 | an account whose stored email is not all lower case never equals a lower-cased lookup email |
| Login.ForgotPassword | src/controllers/loginController.js:59-99 | 400 exactly when the email is missing or unknown (nothing changes); otherwise a six-digit code and an expiry ten minutes ahead are stored on that account, and the answer is 200 when the mail is sent and 500 when it is not |
| Login.VerifyEmail | src/controllers/loginController.js:102-131 | 400 without email or code, 404 exactly when no account has that email, 400 for a known email whose code differs or has expired, and 200 exactly when the account holds the same numeric code and it has not expired; a code sent as text never verifies; nothing changes |
| Login.ResetPassword | src/controllers/loginController.js:134-168 | 200 exactly when both passwords are present and equal and the email names an account; that account gets the new hash and loses its code and expiry; nothing changes otherwise |
| Login.ChangePasswordCheck | src/controllers/loginController.js:171-204 | the checks in source order: 400 for a missing field, 500 for a malformed id, 404 for an unknown id, then 400 for a wrong old password, a new password equal to the old one, or an unequal confirmation; passes exactly when all hold |
| Login.ChangePasswordFirstFailureDecides | src/controllers/loginController.js:190-204 | a wrong old password is reported before the other checks, and reusing the old password is always refused |
| Login.ChangePassword | src/controllers/loginController.js:171-215 | follows `ChangePasswordCheck`: on a pass only that account's password hash changes (200), otherwise nothing changes |
| Query.OwnerScope | src/controllers/leaveController.js:29-33 | an admin's filter has no owner condition and anyone else's is their own id |
| Query.BodyOwner | src/controllers/dietController.js:7-26 | the owner an add handler stores: an admin must supply a non-empty, well-formed member id, which becomes the owner; anyone else always owns the entry themselves |
| Query.Matching | src/controllers/leaveController.js:47-51 | the documents selected are exactly those whose owner passes the scope condition |
| Query.MatchingSelectsOwnDocuments | src/controllers/leaveController.js:45-68 | an admin's scoped query selects every document, and a non-admin's selects exactly their own |
| Query.SortNewestFirst | src/controllers/leaveController.js:51 | `sort({ createdAt: -1 })` lists every selected document exactly once, by non-increasing creation time |
| Weekdays.ParseWeekday | src/models/dietModel.js:4-8 | a string is accepted only when it is the name of the weekday returned, so the empty string is refused |
| Weekdays.ParseName | src/models/dietModel.js:7 | every weekday's name parses back to that weekday |
| Weekdays.CapitalisedNameRefused | src/models/dietModel.js:7 | the enum is case-sensitive: "Monday" is refused |
| MemberDetails.MonthsOrDefault | src/controllers/memberController.js:43 | `Number(member_month) \|\| 12`: a non-zero numeric month count is kept, and a missing, zero or non-numeric one becomes 12 |
| MemberDetails.RecomputedMonths | src/controllers/memberController.js:145 | a non-zero numeric month count wins, then a non-zero stored count, then 12 |
| MemberDetails.CastIfTruthy | src/controllers/memberController.js:133-136 | a falsy Number field keeps the stored value, and a truthy one must convert |
| MemberDetails.CreateOutcome | src/controllers/memberController.js:17-64 | 403 unless admin; 404 without a member or for an unknown one; 500 for a malformed id or due; 400 for a non-'member' account, existing details or an unparsable start; stored exactly when every check passes, as details under the member's key, ending `months` after the start, with defaults Fitness, Completed, 0 and Active, and Expired exactly when the end is on or before today |
| MemberDetails.WriteSuppliedFields | src/controllers/memberController.js:131-137 | each truthy supplied field overwrites the loaded one; reports a cast failure exactly when a truthy month or due does not convert |
| MemberDetails.PatchDetails | src/controllers/memberController.js:131-151 | the supplied fields, then leave days extending the end date, or a new start or month count recomputing it, then Expired once the end is reached |
| MemberDetails.UpdatedEnd | src/controllers/memberController.js:139-147 | positive leave days extend the stored end date by exactly that many days |
| MemberDetails.Patched | src/controllers/memberController.js:123-151 | the start date is the given one, only truthy fields overwrite, the end date is extended by leave days, recomputed after a new start or month count, or kept, and the status is Expired exactly when the end is reached and otherwise the supplied or stored one |
| MemberDetails.UpdateOutcome | src/controllers/memberController.js:111-158 | 403 unless admin, 500 for a malformed id or an uncastable field, 404 without details, 400 for an unparsable start; otherwise only truthy fields overwrite, leave days take precedence over recomputation, and Expired overrides a supplied status exactly when the end is reached |
| MemberDetails.OnlyAdminsChangeDetails | src/controllers/memberController.js:20-22 | a non-admin caller is refused with 403 by both create and update |
| MemberDetails.SchemaAccountsNeverGetDetails | src/controllers/memberController.js:28-30 | with accounts whose type is within the schema's enum, creation is always refused |
| MemberDetails.DueCannotBeCleared | src/controllers/memberController.js:133-136 | an update that sends the number 0 for `member_due` and `member_month` leaves both stored values unchanged |
| MemberDetails.ZeroTextSetsZero | src/controllers/memberController.js:133-136 | an update that sends the text "0" for `member_due` and `member_month` stores 0 in both |
| MemberDetails.CreateThenLeaveExample | src/controllers/memberController.js:138-147 | a twelve-month membership from 2024-01-15 ends on 2025-01-15 and is Active, and ten leave days then move its end to 2025-01-25 with nothing else changed |
| MemberDetails.MemberDetailsTable.CreateMemberDetails | src/controllers/memberController.js:17-64 | follows `CreateOutcome`: a refusal leaves the table unchanged with its error status, and success stores exactly the decided record and answers 201 with it |
| MemberDetails.MemberDetailsTable.InsertNew | src/controllers/memberController.js:43-60 | a `member_due` that does not cast answers 500 and changes nothing; otherwise exactly the record with its defaults and end date is inserted under the member's key and answered with 201 |
| MemberDetails.MemberDetailsTable.GetMemberDetailsById | src/controllers/memberController.js:67-89 | 400 for a malformed id, 403 without a caller or for a member asking about another id, 404 when the caller may see the id but no details exist, and otherwise 200 with that record |
| MemberDetails.MemberDetailsTable.GetAllMemberDetails | src/controllers/memberController.js:92-108 | 500 exactly without a caller; an admin gets every record and a member at most their own; an empty result is a 200 with `[]` |
| MemberDetails.MemberDetailsTable.UpdateMemberDetails | src/controllers/memberController.js:111-158 | follows `UpdateOutcome`: a refusal leaves the table unchanged, and success replaces exactly that member's record and answers 200 with it |
| MemberDetails.MemberDetailsTable.DeleteMemberDetails | src/controllers/memberController.js:161-176 | 403 unless admin, 500 for a malformed id, 404 without details, otherwise 200, removing exactly that record |
| Leaves.ParseStatus | src/models/leaveModel.js:17-21 | exactly the three enum strings are accepted, each as its own status |
| Leaves.InitialStatus | src/models/leaveModel.js:17-21 | a missing status becomes Pending, and a given one must be in the enum |
| Leaves.NewLeave | src/controllers/leaveController.js:12-16 | a leave is created exactly when date and a non-empty reason are given and the status is valid; it belongs to the filing member and carries the body's fields and timestamps set to now |
| Leaves.NewLeaveIgnoresBodyOwner | src/controllers/leaveController.js:12-15 | the body's `memberId` never changes who owns a new leave |
| Leaves.ApplyPatch | src/controllers/leaveController.js:89-93 | an update applies exactly when every supplied field validates; every supplied field is written as is, `memberId` and `status` included; validity of the stored leave is preserved |
| Leaves.MemberEditIsUnfiltered | src/controllers/leaveController.js:89-93 | a member's edit can approve their own pending request or hand it to another member |
| Leaves.LeaveStore.AddLeave | src/controllers/leaveController.js:6-21 | 403 for an admin, 400 for an invalid body, otherwise 201, storing exactly the new leave, owned by the caller |
| Leaves.LeaveStore.GetLeaveById | src/controllers/leaveController.js:24-42 | 400 for a malformed id, 404 exactly when a well-formed id names no leave in the caller's scope (so a member gets 404 for another member's leave), and otherwise 200 with that leave |
| Leaves.LeaveStore.GetAllLeave | src/controllers/leaveController.js:45-68 | lists exactly the caller's leaves (all for an admin), each once, newest first |
| Leaves.LeaveStore.UpdateLeave | src/controllers/leaveController.js:71-98 | 400 for a malformed id, 403 for an admin, 404 unless the caller owns it, 400 when it is not pending, 400 when the body fails validation; otherwise exactly that leave becomes `ApplyPatch` of it |
| Leaves.LeaveStore.DeleteLeave | src/controllers/leaveController.js:101-124 | 400 for a malformed id, 403 for an admin, 404 unless the caller owns it, 400 when it is not pending; a pending leave of the caller's own is removed and nothing else changes |
| Leaves.LeaveStore.UpdateLeaveStatus | src/controllers/leaveController.js:127-153 | 400 for a malformed id, 403 for a non-admin, 400 for a status outside the enum, 404 for an unknown leave; otherwise only the status changes, with `updatedAt` moved to now only when the status differs from the stored one |
| Diets.NewDiet | src/controllers/dietController.js:28-42 | a plan is created exactly when the day is an enum name and all four meals are non-empty; it carries the owner, the body's fields and timestamps set to now |
| Diets.ApplyPatch | src/controllers/dietController.js:121-142 | every supplied field is written as is, `memberId` included, and `updatedAt` becomes now; a valid plan stays valid |
| Diets.EmptyPatchOnlyTouches | src/controllers/dietController.js:121-142 | an empty update body changes nothing but `updatedAt` |
| Diets.DietStore.AddDiet | src/controllers/dietController.js:5-51 | 201 exactly when the owner is settled, the plan validates and the owner has no plan for that weekday, storing exactly the new plan; 400 otherwise with nothing changed; the unique `(day, memberId)` index is preserved |
| Diets.DietStore.GetDietById | src/controllers/dietController.js:54-71 | 400 for a malformed id, 404 when a well-formed id names no plan in the caller's scope, and otherwise 200 with that plan |
| Diets.DietStore.DietByIdRoute | src/routes/dietRoutes.js:22 | `checkMemberAccess` before the handler: an admin gets the handler's answer, and a member naming another non-empty id gets 403 |
| Diets.DietStore.MemberRouteNeedsOwnAccountId | src/routes/dietRoutes.js:22 | through that route a member obtains a plan only when the plan's id is their own account id |
| Diets.DietStore.GetAllDiet | src/controllers/dietController.js:74-101 | exactly the plans in the caller's scope, all plans for an admin |
| Diets.DietStore.GetDietByDay | src/controllers/dietController.js:104-118 | 200 exactly when some plan in scope has that weekday name, answering with such a plan; 404 otherwise |
| Diets.DietStore.UpdateDiet | src/controllers/dietController.js:121-142 | 400 for a malformed id or invalid body, 404 when out of scope, 400 exactly when the result would clash with another plan's weekday; otherwise exactly that plan becomes `ApplyPatch` of it |
| Diets.DietStore.DeleteDiet | src/controllers/dietController.js:145-164 | 400 for a malformed id, 404 when out of scope, otherwise exactly that plan is removed |
| Workouts.NewWorkout | src/controllers/workoutController.js:23-32 | an entry is created exactly when the day is an enum name, the four required texts are non-empty and a given minimum weight is `null` or casts; it carries the owner, the body's fields (minimum weight only when given and not `null`) and timestamps set to now |
| Workouts.ApplyPatch | src/controllers/workoutController.js:86-107 | every supplied field is written as is, `memberId` included, and `updatedAt` becomes now; a valid entry stays valid |
| Workouts.NullMinimumWeightClears | src/models/workoutModel.js:30-33 | a `null` minimum weight passes validation like an absent one, a new entry is stored without one, and an update clears it |
| Workouts.WorkoutStore.AddWorkout | src/controllers/workoutController.js:6-37 | 201 exactly when the owner is settled and the entry validates (a `null` minimum weight included), storing exactly the new entry; 400 otherwise with nothing changed |
| Workouts.WorkoutStore.GetWorkoutById | src/controllers/workoutController.js:40-57 | 400 for a malformed id, 404 when a well-formed id names no entry in the caller's scope, and otherwise 200 with that entry |
| Workouts.WorkoutStore.GetAllWorkout | src/controllers/workoutController.js:60-83 | lists exactly the entries in the caller's scope, each once, newest first |
| Workouts.WorkoutStore.UpdateWorkout | src/controllers/workoutController.js:86-107 | 400 for a malformed id or invalid body (a `null` minimum weight is valid), 404 when out of scope; otherwise exactly that entry becomes `ApplyPatch` of it |
| Workouts.WorkoutStore.DeleteWorkout | src/controllers/workoutController.js:110-129 | 400 for a malformed id, 404 when out of scope, otherwise exactly that entry is removed |

## Left out

- **I/O and outside services are parameters.** JWT signing and verification, bcrypt, the mailer, `Math.random`, the clock and cookies are passed in. The token that login issues is not modelled: the model reports the account it would carry. The cookie cleared on logout is not modelled.
- **Date parsing is a parameter.** The input formats dayjs accepts (`YYYY-MM-DD`, `DD-MM-YYYY`, …) are abstracted as a `parse` function. Dates are stored as calendar dates rather than their `YYYY-MM-DD` text.
- **Numbers are integers.** `Number(...)` is modelled on integers and plain decimal text. Fractional numbers, whitespace, hexadecimal and exponent forms are not modelled.
- **Mongoose `populate`** and the `formattedDate` and `DD-MM-YYYY` profile formatting are display only and are not modelled. For the same reason, `getMemberProfileById`, `getRegisterById`, `getAllRegister` and `logoutTrainer` (read-only views and a cookie clear) are not modelled.
- **Uploaded images are not files.** They are modelled only as the stored path; unlinking the old file is not modelled.
- **Database errors are not modelled.** A lost connection is not modelled, and neither are concurrent requests racing past the unique-index checks. Only cast failures and validation failures reach the `catch` branches in the model.
- **Error bodies carry no exact message.** The `error.message` text of a caught exception is not reproduced; the model keeps only the status code and whether the body is an error.
- **Unknown body keys (such as `_id` or timestamps) are not modelled.** The spread copies them into a new document. Only the fields the schema declares are.
- **Undefined filters are not modelled.** `findOne({ email: undefined })` and `findOne({ _id: undefined })` depend on Mongoose's treatment of undefined filter values. An absent email or id is modelled as the empty string. Every stored account has a non-empty email (`Accounts.WellFormed`, kept by every handler), so an absent email matches no account.
- **Records without an end date are not modelled.** Details records always carry an end date. The `|| dayjs()` fallback for a missing one is therefore not modelled.
- **ObjectId strings of 12 characters are not modelled.** `ObjectId.isValid` accepts them; the model accepts only the 24-hex-digit form.
- Diets.DietStore.GetAllDiet: returns the matching plans as a map. `getAlldiet` calls `find` without a sort, so the source's array comes in whatever order the database returns, and the model does not fix that order.
- Login.LoginTrainer: does not model the 500 answer that the handler gives when token generation fails, because `getJWT` always yields a token.
- Js.Lower: folds only the ASCII letters A-Z. `toLowerCase` also folds non-ASCII letters (É to é), and for a few characters, such as İ, it changes the length. The model does not capture this, so a login with a non-ASCII upper-case email that the source would find is a 404 in the model.
- Login.VerifyEmail: does not model its `save()` call. The call writes back an unchanged document, so the model changes nothing.
- **The fitness-test and measurement controllers are not modelled**, and neither are the Express server, the route wiring (apart from `getdietById`) or the image-upload middleware. They are outside the core handlers.
