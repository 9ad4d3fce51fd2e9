/** The `day` enum that dietModel.js and workoutModel.js share: the seven
    lower-case weekday names. */
module Weekdays {
  import opened Js

  datatype Weekday = Monday | Tuesday | Wednesday | Thursday | Friday | Saturday | Sunday

  /** The stored text of a weekday. */
  function Name(d: Weekday): (s: string)
    ensures |s| >= 6
  {
    match d
    case Monday => "monday"
    case Tuesday => "tuesday"
    case Wednesday => "wednesday"
    case Thursday => "thursday"
    case Friday => "friday"
    case Saturday => "saturday"
    case Sunday => "sunday"
  }

  /** The enum validator: a string is accepted exactly when it is one of the
      seven names, case included. */
  function ParseWeekday(s: string): (r: Option<Weekday>)
    ensures r.Some? ==> Name(r.value) == s
    ensures s == "" ==> r.None?
  {
    if s == "monday" then Some(Monday)
    else if s == "tuesday" then Some(Tuesday)
    else if s == "wednesday" then Some(Wednesday)
    else if s == "thursday" then Some(Thursday)
    else if s == "friday" then Some(Friday)
    else if s == "saturday" then Some(Saturday)
    else if s == "sunday" then Some(Sunday)
    else None
  }

  /** Every weekday's name is accepted and denotes that weekday, so the
      names are distinct. */
  lemma ParseName(d: Weekday)
    ensures ParseWeekday(Name(d)) == Some(d)
  {
  }

  /** The enum is case-sensitive: a capitalised name is refused. */
  lemma {:induction false} CapitalisedNameRefused()
    ensures ParseWeekday("Monday").None?
  {
    assert "Monday"[0] != "monday"[0];
  }
}
