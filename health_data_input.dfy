/** The health data form's record date: the validator that rejects a missing
    or future date and records the message it shows, the submit handler that
    sends nothing for a rejected date, and the submit button's disabled rule.
    Dates are day numbers; `today` is the current day. */
module HealthDataInput {
  import opened Wrappers

  /** What the date input holds: nothing, a day, or text that is not a date
      (`new Date` of it is invalid, and an invalid date is never after today). */
  datatype DateField = NoDate | OnDay(day: int) | Unreadable

  const MissingDate := "Please select a record date"
  const FutureDate := "Record date cannot be in the future"
  const SaveFailed := "Failed to save health data"
  const SaveError := "Error saving health data"

  /** The message `validateDate` shows for a date, or None when it accepts it. */
  function DateProblem(date: DateField, today: int): Option<string> {
    match date
    case NoDate => Some(MissingDate)
    case OnDay(day) => if day > today then Some(FutureDate) else None
    case Unreadable => None
  }

  /** A date is accepted exactly when it is present and not after today; a
      rejection always shows a non-empty message. */
  lemma AcceptedDates(date: DateField, today: int)
    ensures DateProblem(date, today).None? <==> date != NoDate && !(date.OnDay? && date.day > today)
    ensures DateProblem(date, today).Some? ==> DateProblem(date, today).value != ""
    ensures date == NoDate ==> DateProblem(date, today) == Some(MissingDate)
    ensures date.OnDay? && date.day > today ==> DateProblem(date, today) == Some(FutureDate)
  {
  }

  /** A date accepted today is accepted on every later day. */
  lemma AcceptedLater(date: DateField, today: int, later: int)
    requires today <= later && DateProblem(date, today).None?
    ensures DateProblem(date, later).None?
  {
  }

  /** How the request ended. */
  datatype Outcome = Saved | Rejected(error: Option<string>) | NetworkFailure

  /** The alert shown for a failed request: the server's error when it is
      non-empty, otherwise a fixed message. */
  function AlertFor(outcome: Outcome): Option<string> {
    match outcome
    case Saved => None
    case Rejected(error) => if error.Some? && error.value != "" then error else Some(SaveFailed)
    case NetworkFailure => Some(SaveError)
  }

  /** Every failed request shows a non-empty alert; a saved one shows none. */
  lemma AlertsForFailures(outcome: Outcome)
    ensures AlertFor(outcome).None? <==> outcome == Saved
    ensures AlertFor(outcome).Some? ==> AlertFor(outcome).value != ""
  {
  }

  class HealthDataForm {
    var recordDate: DateField
    var dateError: string
    var submitting: bool
    /** The record dates of the requests sent. */
    var requests: seq<DateField>
    /** How many times the form reported completion. */
    var completions: nat
    /** The alerts shown. */
    var alerts: seq<string>

    constructor()
      ensures recordDate == NoDate && dateError == "" && !submitting
      ensures requests == [] && completions == 0 && alerts == []
    {
      recordDate := NoDate;
      dateError := "";
      submitting := false;
      requests := [];
      completions := 0;
      alerts := [];
    }

    /** The submit button's `disabled` condition. */
    predicate SubmitDisabled()
      reads this
    {
      submitting || recordDate == NoDate || dateError != ""
    }

    /** `validateDate`: true when the date is accepted, with the error shown
        cleared; otherwise false, with the problem shown. */
    method ValidateDate(date: DateField, today: int) returns (ok: bool)
      modifies this
      ensures ok <==> DateProblem(date, today).None?
      ensures dateError == DateProblem(date, today).GetOr("")
      ensures recordDate == old(recordDate) && submitting == old(submitting)
      ensures requests == old(requests) && completions == old(completions) && alerts == old(alerts)
    {
      if date == NoDate {
        dateError := MissingDate;
        return false;
      }
      if date.OnDay? && date.day > today {
        dateError := FutureDate;
        return false;
      }
      dateError := "";
      ok := true;
    }

    /** `handleDateChange`: the date is stored and checked at once, so the
        button is enabled exactly for an accepted date while idle. */
    method ChangeDate(date: DateField, today: int)
      modifies this
      ensures recordDate == date && dateError == DateProblem(date, today).GetOr("")
      ensures SubmitDisabled() <==> submitting || DateProblem(date, today).Some?
      ensures submitting == old(submitting)
      ensures requests == old(requests) && completions == old(completions) && alerts == old(alerts)
    {
      recordDate := date;
      var _ := ValidateDate(date, today);
      AcceptedDates(date, today);
    }

    /** The synchronous part of `handleSubmit`: validate, then mark the form
        as submitting and send the request. */
    method BeginSubmit(today: int) returns (sent: bool)
      modifies this
      ensures sent <==> DateProblem(old(recordDate), today).None?
      ensures dateError == DateProblem(old(recordDate), today).GetOr("")
      ensures recordDate == old(recordDate) && completions == old(completions) && alerts == old(alerts)
      ensures !sent ==> submitting == old(submitting) && requests == old(requests)
      ensures sent ==> submitting && requests == old(requests) + [recordDate]
    {
      var ok := ValidateDate(recordDate, today);
      if !ok {
        return false;
      }
      submitting := true;
      requests := requests + [recordDate];
      sent := true;
    }

    /** The rest of `handleSubmit` once the request has ended: report
        completion or show an alert, and in every case stop submitting. */
    method FinishSubmit(outcome: Outcome)
      modifies this
      ensures !submitting
      ensures outcome == Saved ==> completions == old(completions) + 1 && alerts == old(alerts)
      ensures outcome != Saved ==> completions == old(completions) && alerts == old(alerts) + [AlertFor(outcome).value]
      ensures recordDate == old(recordDate) && dateError == old(dateError) && requests == old(requests)
    {
      AlertsForFailures(outcome);
      if outcome == Saved {
        completions := completions + 1;
      } else {
        alerts := alerts + [AlertFor(outcome).value];
      }
      submitting := false;
    }
  }

  /** A submission for a future date sends nothing and shows why. */
  method FutureDateNotSent(today: int) returns (f: HealthDataForm)
    ensures fresh(f) && f.requests == [] && f.dateError == FutureDate && f.SubmitDisabled()
  {
    f := new HealthDataForm();
    f.ChangeDate(OnDay(today + 1), today);
    var sent := f.BeginSubmit(today);
  }
}
