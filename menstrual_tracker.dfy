/** views/patient/MenstrualTrackerModule.tsx: the input checks of
    `handleGetInsights` and the state it sets around the insights call.
    `parseInt` is abstract: the day arrives already parsed, None standing
    for NaN. */
module MenstrualTracker {
  import opened Wrappers
  import opened Types
  import opened Text

  const InvalidDayMessage := "Please enter a valid cycle day (e.g., 1-60)."
  const NoSymptomsMessage := "Please describe any symptoms you're experiencing."
  const InsightsFailedMessage := "Sorry, we couldn't generate insights at this time. Please try again later."

  predicate ValidCycleDay(day: Option<int>) {
    day.Some? && 1 <= day.value <= 60
  }

  /** The error the form reports, if any: the day is checked before the symptoms. */
  function ValidateCycleInput(day: Option<int>, symptoms: string): (e: Option<string>)
    ensures e == Some(InvalidDayMessage) <==> !ValidCycleDay(day)
    ensures e == Some(NoSymptomsMessage) <==> ValidCycleDay(day) && IsBlank(symptoms)
    ensures e.None? <==> ValidCycleDay(day) && !IsBlank(symptoms)
  {
    if day.None? || day.value < 1 || day.value > 60 then Some(InvalidDayMessage)
    else if IsBlank(symptoms) then Some(NoSymptomsMessage)
    else None
  }

  /** Days 1 and 60 are accepted, 0 and 61 are not. */
  lemma CycleDayBounds(symptoms: string)
    requires !IsBlank(symptoms)
    ensures ValidateCycleInput(Some(1), symptoms).None?
    ensures ValidateCycleInput(Some(60), symptoms).None?
    ensures ValidateCycleInput(Some(0), symptoms) == Some(InvalidDayMessage)
    ensures ValidateCycleInput(Some(61), symptoms) == Some(InvalidDayMessage)
  {
  }

  /** Symptoms made only of white space count as none. */
  lemma WhitespaceSymptomsRejected(day: int, symptoms: string)
    requires 1 <= day <= 60
    requires forall i :: 0 <= i < |symptoms| ==> IsWhitespace(symptoms[i])
    ensures ValidateCycleInput(Some(day), symptoms) == Some(NoSymptomsMessage)
  {
    BlankIffAllWhitespace(symptoms);
  }

  /** The module's `isLoading`, `insights` and `error` state. */
  class Tracker {
    var isLoading: bool
    var insights: Option<MenstrualInsights>
    var error: Option<string>

    constructor ()
      ensures !isLoading && insights.None? && error.None?
    {
      isLoading := false;
      insights := None;
      error := None;
    }

    /** `handleGetInsights`, with the service's reply as input. Returns the
        request sent, if the input passed the checks; the symptoms are sent
        as typed, untrimmed. */
    method GetInsights(day: Option<int>, symptoms: string, reply: Reply<MenstrualInsights>)
      returns (request: Option<MenstrualData>)
      modifies this
      ensures ValidateCycleInput(day, symptoms).Some? ==>
        && request.None?
        && error == ValidateCycleInput(day, symptoms)
        && isLoading == old(isLoading) && insights == old(insights)
      ensures ValidateCycleInput(day, symptoms).None? ==>
        && request == Some(MenstrualData(day.value, symptoms))
        && !isLoading
      ensures ValidateCycleInput(day, symptoms).None? && reply.Answered? ==>
        insights == Some(reply.value) && error.None?
      ensures ValidateCycleInput(day, symptoms).None? && reply.Failed? ==>
        insights.None? && error == Some(InsightsFailedMessage)
    {
      var invalid := ValidateCycleInput(day, symptoms);
      if invalid.Some? {
        error := invalid;
        return None;
      }
      isLoading := true;
      error := None;
      insights := None;
      request := Some(MenstrualData(day.value, symptoms));
      match reply {
        case Answered(result) => insights := Some(result);
        case Failed(_) => error := Some(InsightsFailedMessage);
      }
      isLoading := false;
    }
  }
}
