/** The ComparisonPair widget: its local selection and reasoning, and the
    `onPreferenceSelect(preference, reasoning)` callback each handler sends
    to the parent. A handler's out-parameter is what it sends (or `None`
    when it sends nothing). */
module ComparisonWidget {
  import opened Common

  /** The `data` prop: the pair shown and its stored annotation, if any. */
  datatype ComparisonData = ComparisonData(
    prompt: string,
    responseA: string,
    responseB: string,
    preference: Option<Preference>,
    reasoning: Option<string>)

  /** One call of `onPreferenceSelect(preference, reasoning)`. */
  datatype Emission = Emission(preference: Preference, reasoning: string)

  /** `data.reasoning || ""`: a missing reasoning shows as the empty text. */
  function InitialReasoning(data: ComparisonData): (r: string)
    ensures data.reasoning.None? ==> r == ""
    ensures data.reasoning.Some? ==> r == data.reasoning.value
  {
    match data.reasoning
    case None => ""
    case Some(text) => text
  }

  class ComparisonPair {
    var selectedPreference: Option<Preference>
    var reasoning: string

    /** The parent's copy, as last sent in `e`, agrees with what the widget
        shows: the same selection and the same reasoning. */
    predicate InSync(e: Emission)
      reads this
    {
      selectedPreference == Some(e.preference) && reasoning == e.reasoning
    }

    /** The two `useState` initialisers. */
    constructor (data: ComparisonData)
      ensures selectedPreference == data.preference
      ensures data.reasoning.Some? ==> reasoning == data.reasoning.value
      ensures data.reasoning.None? ==> reasoning == ""
    {
      selectedPreference := data.preference;
      reasoning := InitialReasoning(data);
    }

    /** Clicking response A, response B or the tie button: selects `p` and
        sends `p` with the reasoning typed so far. */
    method HandlePreferenceSelect(p: Preference) returns (e: Emission)
      modifies this`selectedPreference
      ensures selectedPreference == Some(p)
      ensures e == Emission(p, reasoning)
      ensures InSync(e)
    {
      selectedPreference := Some(p);
      e := Emission(p, reasoning);
    }

    /** Typing in the reasoning box: always keeps the text, but sends it only
        when a preference is selected. */
    method HandleReasoningChange(value: string) returns (e: Option<Emission>)
      modifies this`reasoning
      ensures reasoning == value
      ensures e.Some? <==> selectedPreference.Some?
      ensures e.Some? ==> e.value == Emission(selectedPreference.value, value) && InSync(e.value)
    {
      reasoning := value;
      if selectedPreference.Some? {
        e := Some(Emission(selectedPreference.value, value));
      } else {
        e := None;
      }
    }

    /** The Reset button: clears the selection and the reasoning, yet sends
        `("A", "")`, so the parent records a preference for A while the widget
        shows none. */
    method Reset() returns (e: Emission)
      modifies this
      ensures selectedPreference.None? && reasoning == ""
      ensures e == Emission(A, "")
      ensures !InSync(e)
    {
      selectedPreference := None;
      reasoning := "";
      e := Emission(A, "");
    }

    /** The "Save Preference" button, rendered only while a preference is
        selected (`None` when it is not there to press): sends the current
        selection and reasoning and changes nothing. */
    method Save() returns (e: Option<Emission>)
      ensures e.Some? <==> selectedPreference.Some?
      ensures e.Some? ==> InSync(e.value)
    {
      if selectedPreference.Some? {
        e := Some(Emission(selectedPreference.value, reasoning));
      } else {
        e := None;
      }
    }
  }
}
