/** The custom-event form of `components/EventSelection.tsx`: both fields must hold
    something besides white space, and the event started is built from the trimmed
    fields. */
module EventSelection {
  import opened Outcomes
  import opened Strings
  import opened Types

  const CustomId: string := "custom"
  const CustomDescription: string := "A user-defined moment in history."

  /** `handleCustomSubmit`: the event handed to `onStart`, or nothing when either field
      is blank. */
  function CustomEvent(name: string, change: string): (r: Option<HistoricalEvent>)
    ensures r.Some? <==> !Blank(name) && !Blank(change)
    ensures r.Some? ==> r.value.id == CustomId && r.value.description == CustomDescription
    ensures r.Some? ==> r.value.name == Trim(name) && r.value.proposedChange == Trim(change)
    ensures r.Some? ==> r.value.name != [] && r.value.proposedChange != []
  {
    var n := Trim(name);
    var c := Trim(change);
    if n != [] && c != [] then Some(HistoricalEvent(CustomId, n, CustomDescription, c)) else None
  }

  /** The `disabled` condition of the submit button. */
  predicate SubmitDisabled(name: string, change: string) {
    Trim(name) == [] || Trim(change) == []
  }

  /** The button is disabled exactly when a submit would start nothing. */
  lemma DisabledExactlyWhenRejected(name: string, change: string)
    ensures SubmitDisabled(name, change) <==> CustomEvent(name, change).None?
  {
  }

  /** The fields of a custom event are already trimmed: typing them back into the form
      starts the very same event. */
  lemma CustomEventStable(name: string, change: string)
    requires CustomEvent(name, change).Some?
    ensures var e := CustomEvent(name, change).value;
      CustomEvent(e.name, e.proposedChange) == Some(e)
  {
    TrimIdempotent(name);
    TrimIdempotent(change);
  }

  /** Surrounding white space never changes the event started, whatever white space
      stands before and after each field. */
  lemma CustomEventIgnoresMargins(name: string, change: string,
                                  namePre: string, namePost: string, changePre: string, changePost: string)
    requires Blank(namePre) && Blank(namePost) && Blank(changePre) && Blank(changePost)
    ensures CustomEvent(namePre + name + namePost, changePre + change + changePost) == CustomEvent(name, change)
  {
    TrimPadded(name, namePre, namePost);
    TrimPadded(change, changePre, changePost);
  }
}
