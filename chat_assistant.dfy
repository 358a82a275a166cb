/** The input box of `components/ChatAssistant.tsx`: a message is sent only when it
    holds something besides white space and no reply is pending, and any narration is
    stopped first. */
module ChatAssistant {
  import opened Outcomes
  import opened Strings
  import opened SpeechService

  /** `handleSubmit`'s guard: the message handed to `onSendMessage`, if any. */
  function Submission(input: string, isLoading: bool): (r: Option<string>)
    ensures r.Some? <==> !Blank(input) && !isLoading
    ensures r.Some? ==> r.value == Trim(input) && r.value != []
  {
    var t := Trim(input);
    if t != [] && !isLoading then Some(t) else None
  }

  /** The `disabled` condition of the Send button. */
  predicate SendDisabled(input: string, isLoading: bool) {
    isLoading || Trim(input) == []
  }

  /** The button is disabled exactly when a submit would send nothing. */
  lemma SendDisabledExactlyWhenRejected(input: string, isLoading: bool)
    ensures SendDisabled(input, isLoading) <==> Submission(input, isLoading).None?
  {
  }

  /** A sent message is its own submission: sending it again would send the same text. */
  lemma SubmissionStable(input: string)
    requires Submission(input, false).Some?
    ensures Submission(Submission(input, false).value, false) == Submission(input, false)
  {
    TrimIdempotent(input);
  }

  /** What the component asks of its parent, in order. */
  datatype Request = Send(text: string) | ResetChat

  /** The component's `userInput` state and the requests it has made through its
      `onSendMessage` and `onResetChat` properties. */
  class ChatInput {
    var userInput: string
    var requests: seq<Request>

    constructor ()
      ensures userInput == [] && requests == []
    {
      userInput := [];
      requests := [];
    }

    /** The input's `onChange`. */
    method Edit(text: string)
      modifies this
      ensures userInput == text && requests == old(requests)
    {
      userInput := text;
    }

    /** `handleSubmit`: when the guard accepts, stop narration, send the trimmed text and
        clear the box; otherwise change nothing. */
    method Submit(isLoading: bool, svc: NarrationService)
      modifies this, svc
      ensures var m := Submission(old(userInput), isLoading);
        && (m.Some? ==>
              && svc.State() == AfterCancel(old(svc.State()))
              && requests == old(requests) + [Send(m.value)]
              && userInput == [])
        && (m.None? ==>
              && svc.State() == old(svc.State())
              && requests == old(requests)
              && userInput == old(userInput))
    {
      var t := Trim(userInput);
      if t != [] && !isLoading {
        svc.Cancel();
        requests := requests + [Send(t)];
        userInput := [];
      }
    }

    /** `handleReset`: stop narration and ask the parent to reset the conversation;
        the input box is left as it is. */
    method Reset(svc: NarrationService)
      modifies this, svc
      ensures svc.State() == AfterCancel(old(svc.State()))
      ensures requests == old(requests) + [ResetChat] && userInput == old(userInput)
    {
      svc.Cancel();
      requests := requests + [ResetChat];
    }
  }
}
