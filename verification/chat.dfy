/*
  The chat panel: the text box with its submit gate, the placeholder shown
  in each step, and the quick budget buttons of the budget step.
*/
module ChatInterface {
  import opened Wrappers
  import opened Text
  import opened Types
  import Conversation

  /** What a submit sends, if anything: the trimmed input, and only when it
      is not blank and no reply is pending. */
  function SubmitGate(input: string, isLoading: bool): (r: Option<string>)
    ensures r.Some? <==> !AllSpace(input) && !isLoading
    ensures r.Some? ==> r.value != [] && Trimmed(r.value) && r.value == Trim(input)
  {
    var t := Trim(input);
    if t != [] && !isLoading then Some(t) else None
  }

  /** A blank input, or one sent while loading, never reaches the chat. */
  lemma BlankInputIsNeverSent(input: string, ws: string, isLoading: bool)
    requires AllSpace(ws)
    ensures SubmitGate(ws, isLoading) == None
    ensures SubmitGate(input, true) == None
  {
  }

  /** An input that is already trimmed is sent as it is. */
  lemma TrimmedInputIsSentAsIs(input: string, isLoading: bool)
    requires Trimmed(input)
    ensures SubmitGate(input, isLoading) == if input != [] && !isLoading then Some(input) else None
  {
    TrimFixesTrimmed(input);
  }

  /** Surrounding spaces do not change what is sent. */
  lemma SubmitIgnoresSurroundingSpace(input: string, isLoading: bool)
    ensures SubmitGate(Trim(input), isLoading) == SubmitGate(input, isLoading)
  {
    TrimmedInputIsSentAsIs(Trim(input), isLoading);
  }

  /** The text box: `input` is its content. */
  class ChatInput {
    var input: string

    constructor ()
      ensures input == ""
    {
      input := "";
    }

    /** The `onChange` handler. */
    method Type(text: string)
      modifies this
      ensures input == text
    {
      input := text;
    }

    /** Whether the send button is enabled. */
    function CanSend(isLoading: bool): (b: bool)
      reads this
      ensures b <==> SubmitGate(input, isLoading).Some?
    {
      !AllSpace(input) && !isLoading
    }

    /** `handleSubmit`: sends the trimmed input and clears the box, or does
        nothing at all. */
    method HandleSubmit(isLoading: bool) returns (sent: Option<string>)
      modifies this
      ensures sent == SubmitGate(old(input), isLoading)
      ensures sent.Some? ==> input == ""
      ensures sent.None? ==> input == old(input)
    {
      var t := Trim(input);
      if t != [] && !isLoading {
        sent := Some(t);
        input := "";
      } else {
        sent := None;
      }
    }
  }

  /** The placeholders of the text box, one per text the source has. */
  datatype Placeholder = DescribeTrip | EnterBudget | AskAboutDestinations | AskAboutItinerary | TypeMessage

  /** The words of each placeholder. */
  function PlaceholderText(p: Placeholder): string {
    match p
    case DescribeTrip => "Describe your dream trip (e.g., 'I love mountains, want something peaceful')"
    case EnterBudget => "Enter your budget (e.g., '2000' or '$2000')"
    case AskAboutDestinations => "Ask questions about the destinations or say 'show more options'"
    case AskAboutItinerary => "Ask about your itinerary or request modifications"
    case TypeMessage => "Type your message..."
  }

  /** `getPlaceholder`: each step has a placeholder of its own, and a step
      without one gets the generic `TypeMessage`. */
  function PlaceholderFor(step: Step): (p: Placeholder)
    ensures p == TypeMessage <==> step == Generating
    ensures step == Budget <==> p == EnterBudget
  {
    match step
    case Initial => DescribeTrip
    case Budget => EnterBudget
    case Destinations => AskAboutDestinations
    case Itinerary => AskAboutItinerary
    case Generating => TypeMessage
  }

  /** Different steps show different placeholders. */
  lemma PlaceholdersTellStepsApart(s1: Step, s2: Step)
    requires s1 != s2
    ensures PlaceholderFor(s1) != PlaceholderFor(s2)
  {
  }

  /** The amounts of the four quick budget buttons. */
  const QuickBudgetAmounts: seq<nat> := [1000, 2500, 5000, 10000]

  /** The messages the quick budget buttons send; the buttons only exist in
      the budget step. */
  function QuickBudgetMessages(step: Step): (r: seq<string>)
    ensures step != Budget ==> r == []
    ensures step == Budget ==>
              && |r| == |QuickBudgetAmounts|
              && forall i :: 0 <= i < |r| ==> r[i] == DecimalString(QuickBudgetAmounts[i])
  {
    if step == Budget then
      [DecimalString(1000), DecimalString(2500), DecimalString(5000), DecimalString(10000)]
    else []
  }

  /** Pressing a quick budget button in the budget step records that amount
      as the budget and moves on to the destinations. */
  lemma {:induction false} QuickBudgetAdvances(
    s: ConversationState, i: nat, fetched: Option<seq<Destination>>)
    requires s.step == Budget && i < |QuickBudgetAmounts|
    ensures var o := Conversation.Respond(s, QuickBudgetMessages(Budget)[i], fetched);
            o.state.step == Destinations && o.state.budget == Some(QuickBudgetAmounts[i] as int)
  {
    var m := QuickBudgetMessages(Budget)[i];
    assert m == DecimalString(QuickBudgetAmounts[i]);
    Conversation.RespondToAmount(s, QuickBudgetAmounts[i], fetched);
  }
}
