/** The scripted conversation of src/App.tsx: a step machine
    (initial, budget, destinations, itinerary) driven by the user's messages,
    an append-only message log, a loading flag, and the choice of the panel
    shown beside the chat. Network calls are parameters: the destination
    fetch result, and the itinerary lookup as a function of destination id
    and budget. */
module Conversation {
  import opened Wrappers
  import opened Text
  import opened Types
  import opened JsNumbers
  import Ranking
  import ItineraryDisplay

  /** What an assistant message says, with the values it interpolates; the
      wording, ids and timestamps are not part of the model. */
  datatype Reply =
    | AskBudget(wish: string)
    | NeedNumericBudget
    | FoundDestinations(amount: int, found: nat, wishShown: Option<string>)
    | ExploreDestinations
    | EnjoyItinerary
    | Greeting
    | Apology
    | ItineraryReady(name: string, duration: int, experiences: nat, budgetShown: Option<int>)

  datatype Message = User(text: string) | Assistant(reply: Reply)

  const InitialState := ConversationState(Initial, None, None, None, None)

  predicate IsBudgetPunctuation(c: char) {
    c == '$' || c == ','
  }

  /** A character `message.replace(/[$,]/g, '')` keeps. */
  predicate KeptInBudget(c: char) {
    !IsBudgetPunctuation(c)
  }

  /** `message.replace(/[$,]/g, '')`: every other character, in order. */
  function StripBudgetText(message: string): (r: string)
    ensures forall i :: 0 <= i < |r| ==> !IsBudgetPunctuation(r[i])
    ensures |r| <= |message|
  {
    Filter(KeptInBudget, message)
  }

  /** The budget as `parseInt(message.replace(/[$,]/g, ''))`: every `$` and
      `,` is removed first; `None` is NaN. */
  function ParseBudget(message: string): Option<int> {
    ParseInt(StripBudgetText(message))
  }

  /** Removing one `$` or `,` from the text before stripping changes nothing. */
  lemma StripBudgetTextDropsPunctuation(before: string, c: char, after: string)
    requires IsBudgetPunctuation(c)
    ensures StripBudgetText(before + [c] + after) == StripBudgetText(before + after)
  {
    FilterAppend(KeptInBudget, before + [c], after);
    FilterAppend(KeptInBudget, before, [c]);
    FilterAppend(KeptInBudget, before, after);
    FilterOfOne(KeptInBudget, c);
  }

  /** A `$` or `,` anywhere in the text makes no difference. */
  lemma ParseBudgetIgnoresPunctuation(before: string, c: char, after: string)
    requires IsBudgetPunctuation(c)
    ensures ParseBudget(before + [c] + after) == ParseBudget(before + after)
  {
    StripBudgetTextDropsPunctuation(before, c, after);
  }

  /** A plain amount survives stripping, with or without a leading `$`. */
  lemma StripBudgetTextOfAmount(amount: nat)
    ensures StripBudgetText(DecimalString(amount)) == DecimalString(amount)
    ensures StripBudgetText("$" + DecimalString(amount)) == DecimalString(amount)
  {
    var d := DecimalString(amount);
    FilterKeepsAll(KeptInBudget, d);
    FilterAppend(KeptInBudget, "$", d);
    FilterOfOne(KeptInBudget, '$');
    assert "$" == ['$'];
  }

  /** A budget typed as a plain amount, with or without a leading `$`, is
      read as that amount. */
  lemma ParseBudgetOfAmount(amount: nat)
    ensures ParseBudget(DecimalString(amount)) == Some(amount)
    ensures ParseBudget("$" + DecimalString(amount)) == Some(amount)
  {
    StripBudgetTextOfAmount(amount);
    ParseIntDecimal(amount);
  }

  /** Words after the amount, separated by whitespace, are ignored. */
  lemma ParseBudgetReadsLeadingAmount(amount: nat, rest: string)
    requires rest == [] || IsSpace(rest[0])
    requires forall i :: 0 <= i < |rest| ==> !IsBudgetPunctuation(rest[i])
    ensures ParseBudget(DecimalString(amount) + rest) == Some(amount)
  {
    var d := DecimalString(amount);
    FilterKeepsAll(KeptInBudget, d + rest);
    ParseIntDecimalPrefix(amount, rest);
  }

  /** A message without a single digit is not a budget. */
  lemma ParseBudgetWithoutDigits(message: string)
    requires forall i :: 0 <= i < |message| ==> !IsDecimalDigit(message[i])
    ensures ParseBudget(message) == None
  {
    var t := StripBudgetText(message);
    assert forall i :: 0 <= i < |t| ==> !IsDecimalDigit(t[i]) by {
      forall i | 0 <= i < |t|
        ensures !IsDecimalDigit(t[i])
      {
        var j :| 0 <= j < |message| && message[j] == t[i];
      }
    }
    ParseIntNoDigits(t);
  }

  /** The state after `simulateAIResponse`, its reply, and the new
      destination list when the response produced one. */
  datatype Outcome = Outcome(state: ConversationState, reply: Reply, recommended: Option<seq<Destination>>)

  /** `simulateAIResponse(message, state)`: the step transition. */
  function Respond(s: ConversationState, message: string, fetched: Option<seq<Destination>>): (o: Outcome)
    ensures o.state.step == s.step || o.state.step == NextStep(s.step)
    ensures o.recommended.Some? <==> s.step == Budget && ParseBudget(message).Some?
  {
    match s.step
    case Initial =>
      Outcome(s.(step := Budget, travelWish := Some(message)), AskBudget(message), None)
    case Budget =>
      (match ParseBudget(message)
       case None => Outcome(s, NeedNumericBudget, None)
       case Some(b) =>
         var ds := Ranking.GetRecommendedDestinations(s.travelWish.GetOr(""), b, 6, fetched);
         Outcome(s.(step := Destinations, budget := Some(b)), FoundDestinations(b, |ds|, s.travelWish), Some(ds)))
    case Destinations => Outcome(s, ExploreDestinations, None)
    case Itinerary => Outcome(s, EnjoyItinerary, None)
    case Generating => Outcome(s, Greeting, None)
  }

  /** What each step needs to have been collected on the way there. */
  predicate WellFormed(s: ConversationState) {
    && (s.step == Budget ==> s.travelWish.Some?)
    && (s.step == Destinations ==> s.travelWish.Some? && s.budget.Some?)
    && (s.step == Itinerary ==> s.selectedDestination.Some?)
  }

  /** The step a message can lead to: initial to budget, budget to
      destinations; every other step stays where it is. */
  function NextStep(step: Step): Step {
    match step
    case Initial => Budget
    case Budget => Destinations
    case _ => step
  }

  /** A message moves the conversation forward by at most one step and keeps
      it well formed. */
  lemma RespondAdvancesOneStep(s: ConversationState, message: string, fetched: Option<seq<Destination>>)
    requires WellFormed(s)
    ensures var r := Respond(s, message, fetched).state;
            && WellFormed(r)
            && (r.step == s.step || r.step == NextStep(s.step))
            && (s.step != Initial ==> r.travelWish == s.travelWish)
  {
  }

  /** From the initial step, any message becomes the travel wish. */
  lemma RespondRecordsWish(s: ConversationState, message: string, fetched: Option<seq<Destination>>)
    requires s.step == Initial
    ensures var o := Respond(s, message, fetched);
            && o.state.step == Budget && o.state.travelWish == Some(message)
            && o.state.budget == s.budget && o.recommended == None
            && o.state == s.(step := Budget, travelWish := Some(message))
  {
  }

  /** In the budget step a number moves on to the destinations, recording
      the budget and ranking the fetched destinations against the wish; a
      message that is not a number changes nothing and asks again. */
  lemma RespondToBudget(s: ConversationState, message: string, fetched: Option<seq<Destination>>)
    requires s.step == Budget
    ensures var o := Respond(s, message, fetched);
            match ParseBudget(message)
            case None => o.state == s && o.reply == NeedNumericBudget && o.recommended == None
            case Some(b) =>
              && o.state.step == Destinations && o.state.budget == Some(b)
              && o.state.travelWish == s.travelWish
              && o.state == s.(step := Destinations, budget := Some(b))
              && o.recommended == Some(Ranking.GetRecommendedDestinations(s.travelWish.GetOr(""), b, 6, fetched))
  {
  }

  /** A plain amount typed in the budget step is recorded as the budget
      and moves the conversation on to the destinations. */
  lemma RespondToAmount(s: ConversationState, amount: nat, fetched: Option<seq<Destination>>)
    requires s.step == Budget
    ensures var o := Respond(s, DecimalString(amount), fetched);
            o.state.step == Destinations && o.state.budget == Some(amount as int)
  {
    ParseBudgetOfAmount(amount);
    RespondToBudget(s, DecimalString(amount), fetched);
  }

  /** The state changes exactly on the first message and on the first
      numeric budget; in every other case it is left exactly as it was. */
  lemma RespondChangesStateIff(s: ConversationState, message: string, fetched: Option<seq<Destination>>)
    ensures Respond(s, message, fetched).state != s <==>
            s.step == Initial || (s.step == Budget && ParseBudget(message).Some?)
  {
  }

  /** After a numeric budget, the destination panel has something to show
      exactly when the fetch returned at least one destination. */
  lemma {:induction false} BudgetFindsDestinationsIff(
    s: ConversationState, message: string, fetched: Option<seq<Destination>>)
    requires s.step == Budget && ParseBudget(message).Some?
    ensures var o := Respond(s, message, fetched);
            o.recommended.Some? && (o.recommended.value != [] <==> fetched.GetOr([]) != [])
  {
    var b := ParseBudget(message).value;
    Ranking.RecommendationsLength(s.travelWish.GetOr(""), b, 6, fetched);
  }

  /** The budget passed to the itinerary lookup: `budget || 2000`, so a
      missing budget and a budget of 0 both become 2000. */
  function ItineraryBudget(s: ConversationState): (b: int)
    ensures b != 0
    ensures s.budget.Some? && s.budget.value != 0 ==> b == s.budget.value
    ensures s.budget.None? || s.budget.value == 0 ==> b == 2000
  {
    if s.budget.Some? && s.budget.value != 0 then s.budget.value else 2000
  }

  /** The `reduce` that adds up the activities of every day, from `total`. */
  function CountFrom(total: nat, days: seq<ItineraryDay>): nat
    decreases |days|
  {
    if days == [] then total else CountFrom(total + |days[0].activities|, days[1..])
  }

  function ActivityCount(days: seq<ItineraryDay>): nat {
    CountFrom(0, days)
  }

  lemma {:induction false} CountFromIsTotal(total: nat, days: seq<ItineraryDay>)
    ensures CountFrom(total, days) == total + |ItineraryDisplay.Flatten(days)|
    decreases |days|
  {
    if days != [] {
      CountFromIsTotal(total + |days[0].activities|, days[1..]);
    }
  }

  /** The number of experiences announced is the number of activities in
      the whole plan. */
  lemma ActivityCountIsTotal(days: seq<ItineraryDay>)
    ensures ActivityCount(days) == |ItineraryDisplay.Flatten(days)|
  {
    CountFromIsTotal(0, days);
  }

  /** The user's message when a destination card is chosen. */
  function ChoiceText(d: Destination): string {
    "I choose " + d.name + ", " + d.country + "!"
  }

  /** The panel beside the chat. */
  datatype Panel =
    | DestinationPanel(destinations: seq<Destination>, budget: int)
    | ItineraryPanel(plan: Option<TravelPlan>)

  class App {
    var messages: seq<Message>
    var isLoading: bool
    var currentPlan: Option<TravelPlan>
    var conversation: ConversationState
    var recommended: seq<Destination>

    /** A conversation in the itinerary step has a plan to show. */
    ghost predicate Valid()
      reads this
    {
      WellFormed(conversation) && (conversation.step == Itinerary ==> currentPlan.Some?)
    }

    constructor ()
      ensures Valid()
      ensures messages == [] && !isLoading && currentPlan == None
      ensures conversation == InitialState && recommended == []
    {
      messages := [];
      isLoading := false;
      currentPlan := None;
      conversation := InitialState;
      recommended := [];
    }

    /** `simulateAIResponse`: one assistant message, the new state and,
        after a numeric budget, the new destination list. */
    method SimulateAIResponse(message: string, fetched: Option<seq<Destination>>)
      requires Valid()
      modifies this
      ensures Valid()
      ensures var o := Respond(old(conversation), message, fetched);
              && messages == old(messages) + [Assistant(o.reply)]
              && conversation == o.state
              && recommended == o.recommended.GetOr(old(recommended))
      ensures isLoading == old(isLoading) && currentPlan == old(currentPlan)
    {
      RespondAdvancesOneStep(conversation, message, fetched);
      var outcome := Respond(conversation, message, fetched);
      if outcome.recommended.Some? {
        recommended := outcome.recommended.value;
      }
      messages := messages + [Assistant(outcome.reply)];
      conversation := outcome.state;
    }

    /** `handleSendMessage`: the user's message, then exactly one assistant
        message (the apology when generating the response fails), and the
        loading flag is down again at the end. `fault` stands for an
        exception raised while the response is generated. */
    method HandleSendMessage(message: string, fetched: Option<seq<Destination>>, fault: bool)
      requires Valid()
      modifies this
      ensures Valid() && !isLoading && currentPlan == old(currentPlan)
      ensures var o := Respond(old(conversation), message, fetched);
              && messages == old(messages) + [User(message), Assistant(if fault then Apology else o.reply)]
              && conversation == (if fault then old(conversation) else o.state)
              && recommended == (if fault then old(recommended) else o.recommended.GetOr(old(recommended)))
    {
      messages := messages + [User(message)];
      isLoading := true;
      if fault {
        messages := messages + [Assistant(Apology)];
      } else {
        SimulateAIResponse(message, fetched);
      }
      isLoading := false;
    }

    /** `handleSelectDestination`: the user's choice is logged; when the
        itinerary lookup answers, the plan is shown, the step becomes
        itinerary with the chosen destination, and the confirmation counts
        the plan's activities; when it fails, nothing else changes. */
    method HandleSelectDestination(d: Destination, lookup: (string, int) -> Option<TravelPlan>)
      requires Valid()
      modifies this
      ensures Valid() && !isLoading && recommended == old(recommended)
      ensures var plan := lookup(d.id, ItineraryBudget(old(conversation)));
              match plan
              case None =>
                && messages == old(messages) + [User(ChoiceText(d))]
                && conversation == old(conversation) && currentPlan == old(currentPlan)
              case Some(p) =>
                && messages == old(messages) + [User(ChoiceText(d)),
                     Assistant(ItineraryReady(d.name, p.duration, ActivityCount(p.itinerary), old(conversation).budget))]
                && conversation == old(conversation).(step := Itinerary, selectedDestination := Some(d))
                && currentPlan == plan
    {
      messages := messages + [User(ChoiceText(d))];
      isLoading := true;
      var plan := lookup(d.id, ItineraryBudget(conversation));
      if plan.Some? {
        currentPlan := plan;
        var shownBudget := conversation.budget;
        conversation := conversation.(step := Itinerary, selectedDestination := Some(d));
        var count := ActivityCount(plan.value.itinerary);
        messages := messages + [Assistant(ItineraryReady(d.name, plan.value.duration, count, shownBudget))];
      }
      isLoading := false;
    }

    /** `renderRightPanel`: the destination cards only in the destinations
        step with something to show; otherwise the itinerary view. */
    function RightPanel(): (p: Panel)
      reads this
      ensures p.DestinationPanel? <==> conversation.step == Destinations && recommended != []
      ensures p.DestinationPanel? ==> p.destinations == recommended && p.budget == conversation.budget.GetOr(0)
      ensures p.ItineraryPanel? ==> p.plan == currentPlan
    {
      if conversation.step == Destinations && |recommended| > 0 then
        DestinationPanel(recommended, conversation.budget.GetOr(0))
      else
        ItineraryPanel(currentPlan)
    }
  }
}
