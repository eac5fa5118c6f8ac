/*
  The language-model client of the back end: the cleanup of a model reply
  before it is parsed as JSON, the interest record used when the reply
  cannot be had or parsed, the defaults filled into a generated plan, and
  the suggestion list that is empty on failure. The model's reply is the
  parameter `reply` (`None` when the call fails), `JSON.parse` the
  parameter `parse` (`None` when it throws), and `Date.now()` the
  parameter `now`.
*/
module Gemini {
  import opened Wrappers
  import opened Text
  import opened Types

  // -------------------------------------------------------------- cleanup

  const JsonFenceNewline := "```json\n"
  const JsonFence := "```json"
  const Fence := "```"

  /** `replace(/```json\n?|```/g, '')`: scanning from the left, a fence
      opening a JSON block (with the line break after it, if there is one)
      or a bare fence is removed; every other character is kept. */
  function StripFences(s: string): string
    decreases |s|
  {
    if s == [] then []
    else if StartsWith(s, JsonFenceNewline) then StripFences(s[|JsonFenceNewline|..])
    else if StartsWith(s, JsonFence) then StripFences(s[|JsonFence|..])
    else if StartsWith(s, Fence) then StripFences(s[|Fence|..])
    else [s[0]] + StripFences(s[1..])
  }

  /** The text that is handed to `JSON.parse`. */
  function CleanResponse(text: string): (r: string)
    ensures Trimmed(r)
  {
    Trim(StripFences(text))
  }

  /** A text that starts with `p + q` starts with `p`. */
  lemma StartsWithLonger(s: string, p: string, q: string)
    ensures StartsWith(s, p + q) ==> StartsWith(s, p)
  {
    if StartsWith(s, p + q) {
      assert s[..|p|] == (p + q)[..|p|];
    }
  }

  /** Where no fence starts, the first character is kept. */
  lemma StripFencesKeepsFirst(s: string)
    requires s != [] && !StartsWith(s, Fence)
    ensures StripFences(s) == [s[0]] + StripFences(s[1..])
  {
    assert JsonFence == Fence + "json";
    assert JsonFenceNewline == Fence + "json\n";
    StartsWithLonger(s, Fence, "json");
    StartsWithLonger(s, Fence, "json\n");
  }

  /** Where no fence starts, the cleaned text starts with the text's own
      first character. */
  lemma StripFencesHead(t: string)
    requires !StartsWith(t, Fence) && StripFences(t) != []
    ensures t != [] && StripFences(t) == [t[0]] + StripFences(t[1..])
  {
    StripFencesKeepsFirst(t);
  }

  /** No fence survives the cleanup: a backtick is kept only where no fence
      starts, so three kept backticks in a row would have started one. */
  lemma {:induction false} StripFencesLeavesNoFence(s: string)
    ensures !Contains(StripFences(s), Fence)
    decreases |s|
  {
    if s == [] {
    } else if StartsWith(s, JsonFenceNewline) {
      StripFencesLeavesNoFence(s[|JsonFenceNewline|..]);
    } else if StartsWith(s, JsonFence) {
      StripFencesLeavesNoFence(s[|JsonFence|..]);
    } else if StartsWith(s, Fence) {
      StripFencesLeavesNoFence(s[|Fence|..]);
    } else {
      StripFencesLeavesNoFence(s[1..]);
      KeptCharStartsNoFence(s);
      assert StripFences(s)[1..] == StripFences(s[1..]);
    }
  }

  /** A fence starts a text exactly where three backticks do. */
  lemma StartsWithFence(x: string)
    ensures StartsWith(x, Fence) <==> |x| >= 3 && x[0] == '`' && x[1] == '`' && x[2] == '`'
  {
    if |x| >= 3 && x[0] == '`' && x[1] == '`' && x[2] == '`' {
      assert x[..3] == Fence;
    }
  }

  /** Where no fence starts, the cleaned text does not start with one either. */
  lemma KeptCharStartsNoFence(s: string)
    requires s != [] && !StartsWith(s, Fence)
    ensures StripFences(s) == [s[0]] + StripFences(s[1..])
    ensures !StartsWith(StripFences(s), Fence)
  {
    StripFencesKeepsFirst(s);
    var out, t := StripFences(s), s[1..];
    StartsWithFence(s);
    StartsWithFence(out);
    if s[0] == '`' && StripFences(t) != [] && StripFences(t)[0] == '`' {
      // The next kept character is the text's own second one, a backtick;
      // the third one cannot be a backtick, or the text started with a fence.
      StartsWithFence(t);
      StripFencesHead(t);
      var u := t[1..];
      assert u == [] || u[0] != '`';
      if StripFences(u) != [] {
        StartsWithFence(u);
        StripFencesHead(u);
      }
    }
  }

  /** Text without backticks passes through the fence removal unchanged. */
  lemma {:induction false} StripFencesKeepsPlainText(b: string, t: string)
    requires '`' !in b
    ensures StripFences(b + t) == b + StripFences(t)
    decreases |b|
  {
    if b != [] {
      assert (b + t)[0] == b[0];
      StripFencesKeepsFirst(b + t);
      assert (b + t)[1..] == b[1..] + t;
      StripFencesKeepsPlainText(b[1..], t);
    } else {
      assert b + t == t;
    }
  }

  /** Removing the fences of a JSON block leaves its text and the line
      break before the closing fence. */
  lemma StripFencesOfBlock(b: string)
    requires '`' !in b
    ensures StripFences(JsonFenceNewline + b + "\n" + Fence) == b + "\n"
  {
    var wrapped := JsonFenceNewline + b + "\n" + Fence;
    assert wrapped == JsonFenceNewline + (b + ("\n" + Fence));
    StartsWithLonger(wrapped, JsonFenceNewline, b + ("\n" + Fence));
    assert wrapped[|JsonFenceNewline|..] == b + ("\n" + Fence);
    StripFencesKeepsPlainText(b, "\n" + Fence);
    StripFencesKeepsPlainText("\n", Fence);
    assert StripFences(Fence) == [];
  }

  /** A JSON text wrapped in a fenced block comes out as it went in. */
  lemma CleanResponseUnwrapsBlock(b: string)
    requires '`' !in b && Trimmed(b)
    ensures CleanResponse(JsonFenceNewline + b + "\n" + Fence) == b
  {
    StripFencesOfBlock(b);
    TrimDropsTrailingSpace(b, "\n");
  }

  /** A reply without backticks is only trimmed. */
  lemma CleanResponseOfPlainText(b: string)
    requires '`' !in b
    ensures CleanResponse(b) == Trim(b)
  {
    StripFencesKeepsPlainText(b, []);
    assert b + [] == b;
  }

  // ---------------------------------------------------- interest record

  /** A piece kept as a keyword: longer than three UTF-16 units. */
  predicate IsLongWord(w: string) {
    Utf16Length(w) > 3
  }

  /** The record used when the reply cannot be had or parsed. */
  function FallbackInterests(userMessage: string): (ui: UserInterests)
    ensures ui.interests == Some([userMessage])
    ensures ui.preferences == Some(Preferences(Some([]), Some([]), Some([]), Some([])))
    ensures ui.keywords == Some(Filter(IsLongWord, Split(userMessage, ' ')))
    ensures ui.travelStyle == Some("mid-range") && ui.duration == Some("5")
  {
    UserInterests(
      Some([userMessage]),
      Some(Preferences(Some([]), Some([]), Some([]), Some([]))),
      Some(Filter(IsLongWord, Split(userMessage, ' '))),
      Some("mid-range"),
      Some("5"))
  }

  /** Every fallback keyword is a word of the message (it holds no space)
      longer than three units, and every such word is a keyword. */
  lemma FallbackKeywordsAreLongWords(userMessage: string)
    ensures var ks := FallbackInterests(userMessage).keywords.value;
            && (forall i :: 0 <= i < |ks| ==> ' ' !in ks[i] && Utf16Length(ks[i]) > 3)
            && (forall w :: w in Split(userMessage, ' ') && Utf16Length(w) > 3 ==> w in ks)
  {
    var pieces := Split(userMessage, ' ');
    var ks := Filter(IsLongWord, pieces);
    forall i | 0 <= i < |ks|
      ensures ' ' !in ks[i]
    {
      var j :| 0 <= j < |pieces| && pieces[j] == ks[i];
    }
  }

  /** The keywords keep the order of the message: a leading word comes
      first when it is long, followed by the keywords of the rest. */
  lemma FallbackKeywordsInOrder(w: string, rest: string)
    requires ' ' !in w
    ensures FallbackInterests(w + " " + rest).keywords.value ==
            (if IsLongWord(w) then [w] else []) + FallbackInterests(rest).keywords.value
  {
    SplitAfterWord(w, ' ', rest);
    FilterAppend(IsLongWord, [w], Split(rest, ' '));
    FilterOfOne(IsLongWord, w);
  }

  /** A message without a space yields itself as the keyword when it is
      long, and no keyword otherwise. */
  lemma FallbackKeywordsOfOneWord(w: string)
    requires ' ' !in w
    ensures FallbackInterests(w).keywords.value == if IsLongWord(w) then [w] else []
  {
    assert Split(w, ' ') == [w];
    FilterOfOne(IsLongWord, w);
  }

  /** `parseUserInterests`: the parsed reply, or the fallback record when
      the call fails or its cleaned reply is not valid JSON. */
  function ParseUserInterests(userMessage: string, reply: Option<string>,
                              parse: string -> Option<UserInterests>): (ui: UserInterests)
    ensures reply.None? ==> ui == FallbackInterests(userMessage)
    ensures reply.Some? && parse(CleanResponse(reply.value)).None? ==> ui == FallbackInterests(userMessage)
    ensures reply.Some? && parse(CleanResponse(reply.value)).Some? ==> ui == parse(CleanResponse(reply.value)).value
  {
    if reply.None? then FallbackInterests(userMessage)
    else match parse(CleanResponse(reply.value))
      case None => FallbackInterests(userMessage)
      case Some(parsed) => parsed
  }

  // ----------------------------------------------------------- itinerary

  const DefaultMapCenter := Coords(35.6762, 139.6503)

  /** The two fields of a generated plan that are filled in when missing,
      as `JSON.parse` produced them (`None` for a missing field). */
  datatype PlanHead = PlanHead(id: Option<string>, mapCenter: Option<Coords>)

  /** `!travelPlan.id`: a missing or empty id is falsy. */
  predicate Falsy(id: Option<string>) {
    id.None? || id.value == ""
  }

  /** The generated plan object, updated in place. The fields that are
      never touched are not part of this model. */
  class GeneratedPlan {
    var id: Option<string>
    var mapCenter: Option<Coords>

    constructor (head: PlanHead)
      ensures id == head.id && mapCenter == head.mapCenter
    {
      id := head.id;
      mapCenter := head.mapCenter;
    }

    /** The plan has a usable id and map centre. */
    predicate Complete()
      reads this
    {
      !Falsy(id) && mapCenter.Some?
    }

    /** A falsy id becomes `trip-<now>`; a missing map centre becomes the
        default one; present values stay as they are. */
    method FillDefaults(now: nat)
      modifies this
      ensures Complete()
      ensures id == if Falsy(old(id)) then Some("trip-" + DecimalString(now)) else old(id)
      ensures mapCenter == if old(mapCenter).None? then Some(DefaultMapCenter) else old(mapCenter)
      ensures old(Complete()) ==> id == old(id) && mapCenter == old(mapCenter)
    {
      if Falsy(id) {
        id := Some("trip-" + DecimalString(now));
      }
      if mapCenter.None? {
        mapCenter := Some(DefaultMapCenter);
      }
    }
  }

  const ItineraryError := "Failed to generate travel itinerary"

  /** `generateItineraryWithRAG`: the parsed plan with its defaults filled
      in, or the one error it throws when the call fails or the reply is
      not valid JSON. */
  method GenerateItineraryWithRAG(reply: Option<string>, parse: string -> Option<PlanHead>, now: nat)
    returns (r: Result<GeneratedPlan, string>)
    ensures reply.None? || parse(CleanResponse(reply.value)).None? ==> r == Err(ItineraryError)
    ensures reply.Some? && parse(CleanResponse(reply.value)).Some? ==>
              var head := parse(CleanResponse(reply.value)).value;
              && r.Ok? && fresh(r.value) && r.value.Complete()
              && r.value.id == (if Falsy(head.id) then Some("trip-" + DecimalString(now)) else head.id)
              && r.value.mapCenter == (if head.mapCenter.None? then Some(DefaultMapCenter) else head.mapCenter)
  {
    if reply.None? {
      return Err(ItineraryError);
    }
    var parsed := parse(CleanResponse(reply.value));
    if parsed.None? {
      return Err(ItineraryError);
    }
    var plan := new GeneratedPlan(parsed.value);
    plan.FillDefaults(now);
    r := Ok(plan);
  }

  /** `getTravelSuggestions`: the parsed suggestions, or none at all when
      the call fails or the reply is not valid JSON. */
  function GetTravelSuggestions(reply: Option<string>, parse: string -> Option<seq<Destination>>)
    : (r: seq<Destination>)
    ensures reply.None? ==> r == []
    ensures reply.Some? && parse(CleanResponse(reply.value)).None? ==> r == []
    ensures reply.Some? && parse(CleanResponse(reply.value)).Some? ==> r == parse(CleanResponse(reply.value)).value
    ensures r != [] ==> reply.Some? && parse(CleanResponse(reply.value)) == Some(r)
  {
    match reply
    case None => []
    case Some(text) =>
      match parse(CleanResponse(text))
      case None => []
      case Some(suggestions) => suggestions
  }
}
