/**
 * `judge_responses_with_openai` (src/main.py): the anonymised judging
 * protocol. Failed providers are reported and dropped, the rest are numbered
 * 1..N and shown to the judge only by number, and the judge's JSON ranking is
 * mapped back to provider names. Console output is a sequence of events; the
 * judge's backend call is an input outcome and `json.loads` a parameter.
 */
module Judge {
  import opened Wrappers
  import opened Errors
  import opened Text
  import opened Numerals
  import opened OrderedMaps
  import opened JsonValues
  import opened Questions
  import opened Responses
  import ClientHelper

  /** What the judge reports, in order. */
  datatype JudgeEvent =
    | Skipped(name: string)               // a provider without a response
    | NotEnough                           // fewer than two competitors
    | NoReply                             // the judge returned nothing or an empty text
    | ParseFailed(raw: string)            // the reply is not JSON with a `results` list
    | Invalid(rank: nat, item: Json)      // a ranking entry that is not an integer
    | Unknown(rank: nat, num: int)        // a number with no competitor
    | Ranked(rank: nat, name: string, num: int)

  // ---------------------------------------------------------------- Filter

  /** `failed_providers`: names whose response is `None`, in mapping order. */
  function SkippedNames(m: Entries<Option<Response>>): seq<string>
  {
    if m == [] then []
    else (if m[0].1.None? then [m[0].0] else []) + SkippedNames(m[1..])
  }

  /** `competitors`: the `(name, response)` pairs with a response, in mapping order. */
  function Competitors(m: Entries<Option<Response>>): seq<(string, Response)>
  {
    if m == [] then []
    else (if m[0].1.Some? then [(m[0].0, m[0].1.value)] else []) + Competitors(m[1..])
  }

  function SkippedEvents(names: seq<string>): (evs: seq<JudgeEvent>)
    ensures |evs| == |names| && forall i :: 0 <= i < |names| ==> evs[i] == Skipped(names[i])
  {
    seq(|names|, i requires 0 <= i < |names| => Skipped(names[i]))
  }

  /** Both filters keep mapping order: filtering a split mapping is filtering its halves. */
  lemma {:induction false} FilterSplit(m: Entries<Option<Response>>, i: nat)
    requires i <= |m|
    ensures SkippedNames(m) == SkippedNames(m[..i]) + SkippedNames(m[i..])
    ensures Competitors(m) == Competitors(m[..i]) + Competitors(m[i..])
  {
    if i > 0 {
      FilterSplit(m[1..], i - 1);
      assert m[..i][1..] == m[1..][..i - 1];
      assert m[1..][i - 1..] == m[i..];
    }
  }

  /** A name is skipped exactly when it maps to `None`. */
  lemma {:induction false} SkippedMember(m: Entries<Option<Response>>, name: string)
    ensures name in SkippedNames(m) <==> (name, None) in m
  {
    if m != [] {
      SkippedMember(m[1..], name);
      assert m == [m[0]] + m[1..];
    }
  }

  /** A pair is a competitor exactly when the name maps to that response. */
  lemma {:induction false} CompetitorMember(m: Entries<Option<Response>>, name: string, resp: Response)
    ensures (name, resp) in Competitors(m) <==> (name, Some(resp)) in m
  {
    if m != [] {
      CompetitorMember(m[1..], name, resp);
      assert m == [m[0]] + m[1..];
    }
  }

  /** Every entry is either skipped or a competitor. */
  lemma {:induction false} FilterCount(m: Entries<Option<Response>>)
    ensures |SkippedNames(m)| + |Competitors(m)| == |m|
  {
    if m != [] {
      FilterCount(m[1..]);
    }
  }

  /** Competitors come from distinct dictionary keys, so their names are distinct. */
  lemma {:induction false} CompetitorNamesDistinct(m: Entries<Option<Response>>)
    requires DistinctKeys(m)
    ensures var cs := Competitors(m); forall i, j :: 0 <= i < j < |cs| ==> cs[i].0 != cs[j].0
  {
    if m != [] {
      var tail := m[1..];
      assert DistinctKeys(tail) by {
        forall i, j | 0 <= i < j < |tail| ensures tail[i].0 != tail[j].0 {
          assert tail[i] == m[i + 1] && tail[j] == m[j + 1];
        }
      }
      CompetitorNamesDistinct(tail);
      var rest := Competitors(tail);
      if m[0].1.Some? {
        forall j | 0 <= j < |rest| ensures rest[j].0 != m[0].0 {
          CompetitorMember(tail, rest[j].0, rest[j].1);
          var k :| 0 <= k < |tail| && tail[k] == (rest[j].0, Some(rest[j].1));
          assert tail[k] == m[k + 1];
        }
      }
    }
  }

  // ------------------------------------------------------------- Anonymise

  function Answers(cs: seq<(string, Response)>): (answers: seq<string>)
    ensures |answers| == |cs| && forall i :: 0 <= i < |cs| ==> answers[i] == cs[i].1.answer
  {
    seq(|cs|, i requires 0 <= i < |cs| => cs[i].1.answer)
  }

  /** `f"Competitor {idx}:\n{answer}\n"` */
  function Part(idx: nat, answer: string): string
  {
    "Competitor " + DecimalString(idx) + ":\n" + answer + "\n"
  }

  /**
   * A part shows the answer labelled only by the decimal number `idx` after
   * the word "Competitor ".
   */
  lemma PartLayout(idx: nat, answer: string)
    ensures var part, tag := Part(idx, answer), DecimalString(idx);
      && |part| == 11 + |tag| + 2 + |answer| + 1
      && part[..11] == "Competitor " && part[11..11 + |tag|] == tag
      && part[11 + |tag|..13 + |tag|] == ":\n"
      && part[13 + |tag|..|part| - 1] == answer && part[|part| - 1] == '\n'
  {
    var tag := DecimalString(idx);
    var part := Part(idx, answer);
    assert forall k :: 0 <= k < |tag| ==> part[11 + k] == tag[k];
    assert forall k :: 0 <= k < |answer| ==> part[13 + |tag| + k] == answer[k];
  }

  /** `together_parts`: answer `i` labelled only by its number `i + 1`. */
  function AnonParts(answers: seq<string>): (parts: seq<string>)
    ensures |parts| == |answers|
    ensures forall i :: 0 <= i < |answers| ==> parts[i] == Part(i + 1, answers[i])
  {
    seq(|answers|, i requires 0 <= i < |answers| => Part(i + 1, answers[i]))
  }

  /** `numbered_to_provider`: competitor number `i` names the `i`-th competitor. */
  function Numbering(cs: seq<(string, Response)>): map<int, string>
    decreases |cs|
  {
    if cs == [] then map[]
    else Numbering(cs[..|cs| - 1])[|cs| := cs[|cs| - 1].0]
  }

  /** The numbering's domain is exactly 1..N and number `k` names competitor `k`. */
  lemma {:induction false} NumberingDomain(cs: seq<(string, Response)>)
    ensures forall k :: k in Numbering(cs) <==> 1 <= k <= |cs|
    ensures forall k :: 1 <= k <= |cs| ==> Numbering(cs)[k] == cs[k - 1].0
    decreases |cs|
  {
    if cs != [] {
      var init := cs[..|cs| - 1];
      NumberingDomain(init);
      assert forall k :: 0 <= k < |init| ==> init[k] == cs[k];
    }
  }

  /** With distinct names, as competitors drawn from a dictionary have, the numbering is injective. */
  lemma NumberingInjective(cs: seq<(string, Response)>)
    requires forall i, j :: 0 <= i < j < |cs| ==> cs[i].0 != cs[j].0
    ensures forall a, b :: a in Numbering(cs) && b in Numbering(cs) && a != b ==> Numbering(cs)[a] != Numbering(cs)[b]
  {
    NumberingDomain(cs);
    forall a, b | a in Numbering(cs) && b in Numbering(cs) && a != b
      ensures Numbering(cs)[a] != Numbering(cs)[b]
    {
      if a < b { assert cs[a - 1].0 != cs[b - 1].0; } else { assert cs[b - 1].0 != cs[a - 1].0; }
    }
  }

  /** The numbering loop: builds `numbered_to_provider` and `together_parts` together. */
  method Anonymize(cs: seq<(string, Response)>) returns (numbered: map<int, string>, parts: seq<string>)
    ensures numbered == Numbering(cs)
    ensures parts == AnonParts(Answers(cs))
  {
    numbered, parts := map[], [];
    var idx := 1;
    while idx <= |cs|
      invariant 1 <= idx <= |cs| + 1
      invariant numbered == Numbering(cs[..idx - 1])
      invariant |parts| == idx - 1
      invariant forall j :: 0 <= j < idx - 1 ==> parts[j] == Part(j + 1, cs[j].1.answer)
    {
      var (name, resp) := cs[idx - 1];
      assert cs[..idx][..idx - 1] == cs[..idx - 1];
      assert Numbering(cs[..idx]) == numbered[idx := name];
      numbered := numbered[idx := name];
      parts := parts + [Part(idx, resp.answer)];
      idx := idx + 1;
    }
    assert cs[..idx - 1] == cs;
  }

  // The fixed wording of the judge's instruction, between the places where
  // the count, the question and the anonymised answers go.
  const PromptOpening: string := "You are judging a competition between "
  const PromptBeforeQuestion: string := " competitors.\nEach model has been given this question:\n\n"
  const PromptBeforeAnswers: string :=
    "\n\nYour job is to evaluate each response for clarity and strength of argument, and rank them in order of best to worst.\n"
    + "Respond with JSON, and only JSON, with the following format:\n"
    + "{\"results\": [\"best competitor number\", \"second best competitor number\", \"third best competitor number\", ...]}\n\n"
    + "Here are the responses from each competitor:\n\n"
  const PromptClosing: string :=
    "\n\nNow respond with the JSON with the ranked order of the competitors, nothing else. "
    + "Do not include markdown formatting or code blocks."

  /** The judge's instruction: the count, the question, and the anonymised answers. */
  function JudgePrompt(count: nat, questionText: string, together: string): string
  {
    PromptOpening + DecimalString(count) + PromptBeforeQuestion + questionText + PromptBeforeAnswers + together + PromptClosing
  }

  /** The prompt for a question and its competitors; names are not passed to it. */
  function PromptFor(question: Question, answers: seq<string>): string
  {
    JudgePrompt(|answers|, question.text, Strip(Join("\n", AnonParts(answers))))
  }

  /** The two-message exchange sent to the helper. */
  function JudgeMessages(prompt: string): (msgs: seq<ClientHelper.ChatMessage>)
    ensures |msgs| == 2 && msgs[0].role == "system" && msgs[1] == ClientHelper.ChatMessage("user", prompt)
  {
    [ClientHelper.ChatMessage("system", "You are an impartial judge of answer quality."),
     ClientHelper.ChatMessage("user", prompt)]
  }

  /** Anonymity: two competitor lists with the same answers yield the same prompt, whatever the names. */
  lemma PromptIgnoresNames(question: Question, cs1: seq<(string, Response)>, cs2: seq<(string, Response)>)
    requires |cs1| == |cs2| && forall i :: 0 <= i < |cs1| ==> cs1[i].1.answer == cs2[i].1.answer
    ensures PromptFor(question, Answers(cs1)) == PromptFor(question, Answers(cs2))
  {
    assert Answers(cs1) == Answers(cs2);
  }

  // ----------------------------------------------------- Parse and re-map

  /** `data.get("results")` of a decoded object, when it is a list. */
  function ResultsList(decoded: Option<Json>): (order: Option<seq<Json>>)
    ensures order.Some? <==>
      decoded.Some? && decoded.value.JObject? && "results" in decoded.value.fields && decoded.value.fields["results"].JArray?
    ensures order.Some? ==> order.value == decoded.value.fields["results"].items
  {
    match decoded
    case Some(JObject(fields)) =>
      if "results" in fields && fields["results"].JArray? then Some(fields["results"].items) else None
    case _ => None
  }

  /**
   * `int(str(item))`. A string is parsed as written; an integer renders and
   * parses back to itself. `str` of `None`, a bool, a float, a list or a
   * dict never parses as a decimal integer.
   */
  function ItemNumber(item: Json): Option<int>
  {
    match item
    case JString(s) => ParseInt(s)
    case JInt(i) => ParseInt(IntString(i))
    case _ => None
  }

  /** An integer entry reads as itself; an entry that is neither a string nor an integer never reads as a number. */
  lemma ItemNumberCases(item: Json)
    ensures item.JInt? ==> ItemNumber(item) == Some(item.i)
    ensures !item.JInt? && !item.JString? ==> ItemNumber(item) == None
  {
    if item.JInt? {
      ParseIntString(item.i);
    }
  }

  /**
   * The line for one ranking entry at 1-based position `rank`. A number
   * whose provider name is missing or empty (falsy) is unknown.
   */
  function RankEvent(rank: nat, item: Json, numbered: map<int, string>): (e: JudgeEvent)
    ensures (e.Invalid? || e.Unknown? || e.Ranked?) && e.rank == rank
    ensures e.Ranked? ==> e.num in numbered && e.name == numbered[e.num] && e.name != ""
  {
    match ItemNumber(item)
    case None => Invalid(rank, item)
    case Some(num) =>
      if num in numbered && numbered[num] != "" then Ranked(rank, numbered[num], num) else Unknown(rank, num)
  }

  /**
   * Which line an entry gets: invalid exactly when `int(str(item))` fails;
   * otherwise the line carries the parsed number, and it is ranked exactly
   * when that number names a non-empty provider.
   */
  lemma RankEventCases(rank: nat, item: Json, numbered: map<int, string>)
    ensures var e := RankEvent(rank, item, numbered);
      && (e.Invalid? <==> ItemNumber(item).None?)
      && (e.Invalid? ==> e.item == item)
      && (ItemNumber(item).Some? ==> e.num == ItemNumber(item).value)
      && (ItemNumber(item).Some? ==> (e.Ranked? <==> e.num in numbered && numbered[e.num] != ""))
  {
  }

  /** The ranking lines: entry `i` gets rank `i + 1`, whether or not earlier entries were skipped. */
  function RankEvents(order: seq<Json>, numbered: map<int, string>): (evs: seq<JudgeEvent>)
    ensures |evs| == |order|
    decreases |order|
  {
    if order == [] then []
    else RankEvents(order[..|order| - 1], numbered) + [RankEvent(|order|, order[|order| - 1], numbered)]
  }

  /** Entry `i` of the ranking is the judge's `i`-th item read at rank `i + 1`. */
  lemma {:induction false} RankEventsAt(order: seq<Json>, numbered: map<int, string>)
    ensures forall i :: 0 <= i < |order| ==> RankEvents(order, numbered)[i] == RankEvent(i + 1, order[i], numbered)
    decreases |order|
  {
    if order != [] {
      var init := order[..|order| - 1];
      var evs, head := RankEvents(order, numbered), RankEvents(init, numbered);
      RankEventsAt(init, numbered);
      assert evs == head + [RankEvent(|order|, order[|order| - 1], numbered)];
      forall i | 0 <= i < |init|
        ensures evs[i] == RankEvent(i + 1, order[i], numbered)
      {
        assert evs[i] == head[i] && init[i] == order[i];
      }
    }
  }

  /** The ranking loop, with `continue` past invalid and unknown entries. */
  method Rank(order: seq<Json>, numbered: map<int, string>) returns (events: seq<JudgeEvent>)
    ensures events == RankEvents(order, numbered)
  {
    events := [];
    for i := 0 to |order|
      invariant events == RankEvents(order[..i], numbered)
    {
      var rank, item := i + 1, order[i];
      ghost var e := RankEvent(rank, item, numbered);
      assert order[..i + 1][..i] == order[..i];
      assert RankEvents(order[..i + 1], numbered) == events + [e];
      var num := ItemNumber(item);
      if num.None? {
        assert e == Invalid(rank, item);
        events := events + [Invalid(rank, item)];
        continue;
      }
      var name := if num.value in numbered then numbered[num.value] else "";
      if name == "" {
        assert e == Unknown(rank, num.value);
        events := events + [Unknown(rank, num.value)];
        continue;
      }
      assert e == Ranked(rank, name, num.value);
      events := events + [Ranked(rank, name, num.value)];
    }
    assert order[..|order|] == order;
  }

  /** The judge's text; the judge never asks for raw mode, so a reply is never `Raw`. */
  function ReplyText(reply: Option<ClientHelper.Reply>): string
  {
    if reply.Some? && reply.value.Text? then reply.value.text else ""
  }

  /** What the judge reports once its reply is back. */
  function Verdict(raw: string, decode: string -> Option<Json>, numbered: map<int, string>): seq<JudgeEvent>
  {
    if raw == "" then [NoReply]
    else
      match ResultsList(decode(raw))
      case None => [ParseFailed(raw)]
      case Some(order) => RankEvents(order, numbered)
  }

  /** A decoded ranking gives one line per entry, entry `i` read at rank `i + 1`. */
  lemma VerdictLines(raw: string, decode: string -> Option<Json>, numbered: map<int, string>)
    requires raw != "" && ResultsList(decode(raw)).Some?
    ensures var order, v := ResultsList(decode(raw)).value, Verdict(raw, decode, numbered);
      |v| == |order| && forall i :: 0 <= i < |order| ==> v[i] == RankEvent(i + 1, order[i], numbered)
  {
    RankEventsAt(ResultsList(decode(raw)).value, numbered);
  }

  /** No ranking line is produced for an empty reply, undecodable text, or a reply without a `results` list. */
  lemma NoRankingWithoutResults(raw: string, decode: string -> Option<Json>, numbered: map<int, string>)
    requires raw == "" || ResultsList(decode(raw)).None?
    ensures var v := Verdict(raw, decode, numbered);
      |v| == 1 && !v[0].Ranked? && !v[0].Invalid? && !v[0].Unknown?
    ensures raw == "" ==> Verdict(raw, decode, numbered) == [NoReply]
    ensures raw != "" ==> Verdict(raw, decode, numbered) == [ParseFailed(raw)]
  {
  }

  /**
   * The round trip of anonymisation: when the judge names competitor `i` by
   * the number its label showed, as a string or as an integer, the rank line
   * names the `i`-th competitor's provider.
   */
  lemma {:induction false} EchoedLabelRanksProvider(cs: seq<(string, Response)>, i: nat, rank: nat)
    requires 1 <= i <= |cs| && cs[i - 1].0 != ""
    ensures RankEvent(rank, JString(DecimalString(i)), Numbering(cs)) == Ranked(rank, cs[i - 1].0, i)
    ensures RankEvent(rank, JInt(i), Numbering(cs)) == Ranked(rank, cs[i - 1].0, i)
  {
    ParseIntString(i);
    assert IntString(i) == DecimalString(i);
    NumberingDomain(cs);
  }

  /** A number outside 1..N is reported as unknown. */
  lemma UnknownOutsideRange(cs: seq<(string, Response)>, item: Json, rank: nat)
    requires ItemNumber(item).Some? && (ItemNumber(item).value < 1 || ItemNumber(item).value > |cs|)
    ensures RankEvent(rank, item, Numbering(cs)) == Unknown(rank, ItemNumber(item).value)
  {
    NumberingDomain(cs);
  }

  // ------------------------------------------------------------- The judge

  /**
   * One run of the judge. `outcome` is how the helper's backend call ends
   * and `decode` is `json.loads` (`None` when it raises). `sent` is the
   * request the helper sent, if any; `raised` is an exception escaping the
   * judge (a blank api key or model, rejected by the helper).
   */
  method JudgeResponses(question: Question, responses: Entries<Option<Response>>, apiKey: string, model: string,
                        outcome: ClientHelper.CallOutcome, decode: string -> Option<Json>)
    returns (events: seq<JudgeEvent>, sent: Option<ClientHelper.ChatRequest>, raised: Option<Error>)
    ensures |Competitors(responses)| < 2 ==>
      events == SkippedEvents(SkippedNames(responses)) + [NotEnough] && sent == None && raised == None
    ensures |Competitors(responses)| >= 2 && IsBlank(apiKey) ==>
      events == SkippedEvents(SkippedNames(responses)) && sent == None && raised == Some(ValueError(ClientHelper.ApiKeyMessage))
    ensures |Competitors(responses)| >= 2 && !IsBlank(apiKey) && IsBlank(model) ==>
      events == SkippedEvents(SkippedNames(responses)) && sent == None && raised == Some(ValueError(ClientHelper.ModelMessage))
    ensures |Competitors(responses)| >= 2 && !IsBlank(apiKey) && !IsBlank(model) ==>
      && raised == None
      && sent == Some(ClientHelper.ChatRequest(Strip(model), JudgeMessages(PromptFor(question, Answers(Competitors(responses)))), map[]))
      && events == SkippedEvents(SkippedNames(responses))
                   + Verdict(ReplyText(ClientHelper.Extract(outcome, false)), decode, Numbering(Competitors(responses)))
  {
    var skipped := SkippedNames(responses);
    events, sent, raised := SkippedEvents(skipped), None, None;
    var competitors := Competitors(responses);
    if |competitors| < 2 {
      events := events + [NotEnough];
      return;
    }
    var numbered, parts := Anonymize(competitors);
    var together := Strip(Join("\n", parts));
    var prompt := JudgePrompt(|competitors|, question.text, together);
    var helper := ClientHelper.NewHelper(ClientHelper.Typed(apiKey), None, None);
    if helper.Failure? {
      raised := Some(helper.error);
      return;
    }
    var asked := ClientHelper.Ask(helper.value, ClientHelper.Typed(JudgeMessages(prompt)), ClientHelper.Typed(model),
                                  false, map[], outcome);
    sent := asked.sent;
    if asked.result.Failure? {
      raised := Some(asked.result.error);
      return;
    }
    var raw := ReplyText(asked.result.value);
    if raw == "" {
      events := events + [NoReply];
      return;
    }
    var order := ResultsList(decode(raw));
    if order.None? {
      events := events + [ParseFailed(raw)];
      return;
    }
    var ranking := Rank(order.value, numbered);
    events := events + ranking;
  }

  /** One echoed label of the worked example, resolved through EchoedLabelRanksProvider. */
  lemma EchoedDigitRanks(cs: seq<(string, Response)>, text: string, i: nat, rank: nat)
    requires 1 <= i <= |cs| && cs[i - 1].0 != "" && text == DecimalString(i)
    ensures RankEvent(rank, JString(text), Numbering(cs)) == Ranked(rank, cs[i - 1].0, i)
  {
    EchoedLabelRanksProvider(cs, i, rank);
  }

  /**
   * The ranking of the basic judge test: `{"results": ["2", "1", "3"]}` over
   * openai, groq and gemini ranks groq, then openai, then gemini.
   */
  lemma BasicRankingExample(q1: Question, q2: Question, q3: Question)
    ensures var cs := [("openai", Response("openai", q1, "A1")), ("groq", Response("groq", q2, "A2")),
                       ("gemini", Response("gemini", q3, "A3"))];
      RankEvents([JString("2"), JString("1"), JString("3")], Numbering(cs))
        == [Ranked(1, "groq", 2), Ranked(2, "openai", 1), Ranked(3, "gemini", 3)]
  {
    var cs := [("openai", Response("openai", q1, "A1")), ("groq", Response("groq", q2, "A2")),
               ("gemini", Response("gemini", q3, "A3"))];
    DigitStrings();
    EchoedDigitRanks(cs, "2", 2, 1);
    EchoedDigitRanks(cs, "1", 1, 2);
    EchoedDigitRanks(cs, "3", 3, 3);
    RankEventsAt([JString("2"), JString("1"), JString("3")], Numbering(cs));
  }

  lemma DigitStrings()
    ensures DecimalString(1) == "1" && DecimalString(2) == "2" && DecimalString(3) == "3"
  {
  }
}
