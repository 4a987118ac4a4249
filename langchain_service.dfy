/** The deterministic parts of the chat service around the language model:
    building the prompt of a chat turn, the suggested follow-up actions, and
    the post-processing of an image-analysis answer into structured fields. */
module LangChainService {
  import opened Wrappers
  import opened Seqs
  import opened Text

  // ---------------------------------------------------------------------
  // Suggested actions
  // ---------------------------------------------------------------------

  const PestWords: seq<string> := ["disease", "spot", "yellow", "brown", "pest", "bug", "insect"]
  const PriceWords: seq<string> := ["price", "sell", "market", "mandi"]
  const SchemeWords: seq<string> := ["subsidy", "scheme", "government", "loan"]
  const WeatherWords: seq<string> := ["weather", "rain", "drought", "irrigation"]

  const PestSuggestions: seq<string> := [
    "Upload an image of the affected plant",
    "Check market prices for your crop",
    "Look for organic treatment options"]
  const PriceSuggestions: seq<string> := [
    "Check current market prices",
    "Find nearby mandis",
    "Look for government schemes"]
  const SchemeSuggestions: seq<string> := [
    "Search government schemes",
    "Check eligibility criteria",
    "Find application procedures"]
  const WeatherSuggestions: seq<string> := [
    "Check weather forecasts",
    "Look for drought-resistant varieties",
    "Explore irrigation subsidies"]
  const DefaultSuggestions: seq<string> := [
    "Upload crop images for analysis",
    "Check market prices",
    "Explore government schemes"]

  /** `_get_suggested_actions`: an if/elif cascade over keyword groups on the
      lower-cased message, then the first three suggestions. */
  function SuggestedActions(message: string): (r: seq<string>)
    ensures |r| == 3
  {
    var messageLower := Lower(message);
    var suggestions :=
      if ContainsAny(messageLower, PestWords) then PestSuggestions
      else if ContainsAny(messageLower, PriceWords) then PriceSuggestions
      else if ContainsAny(messageLower, SchemeWords) then SchemeSuggestions
      else if ContainsAny(messageLower, WeatherWords) then WeatherSuggestions
      else DefaultSuggestions;
    Take(suggestions, 3)
  }

  /** The keyword groups in priority order, with the suggestions each selects. */
  const SuggestionGroups: seq<(seq<string>, seq<string>)> := [
    (PestWords, PestSuggestions),
    (PriceWords, PriceSuggestions),
    (SchemeWords, SchemeSuggestions),
    (WeatherWords, WeatherSuggestions)]

  /** The first group, in priority order, one of whose words occurs in the text. */
  function FirstGroupHit(messageLower: string, groups: seq<(seq<string>, seq<string>)>): (k: nat)
    ensures k <= |groups|
    ensures k < |groups| ==> ContainsAny(messageLower, groups[k].0)
    ensures forall j :: 0 <= j < k ==> !ContainsAny(messageLower, groups[j].0)
  {
    if groups == [] then 0
    else if ContainsAny(messageLower, groups[0].0) then 0
    else 1 + FirstGroupHit(messageLower, groups[1..])
  }

  /** The cascade is a first-match search over the groups in priority order:
      the first group with a word in the message decides, whatever words of
      later groups the message also holds; no hit gives the default. */
  lemma SuggestionsByPriority(message: string)
    ensures SuggestedActions(message) ==
      var k := FirstGroupHit(Lower(message), SuggestionGroups);
      if k < |SuggestionGroups| then SuggestionGroups[k].1 else DefaultSuggestions
  {
    var m := Lower(message);
    var gs := SuggestionGroups;
    var k := FirstGroupHit(m, gs);
    assert |gs| == 4 && gs[0].0 == PestWords && gs[1].0 == PriceWords;
    assert gs[2].0 == SchemeWords && gs[3].0 == WeatherWords;
    if ContainsAny(m, PestWords) {
      assert k == 0;
    } else if ContainsAny(m, PriceWords) {
      assert k == 1;
    } else if ContainsAny(m, SchemeWords) {
      assert k == 2;
    } else if ContainsAny(m, WeatherWords) {
      assert k == 3;
    } else {
      assert k == 4;
    }
  }

  // ---------------------------------------------------------------------
  // The prompt of a chat turn
  // ---------------------------------------------------------------------

  /** One item of the conversation history sent by the client. */
  datatype HistoryItem = HistoryItem(role: string, content: string)

  /** A message of the prompt handed to the language model. */
  datatype ChatMessage =
    | SystemMessage(content: string)
    | HumanMessage(content: string)
    | AIMessage(content: string)

  /** The answer of `process_chat_message`. */
  datatype ChatReply = ChatReply(response: string, conversationId: string, suggestedActions: seq<string>)

  const KannadaInstruction: string := "[Please respond in Kannada language] "

  const HistoryWindow: nat := 5

  /** Role "user" becomes a human message; every other role an AI message. */
  function AsChatMessage(item: HistoryItem): (m: ChatMessage)
    ensures m.content == item.content
    ensures m.HumanMessage? <==> item.role == "user"
    ensures !m.SystemMessage?
  {
    if item.role == "user" then HumanMessage(item.content) else AIMessage(item.content)
  }

  /** The current message, with the Kannada instruction in front when asked for. */
  function CurrentMessage(message: string, language: string): string {
    if language == "kn" then KannadaInstruction + message else message
  }

  /** The message list of a chat turn. */
  function Prompt(systemPrompt: string, history: seq<HistoryItem>, message: string, language: string): seq<ChatMessage> {
    [SystemMessage(systemPrompt)] + Map(Last(history, HistoryWindow), AsChatMessage)
    + [HumanMessage(CurrentMessage(message, language))]
  }

  /** `process_chat_message`. The system prompt is the service's fixed
      instruction text; `model` stands for the language-model call, which
      either answers or raises (and the error is passed on). */
  method ProcessChatMessage(systemPrompt: string, message: string, history: seq<HistoryItem>,
                            language: string, model: seq<ChatMessage> -> Result<string, string>)
    returns (r: Result<ChatReply, string>)
    ensures r.Err? <==> model(Prompt(systemPrompt, history, message, language)).Err?
    ensures r.Err? ==> r.error == model(Prompt(systemPrompt, history, message, language)).error
    ensures r.Ok? ==> r.value == ChatReply(model(Prompt(systemPrompt, history, message, language)).value,
                                           "default", SuggestedActions(CurrentMessage(message, language)))
  {
    var messages := [SystemMessage(systemPrompt)];
    var window := Last(history, HistoryWindow);
    for i := 0 to |window|
      invariant messages == [SystemMessage(systemPrompt)] + Map(window[..i], AsChatMessage)
    {
      var msg := window[i];
      MapPrefixStep(window, i, AsChatMessage);
      if msg.role == "user" {
        messages := messages + [HumanMessage(msg.content)];
      } else {
        messages := messages + [AIMessage(msg.content)];
      }
    }
    assert window[..|window|] == window;
    var current := message;
    if language == "kn" {
      current := KannadaInstruction + message;
    }
    messages := messages + [HumanMessage(current)];
    assert current == CurrentMessage(message, language);
    assert messages == Prompt(systemPrompt, history, message, language);
    var response := model(messages);
    if response.Err? {
      return Err(response.error);
    }
    var suggestedActions := SuggestedActions(current);
    r := Ok(ChatReply(response.value, "default", suggestedActions));
  }

  /** The prompt is the system message, then the last five history items (or
      all of them) in their original order with their roles mapped, then the
      current message. */
  lemma PromptShape(systemPrompt: string, history: seq<HistoryItem>, message: string, language: string)
    ensures var p := Prompt(systemPrompt, history, message, language);
      var n := Min(HistoryWindow, |history|);
      && |p| == n + 2
      && p[0] == SystemMessage(systemPrompt)
      && p[|p| - 1] == HumanMessage(CurrentMessage(message, language))
      && (forall k :: 1 <= k <= n ==> p[k] == AsChatMessage(history[|history| - n + k - 1]))
      && (forall k :: 1 <= k <= n ==> (p[k].HumanMessage? <==> history[|history| - n + k - 1].role == "user"))
  {
    var window := Last(history, HistoryWindow);
    var p := Prompt(systemPrompt, history, message, language);
    var n := Min(HistoryWindow, |history|);
    forall k | 1 <= k <= n ensures p[k] == AsChatMessage(history[|history| - n + k - 1]) {
      assert window[k - 1] == history[|history| - n + k - 1];
    }
  }

  /** The Kannada instruction is added exactly when the language is "kn". */
  lemma KannadaInstructionIff(message: string, language: string)
    ensures CurrentMessage(message, language) != message <==> language == "kn"
    ensures language == "kn" ==> CurrentMessage(message, language)[..|KannadaInstruction|] == KannadaInstruction
    ensures CurrentMessage(message, language)[|CurrentMessage(message, language)| - |message|..] == message
  {
    if language == "kn" {
      assert |CurrentMessage(message, language)| == |KannadaInstruction| + |message|;
    }
  }

  // ---------------------------------------------------------------------
  // Image-analysis post-processing
  // ---------------------------------------------------------------------

  /** The structured result of `_parse_image_analysis`. */
  datatype ImageAnalysis = ImageAnalysis(
    analysis: string,
    diseaseDetected: Option<string>,
    confidenceScore: Option<real>,
    recommendedActions: seq<string>,
    localRemedies: seq<string>)

  /** Disease names searched for, in this order. */
  const Diseases: seq<string> := [
    "blight", "wilt", "rust", "mildew", "mosaic", "rot", "canker",
    "anthracnose", "leaf spot", "powdery mildew", "downy mildew",
    "bacterial", "fungal", "viral", "aphid", "thrips", "whitefly"]

  /** The title-cased first disease of the list that occurs in the lower-cased text. */
  function DiseaseDetected(responseText: string): Option<string> {
    var k := FirstContained(Lower(responseText), Diseases);
    if k < |Diseases| then Some(Title(Diseases[k])) else None
  }

  /** A disease is reported exactly when some listed disease occurs in the
      lower-cased text, and it is the first such in list order, not in text order. */
  lemma DiseaseDetectedMeaning(responseText: string)
    ensures DiseaseDetected(responseText).Some? <==>
      exists j :: 0 <= j < |Diseases| && Contains(Lower(responseText), Diseases[j])
    ensures DiseaseDetected(responseText).Some? ==>
      exists k :: 0 <= k < |Diseases| && DiseaseDetected(responseText) == Some(Title(Diseases[k]))
                  && Contains(Lower(responseText), Diseases[k])
                  && forall j :: 0 <= j < k ==> !Contains(Lower(responseText), Diseases[j])
  {
    var lower := Lower(responseText);
    FirstContainedFinds(lower, Diseases);
    var k := FirstContained(lower, Diseases);
    if k < |Diseases| {
      assert DiseaseDetected(responseText) == Some(Title(Diseases[k]));
    }
  }

  /** "powdery mildew" and "downy mildew" are never reported: each contains
      "mildew", which comes earlier in the list. */
  lemma CompoundMildewsShadowed(responseText: string)
    ensures DiseaseDetected(responseText) != Some("Powdery Mildew")
    ensures DiseaseDetected(responseText) != Some("Downy Mildew")
  {
    var lower := Lower(responseText);
    var k := FirstContained(lower, Diseases);
    DiseaseLengths();
    if Contains(lower, Diseases[9]) {
      ContainsInner(lower, Diseases[9], 8, "mildew");
      assert k <= 3;
    }
    if Contains(lower, Diseases[10]) {
      ContainsInner(lower, Diseases[10], 6, "mildew");
      assert k <= 3;
    }
    if k < |Diseases| {
      assert |Title(Diseases[k])| == |Diseases[k]|;
    }
  }

  lemma DiseaseLengths()
    ensures |Diseases| == 17
    ensures forall k :: 0 <= k < 17 && k != 9 ==> |Diseases[k]| != 14
    ensures forall k :: 0 <= k < 17 && k != 10 ==> |Diseases[k]| != 12
    ensures Diseases[3] == "mildew"
    ensures Diseases[9][8..] == "mildew" && Diseases[10][6..] == "mildew"
  {
  }

  /** A text that contains `w` contains every piece of `w`. */
  lemma ContainsInner(s: string, w: string, i: nat, v: string)
    requires i + |v| <= |w| && w[i..i + |v|] == v
    requires Contains(s, w)
    ensures Contains(s, v)
  {
    var j :| 0 <= j <= |s| && OccursAt(s, w, j);
    var piece := s[j..j + |w|];
    var inner := s[j + i..j + i + |v|];
    assert piece == w;
    assert forall t :: 0 <= t < |v| ==> inner[t] == piece[i + t];
    assert piece[i..i + |v|] == inner;
    assert OccursAt(s, v, j + i);
  }

  /** The four confidence patterns, tried in this order, each case-insensitive:
      `confidence[:\s]*(\d+)%`, `(\d+)%\s*confidence`, `confidence[:\s]*(\d+)`
      and `(\d+)\s*percent`. */
  datatype ConfidencePattern =
    | ConfidenceThenPercentSign
    | PercentSignThenConfidence
    | ConfidenceThenNumber
    | NumberThenPercentWord

  const ConfidencePatterns: seq<ConfidencePattern> :=
    [ConfidenceThenPercentSign, PercentSignThenConfidence, ConfidenceThenNumber, NumberThenPercentWord]

  predicate IsSeparator(c: char) { c == ':' || IsSpace(c) }

  /** The lower-case word `w` occurs at `i`, ignoring ASCII case. */
  predicate WordAt(s: string, w: string, i: nat) {
    i + |w| <= |s| && forall k :: 0 <= k < |w| ==> LowerChar(s[i + k]) == w[k]
  }

  /** All characters of `ds` are ASCII digits and there is at least one. */
  predicate IsNumeral(ds: string) {
    ds != [] && forall k :: 0 <= k < |ds| ==> IsDigit(ds[k])
  }

  /** The digits a pattern captures when it matches at position i. Each
      repetition is greedy and is followed by a character outside its class,
      so the greedy run is the only one a match can use. */
  function MatchAt(p: ConfidencePattern, s: string, i: nat): (r: Option<string>)
    requires i <= |s|
    ensures r.Some? ==> IsNumeral(r.value)
  {
    match p
    case ConfidenceThenPercentSign => ConfidenceNumberAt(s, i, true)
    case PercentSignThenConfidence => PercentConfidenceAt(s, i)
    case ConfidenceThenNumber => ConfidenceNumberAt(s, i, false)
    case NumberThenPercentWord => NumberPercentAt(s, i)
  }

  /** `confidence[:\s]*(\d+)%` (with a percent sign) or `confidence[:\s]*(\d+)` at i. */
  function ConfidenceNumberAt(s: string, i: nat, percentSign: bool): (r: Option<string>)
    requires i <= |s|
    ensures r.Some? ==> IsNumeral(r.value)
  {
    if !WordAt(s, "confidence", i) then None
    else
      var j := i + 10 + Span(s, i + 10, IsSeparator);
      var n := Span(s, j, IsDigit);
      if n == 0 then None
      else if percentSign && !(j + n < |s| && s[j + n] == '%') then None
      else Some(s[j..j + n])
  }

  /** `(\d+)%\s*confidence` at i. */
  function PercentConfidenceAt(s: string, i: nat): (r: Option<string>)
    requires i <= |s|
    ensures r.Some? ==> IsNumeral(r.value)
  {
    var n := Span(s, i, IsDigit);
    if n > 0 && i + n < |s| && s[i + n] == '%' then
      var j := i + n + 1 + Span(s, i + n + 1, IsSpace);
      if WordAt(s, "confidence", j) then Some(s[i..i + n]) else None
    else None
  }

  /** `(\d+)\s*percent` at i. */
  function NumberPercentAt(s: string, i: nat): (r: Option<string>)
    requires i <= |s|
    ensures r.Some? ==> IsNumeral(r.value)
  {
    var n := Span(s, i, IsDigit);
    if n > 0 then
      var j := i + n + Span(s, i + n, IsSpace);
      if WordAt(s, "percent", j) then Some(s[i..i + n]) else None
    else None
  }

  /** The first position from i to n at which `m` reports a match, or n + 1. */
  function LeftmostIndex(m: nat -> Option<string>, n: nat, i: nat): (k: nat)
    requires i <= n
    ensures i <= k <= n + 1
    ensures k <= n ==> m(k).Some?
    ensures forall j :: i <= j < k ==> m(j).None?
    decreases n - i
  {
    if m(i).Some? then i else if i == n then n + 1 else LeftmostIndex(m, n, i + 1)
  }

  /** The match of pattern p at each position of s. */
  function MatchesOf(p: ConfidencePattern, s: string): nat -> Option<string> {
    (k: nat) => if k <= |s| then MatchAt(p, s, k) else None
  }

  /** `re.search`: the capture at the leftmost position where the pattern matches. */
  function Search(p: ConfidencePattern, s: string): (r: Option<string>)
    ensures r.Some? ==> IsNumeral(r.value)
  {
    var k := LeftmostIndex(MatchesOf(p, s), |s|, 0);
    if k <= |s| then MatchAt(p, s, k) else None
  }

  /** The search reports nothing exactly when no position matches, and
      otherwise the capture of the leftmost position that does. */
  lemma SearchMeaning(p: ConfidencePattern, s: string)
    ensures Search(p, s).None? <==> forall i :: 0 <= i <= |s| ==> MatchAt(p, s, i).None?
    ensures Search(p, s).Some? ==>
      exists i :: 0 <= i <= |s| && MatchAt(p, s, i) == Search(p, s)
                  && forall j :: 0 <= j < i ==> MatchAt(p, s, j).None?
  {
    var m := MatchesOf(p, s);
    var k := LeftmostIndex(m, |s|, 0);
    assert forall j :: 0 <= j <= |s| ==> m(j) == MatchAt(p, s, j);
    if k <= |s| {
      assert MatchAt(p, s, k) == Search(p, s);
    }
  }

  /** Index of the first pattern of the list that matches somewhere in `s`, or the list's length. */
  function FirstPatternHit(s: string, patterns: seq<ConfidencePattern>): (k: nat)
    ensures k <= |patterns|
    ensures k < |patterns| ==> Search(patterns[k], s).Some?
    ensures forall j :: 0 <= j < k ==> Search(patterns[j], s).None?
  {
    if patterns == [] then 0
    else if Search(patterns[0], s).Some? then 0
    else 1 + FirstPatternHit(s, patterns[1..])
  }

  /** The loop that stops at the first pattern that matches computes FirstPatternHit. */
  lemma {:induction false} FirstPatternHitIs(s: string, patterns: seq<ConfidencePattern>, k: nat)
    requires k <= |patterns|
    requires k < |patterns| ==> Search(patterns[k], s).Some?
    requires forall j :: 0 <= j < k ==> Search(patterns[j], s).None?
    ensures FirstPatternHit(s, patterns) == k
    decreases |patterns|
  {
    if patterns != [] && k > 0 {
      FirstPatternHitIs(s, patterns[1..], k - 1);
    }
  }

  /** A captured number read as a percentage: `float(digits) / 100`. */
  function Percent(ds: string): (v: real)
    requires IsNumeral(ds)
    ensures v >= 0.0
  {
    DigitsValue(ds) as real / 100.0
  }

  /** The captured number of the first pattern, in order, that matches, over 100. */
  function ConfidenceScore(responseText: string): Option<real> {
    ScoreBy(responseText, ConfidencePatterns)
  }

  /** The capture of the first of `patterns` that matches, over 100. */
  function ScoreBy(s: string, patterns: seq<ConfidencePattern>): Option<real> {
    var k := FirstPatternHit(s, patterns);
    if k < |patterns| then Some(Percent(Search(patterns[k], s).value))
    else None
  }

  /** A confidence is reported exactly when one of the patterns matches
      somewhere, and it is never negative. */
  lemma ConfidenceScoreMeaning(responseText: string)
    ensures ConfidenceScore(responseText).Some? <==>
      exists k, i :: 0 <= k < |ConfidencePatterns| && 0 <= i <= |responseText|
                     && MatchAt(ConfidencePatterns[k], responseText, i).Some?
    ensures ConfidenceScore(responseText).Some? ==> ConfidenceScore(responseText).value >= 0.0
  {
    var s := responseText;
    forall k | 0 <= k < |ConfidencePatterns| ensures Search(ConfidencePatterns[k], s).None? <==>
        forall i :: 0 <= i <= |s| ==> MatchAt(ConfidencePatterns[k], s, i).None? {
      SearchMeaning(ConfidencePatterns[k], s);
    }
    if exists k, i :: 0 <= k < |ConfidencePatterns| && 0 <= i <= |s| && MatchAt(ConfidencePatterns[k], s, i).Some? {
      var k, i :| 0 <= k < |ConfidencePatterns| && 0 <= i <= |s| && MatchAt(ConfidencePatterns[k], s, i).Some?;
      assert Search(ConfidencePatterns[k], s).Some?;
      assert FirstPatternHit(s, ConfidencePatterns) <= k;
    }
    var h := FirstPatternHit(s, ConfidencePatterns);
    if h < |ConfidencePatterns| {
      var r := Search(ConfidencePatterns[h], s);
      assert r.Some?;
    }
  }

  /** A reported confidence is the capture, over 100, of the first pattern
      in list order that matches anywhere, taken at its leftmost match. */
  lemma ConfidenceScoreValue(responseText: string)
    ensures ConfidenceScore(responseText).Some? ==>
      exists k, i :: 0 <= k < |ConfidencePatterns| && 0 <= i <= |responseText|
        && MatchAt(ConfidencePatterns[k], responseText, i).Some?
        && ConfidenceScore(responseText).value == Percent(MatchAt(ConfidencePatterns[k], responseText, i).value)
        && (forall j, i' :: 0 <= j < k && 0 <= i' <= |responseText| ==> MatchAt(ConfidencePatterns[j], responseText, i').None?)
        && (forall i' :: 0 <= i' < i ==> MatchAt(ConfidencePatterns[k], responseText, i').None?)
  {
    var s := responseText;
    var k := FirstPatternHit(s, ConfidencePatterns);
    if k < |ConfidencePatterns| {
      forall j | 0 <= j < k
        ensures forall i' :: 0 <= i' <= |s| ==> MatchAt(ConfidencePatterns[j], s, i').None?
      {
        SearchMeaning(ConfidencePatterns[j], s);
      }
      SearchMeaning(ConfidencePatterns[k], s);
      var i :| 0 <= i <= |s| && MatchAt(ConfidencePatterns[k], s, i) == Search(ConfidencePatterns[k], s)
               && forall j :: 0 <= j < i ==> MatchAt(ConfidencePatterns[k], s, j).None?;
      assert ConfidenceScore(s).value == Percent(MatchAt(ConfidencePatterns[k], s, i).value);
    }
  }

  /** A text with "confidence" followed by separators and digits always gets a
      score: the third pattern needs no percent sign. */
  lemma ConfidenceWordGivesScore(s: string, i: nat)
    requires i <= |s| && WordAt(s, "confidence", i)
    requires var j := i + 10 + Span(s, i + 10, IsSeparator); j < |s| && IsDigit(s[j])
    ensures ConfidenceScore(s).Some?
  {
    assert MatchAt(ConfidenceThenNumber, s, i).Some?;
    SearchMeaning(ConfidenceThenNumber, s);
    assert Search(ConfidencePatterns[2], s).Some?;
    assert FirstPatternHit(s, ConfidencePatterns) <= 2;
  }

  const ActionWords: seq<string> := [
    "spray", "apply", "use", "treat", "remove", "cut", "water",
    "fertilize", "prune", "harvest", "isolate"]
  const RemedyWords: seq<string> := [
    "neem", "organic", "local", "traditional", "natural",
    "turmeric", "garlic", "soap", "ash"]
  const NumberedRemedyWords: seq<string> := ["neem", "organic", "local"]

  /** `re.match(r'^\d+\.', line)`: the line starts with digits and a dot. */
  predicate NumberedItem(line: string) {
    var n := Span(line, 0, IsDigit);
    n > 0 && n < |line| && line[n] == '.'
  }

  datatype LineKind = ActionLine | RemedyLine | Ignored

  /** Where a stripped line goes. */
  function Kind(line: string): LineKind {
    var lower := Lower(line);
    if line == [] then Ignored
    else if ContainsAny(lower, ActionWords) then
      if ContainsAny(lower, RemedyWords) then RemedyLine else ActionLine
    else if NumberedItem(line) && |line| > 10 then
      if ContainsAny(lower, NumberedRemedyWords) then RemedyLine else ActionLine
    else Ignored
  }

  function StrippedLines(responseText: string): seq<string> {
    Map(SplitOn(responseText, '\n'), Strip)
  }

  predicate IsAction(line: string) { Kind(line) == ActionLine }

  predicate IsRemedy(line: string) { Kind(line) == RemedyLine }

  /** Every action line and every remedy line, in text order, before truncation. */
  function AllActions(responseText: string): seq<string> {
    Filter(StrippedLines(responseText), IsAction)
  }

  function AllRemedies(responseText: string): seq<string> {
    Filter(StrippedLines(responseText), IsRemedy)
  }

  /** The body of the line loop of `_parse_image_analysis` for one stripped
      line: a blank line is skipped; a line with an action word is a remedy
      when it also has a remedy word; otherwise a numbered item longer than
      ten characters is a remedy when it has one of the three short remedy
      words; every other line is skipped. */
  method ClassifyLine(line: string) returns (kind: LineKind)
    ensures kind == RemedyLine <==>
      line != [] &&
      if ContainsAny(Lower(line), ActionWords) then ContainsAny(Lower(line), RemedyWords)
      else NumberedItem(line) && |line| > 10 && ContainsAny(Lower(line), NumberedRemedyWords)
    ensures kind == ActionLine <==>
      line != [] &&
      if ContainsAny(Lower(line), ActionWords) then !ContainsAny(Lower(line), RemedyWords)
      else NumberedItem(line) && |line| > 10 && !ContainsAny(Lower(line), NumberedRemedyWords)
    ensures kind == Ignored <==>
      line == [] || (!ContainsAny(Lower(line), ActionWords) && !(NumberedItem(line) && |line| > 10))
    ensures kind == Kind(line)
  {
    if line == [] {
      return Ignored;
    }
    var lower := Lower(line);
    if ContainsAny(lower, ActionWords) {
      if ContainsAny(lower, RemedyWords) {
        kind := RemedyLine;
      } else {
        kind := ActionLine;
      }
    } else if NumberedItem(line) && |line| > 10 {
      if ContainsAny(lower, NumberedRemedyWords) {
        kind := RemedyLine;
      } else {
        kind := ActionLine;
      }
    } else {
      kind := Ignored;
    }
  }

  /** The line loop of `_parse_image_analysis`, which keeps every action and
      remedy line (stripped once more when kept) and truncates at the end. */
  method SortLines(responseText: string) returns (actions: seq<string>, remedies: seq<string>)
    ensures actions == Take(AllActions(responseText), 5)
    ensures remedies == Take(AllRemedies(responseText), 3)
  {
    var lines := SplitOn(responseText, '\n');
    actions := [];
    remedies := [];
    for i := 0 to |lines|
      invariant actions == Filter(Map(lines[..i], Strip), IsAction)
      invariant remedies == Filter(Map(lines[..i], Strip), IsRemedy)
    {
      var line := Strip(lines[i]);
      MapFilterPrefixStep(lines, i, Strip, IsAction);
      MapFilterPrefixStep(lines, i, Strip, IsRemedy);
      StripIdempotent(lines[i]);
      var kind := ClassifyLine(line);
      if kind == RemedyLine {
        remedies := remedies + [Strip(line)];
      } else if kind == ActionLine {
        actions := actions + [Strip(line)];
      }
    }
    assert lines[..|lines|] == lines;
    actions := Take(actions, 5);
    remedies := Take(remedies, 3);
  }

  /** The disease loop of `_parse_image_analysis`, which stops at the first hit. */
  method FindDisease(responseLower: string) returns (disease: Option<string>)
    ensures disease == var k := FirstContained(responseLower, Diseases);
                       if k < |Diseases| then Some(Title(Diseases[k])) else None
  {
    disease := None;
    for d := 0 to |Diseases|
      invariant forall j :: 0 <= j < d ==> !Contains(responseLower, Diseases[j])
    {
      if Contains(responseLower, Diseases[d]) {
        FirstContainedIs(responseLower, Diseases, d);
        disease := Some(Title(Diseases[d]));
        return;
      }
    }
    FirstContainedIs(responseLower, Diseases, |Diseases|);
  }

  /** A loop that stops at pattern k, all earlier patterns failing, reports
      the score ScoreBy names. */
  lemma ScoreAt(s: string, patterns: seq<ConfidencePattern>, k: nat)
    requires k <= |patterns|
    requires k < |patterns| ==> Search(patterns[k], s).Some?
    requires forall j :: 0 <= j < k ==> Search(patterns[j], s).None?
    ensures ScoreBy(s, patterns) ==
      if k < |patterns| then Some(Percent(Search(patterns[k], s).value)) else None
  {
    FirstPatternHitIs(s, patterns, k);
  }

  /** The confidence loop of `_parse_image_analysis`: try the patterns in
      order and stop at the first one that matches. */
  method FindScore(responseText: string, patterns: seq<ConfidencePattern>) returns (score: Option<real>)
    ensures score == ScoreBy(responseText, patterns)
  {
    score := None;
    for k := 0 to |patterns|
      invariant score.None?
      invariant forall j :: 0 <= j < k ==> Search(patterns[j], responseText).None?
    {
      var confidenceMatch := Search(patterns[k], responseText);
      if confidenceMatch.Some? {
        score := Some(Percent(confidenceMatch.value));
        ScoreAt(responseText, patterns, k);
        return;
      }
    }
    ScoreAt(responseText, patterns, |patterns|);
  }

  /** `_parse_image_analysis`: the text itself, the first listed disease, the
      first matching confidence pattern, and the sorted lines. */
  method ParseImageAnalysis(responseText: string) returns (result: ImageAnalysis)
    ensures result.analysis == responseText
    ensures result.diseaseDetected == DiseaseDetected(responseText)
    ensures result.confidenceScore == ConfidenceScore(responseText)
    ensures result.recommendedActions == Take(AllActions(responseText), 5)
    ensures result.localRemedies == Take(AllRemedies(responseText), 3)
  {
    result := ImageAnalysis(responseText, None, None, [], []);
    var responseLower := Lower(responseText);
    var disease := FindDisease(responseLower);
    result := result.(diseaseDetected := disease);
    var score := FindScore(responseText, ConfidencePatterns);
    result := result.(confidenceScore := score);
    var actions, remedies := SortLines(responseText);
    result := result.(recommendedActions := actions, localRemedies := remedies);
  }

  /** Each kept line is a non-blank stripped line of the text, no line is both
      an action and a remedy, and both lists keep text order. */
  lemma LinesPartition(responseText: string)
    ensures forall l :: l in AllActions(responseText) ==> l in StrippedLines(responseText) && l != []
    ensures forall l :: l in AllRemedies(responseText) ==> l in StrippedLines(responseText) && l != []
    ensures forall l :: l in AllActions(responseText) ==> l !in AllRemedies(responseText)
    ensures IsSubsequence(AllActions(responseText), StrippedLines(responseText))
    ensures IsSubsequence(AllRemedies(responseText), StrippedLines(responseText))
  {
    var lines := StrippedLines(responseText);
    FilterMembership(lines, IsAction);
    FilterMembership(lines, IsRemedy);
    FilterIsSubsequence(lines, IsAction);
    FilterIsSubsequence(lines, IsRemedy);
  }

  /** A stripped line is a remedy exactly when it is non-blank and either holds
      an action word and a remedy word, or holds no action word, is a numbered
      item longer than ten characters and holds one of the three short remedy words. */
  lemma RemedyRule(responseText: string, l: string)
    ensures l in AllRemedies(responseText) <==>
      l in StrippedLines(responseText) && l != [] &&
      if ContainsAny(Lower(l), ActionWords) then ContainsAny(Lower(l), RemedyWords)
      else NumberedItem(l) && |l| > 10 && ContainsAny(Lower(l), NumberedRemedyWords)
  {
    FilterMembership(StrippedLines(responseText), IsRemedy);
  }

  /** A stripped line is an action exactly when it is non-blank and either
      holds an action word but no remedy word, or holds no action word, is a
      numbered item longer than ten characters and holds none of the three
      short remedy words. */
  lemma ActionRule(responseText: string, l: string)
    ensures l in AllActions(responseText) <==>
      l in StrippedLines(responseText) && l != [] &&
      if ContainsAny(Lower(l), ActionWords) then !ContainsAny(Lower(l), RemedyWords)
      else NumberedItem(l) && |l| > 10 && !ContainsAny(Lower(l), NumberedRemedyWords)
  {
    FilterMembership(StrippedLines(responseText), IsAction);
  }

  /** The short remedy list is part of the long one, so a kept line with
      "neem", "organic" or "local" is always a remedy, whichever rule kept it. */
  lemma ShortRemedyWordsMakeRemedies(line: string)
    requires Kind(line) != Ignored && ContainsAny(Lower(line), NumberedRemedyWords)
    ensures Kind(line) == RemedyLine
  {
    var w :| w in NumberedRemedyWords && Contains(Lower(line), w);
    assert w in RemedyWords;
  }
}
