/** The deterministic parts of the language-model service: the chat message list,
    the prompt and language-name tables with their fallbacks, the reply and
    translation fallbacks, and the post-processing of the scheme scorer's answer.
    The completion service itself is a parameter: a function from what is sent
    to what comes back. */
module OpenAI {
  import opened Wrappers
  import opened Text
  import opened Seqs
  import opened Domain

  /* --------------------------------------------------------- tables */

  /** The two system prompts (their wording is not modelled). */
  datatype SystemPrompt = EnglishPrompt | HindiPrompt

  /** `getSystemPrompt`: the Hindi prompt for "hi", the English one otherwise. */
  function GetSystemPrompt(language: string): (r: SystemPrompt)
    ensures r == HindiPrompt <==> language == "hi"
  {
    if language == "hi" then HindiPrompt else EnglishPrompt
  }

  const LanguageNames: map<string, string> := map[
    "en" := "English", "hi" := "Hindi", "bn" := "Bengali", "ta" := "Tamil",
    "te" := "Telugu", "mr" := "Marathi", "gu" := "Gujarati", "kn" := "Kannada",
    "ml" := "Malayalam", "pa" := "Punjabi", "or" := "Odia", "as" := "Assamese"]

  /** `getLanguageName`: the table entry, or "English" for any other code. */
  function GetLanguageName(code: string): (r: string)
    ensures r in LanguageNames.Values
    ensures code in LanguageNames ==> r == LanguageNames[code]
  {
    if code in LanguageNames then LanguageNames[code]
    else assert LanguageNames["en"] == "English"; "English"
  }

  /** Only "en" and the codes outside the table are named "English". */
  lemma EnglishFallback(code: string)
    ensures GetLanguageName(code) == "English" <==> code == "en" || code !in LanguageNames
  {
    if code in LanguageNames && code != "en" {
      assert code in {"hi", "bn", "ta", "te", "mr", "gu", "kn", "ml", "pa", "or", "as"};
    }
  }

  /* ----------------------------------------------------------- chat */

  /** What the completion service answers: an error, or a first choice whose
      content may be null. */
  datatype Completion = CompletionFailed | Replied(content: Option<string>)

  /** A message's content: one of the system prompts, or literal text. */
  datatype Content = Prompt(prompt: SystemPrompt) | Plain(text: string)

  datatype ChatMessage = ChatMessage(role: string, content: Content)

  /** A conversation-history entry as the caller passes it. */
  datatype HistoryEntry = HistoryEntry(role: string, content: string)

  function HistoryMessage(h: HistoryEntry): ChatMessage {
    ChatMessage(h.role, Plain(h.content))
  }

  function HistoryMessages(history: seq<HistoryEntry>): (r: seq<ChatMessage>)
    ensures |r| == |history|
    ensures forall i :: 0 <= i < |history| ==> r[i] == HistoryMessage(history[i])
  {
    seq(|history|, i requires 0 <= i < |history| => HistoryMessage(history[i]))
  }

  function ContextMessage(context: string): ChatMessage {
    ChatMessage("system", Plain("Additional context: " + context))
  }

  /** The message list sent for one chat turn. */
  function ChatMessages(message: string, language: string, context: Option<string>,
                        history: Option<seq<HistoryEntry>>): seq<ChatMessage> {
    [ChatMessage("system", Prompt(GetSystemPrompt(language)))]
    + (if history.Some? then HistoryMessages(history.value) else [])
    + (if Truthy(context) then [ContextMessage(context.value)] else [])
    + [ChatMessage("user", Plain(message))]
  }

  /** The list starts with the system prompt, then the history in order, then the
      context message exactly when the context is non-empty, and ends with the
      user's message. */
  lemma ChatMessagesOrder(message: string, language: string, context: Option<string>,
                          history: Option<seq<HistoryEntry>>)
    ensures var ms, hs := ChatMessages(message, language, context, history),
                          if history.Some? then history.value else [];
      && |ms| == |hs| + (if Truthy(context) then 1 else 0) + 2
      && ms[0] == ChatMessage("system", Prompt(GetSystemPrompt(language)))
      && (forall i :: 0 <= i < |hs| ==> ms[i + 1] == ChatMessage(hs[i].role, Plain(hs[i].content)))
      && (Truthy(context) ==> ms[|hs| + 1] == ChatMessage("system", Plain("Additional context: " + context.value)))
      && ms[|ms| - 1] == ChatMessage("user", Plain(message))
      && forall i :: 1 <= i < |ms| - 1 ==> ms[i].content.Plain?
  {
    var hs := if history.Some? then history.value else [];
    var head := [ChatMessage("system", Prompt(GetSystemPrompt(language)))];
    var mid := HistoryMessages(hs);
    var ctx := if Truthy(context) then [ContextMessage(context.value)] else [];
    var tail := [ChatMessage("user", Plain(message))];
    var ms := ChatMessages(message, language, context, history);
    assert (if history.Some? then HistoryMessages(history.value) else []) == mid;
    assert ms == head + mid + ctx + tail;
    forall i | 0 <= i < |hs| ensures ms[i + 1] == mid[i] {
      assert (head + mid + ctx + tail)[i + 1] == mid[i];
    }
    if Truthy(context) {
      assert ms[|hs| + 1] == ctx[0];
    }
    forall i | 1 <= i < |ms| - 1 ensures ms[i].content.Plain? {
      if i <= |hs| {
        assert ms[i] == mid[i - 1];
      } else {
        assert ms[i] == ctx[0];
      }
    }
  }

  /** The message assembly of `generateChatResponse`. */
  method BuildChatMessages(message: string, language: string, context: Option<string>,
                           conversationHistory: Option<seq<HistoryEntry>>)
    returns (messages: seq<ChatMessage>)
    ensures messages == ChatMessages(message, language, context, conversationHistory)
  {
    var systemPrompt := GetSystemPrompt(language);
    messages := [ChatMessage("system", Prompt(systemPrompt))];
    if conversationHistory.Some? {
      var history := conversationHistory.value;
      for i := 0 to |history|
        invariant messages == [ChatMessage("system", Prompt(systemPrompt))] + HistoryMessages(history[..i])
      {
        assert HistoryMessages(history[..i + 1]) == HistoryMessages(history[..i]) + [HistoryMessage(history[i])];
        messages := messages + [ChatMessage(history[i].role, Plain(history[i].content))];
      }
      assert history[..|history|] == history;
    }
    if Truthy(context) {
      messages := messages + [ChatMessage("system", Plain("Additional context: " + context.value))];
    }
    messages := messages + [ChatMessage("user", Plain(message))];
  }

  /** A chat reply: the model's text, or one of the fixed apologies. */
  datatype Reply = Answer(text: string) | CannotProcess | TechnicalDifficulties | TechnicalDifficultiesHindi

  /** `generateChatResponse`, with the completion service as `complete`. */
  method GenerateChatResponse(message: string, language: string, context: Option<string>,
                              conversationHistory: Option<seq<HistoryEntry>>,
                              complete: seq<ChatMessage> -> Completion)
    returns (r: Reply)
    ensures var c := complete(ChatMessages(message, language, context, conversationHistory));
      && (r == TechnicalDifficultiesHindi <==> c.CompletionFailed? && language == "hi")
      && (r == TechnicalDifficulties <==> c.CompletionFailed? && language != "hi")
      && (r == CannotProcess <==> c.Replied? && !Truthy(c.content))
      && (r.Answer? <==> c.Replied? && Truthy(c.content))
      && (r.Answer? ==> r.text != "" && c == Replied(Some(r.text)))
  {
    var messages := BuildChatMessages(message, language, context, conversationHistory);
    var response := complete(messages);
    if response.CompletionFailed? {
      r := if language == "hi" then TechnicalDifficultiesHindi else TechnicalDifficulties;
    } else if Truthy(response.content) {
      r := Answer(response.content.value);
    } else {
      r := CannotProcess;
    }
  }

  /* ---------------------------------------------------- translation */

  /** `translateText`, with the service given the target language's name and the
      text: the input comes back unchanged unless the service answers with
      non-empty content. */
  function TranslateText(text: string, targetLanguage: string, complete: (string, string) -> Completion): (r: string)
    ensures var c := complete(GetLanguageName(targetLanguage), text);
      && (r != text ==> c == Replied(Some(r)) && r != "")
      && (c.CompletionFailed? || !Truthy(c.content) ==> r == text)
      && (c.Replied? && Truthy(c.content) ==> r == c.content.value)
  {
    var c := complete(GetLanguageName(targetLanguage), text);
    if c.Replied? && Truthy(c.content) then c.content.value else text
  }

  /* --------------------------------------- scheme scorer post-processing */

  /** One entry of the scorer's parsed answer. */
  datatype RawRecommendation = RawRecommendation(
    schemeIndex: int, score: real, reasoning: string, eligibilityStatus: string)

  /** A post-processed recommendation (`SchemeRecommendation`). */
  datatype SchemeRecommendation = SchemeRecommendation(
    schemeId: string, score: real, reasoning: string, eligibilityStatus: string)

  /** `Math.max(0, Math.min(1, x))`. */
  function Clamp(x: real): (r: real)
    ensures 0.0 <= r <= 1.0
    ensures 0.0 <= x <= 1.0 ==> r == x
    ensures x < 0.0 ==> r == 0.0
    ensures x > 1.0 ==> r == 1.0
  {
    if x > 1.0 then 1.0 else if x < 0.0 then 0.0 else x
  }

  /** `availableSchemes[i]?.id || ''`: the id at that position, or "" when there
      is no such position. */
  function ResolveId(schemes: seq<Scheme>, index: int): string {
    if 0 <= index < |schemes| then schemes[index].id else ""
  }

  function MapOne(schemes: seq<Scheme>, rec: RawRecommendation): SchemeRecommendation {
    SchemeRecommendation(ResolveId(schemes, rec.schemeIndex), Clamp(rec.score), rec.reasoning, rec.eligibilityStatus)
  }

  function MapAll(schemes: seq<Scheme>, recs: seq<RawRecommendation>): (r: seq<SchemeRecommendation>)
    ensures |r| == |recs|
    ensures forall i :: 0 <= i < |recs| ==> r[i] == MapOne(schemes, recs[i])
  {
    seq(|recs|, i requires 0 <= i < |recs| => MapOne(schemes, recs[i]))
  }

  predicate HasId(rec: SchemeRecommendation) {
    rec.schemeId != ""
  }

  /** The answer's entries mapped and the unresolved ones dropped. */
  function MapRecommendations(schemes: seq<Scheme>, recs: seq<RawRecommendation>): (r: seq<SchemeRecommendation>)
    ensures forall i :: 0 <= i < |r| ==> 0.0 <= r[i].score <= 1.0 && r[i].schemeId != ""
  {
    Filter(MapAll(schemes, recs), HasId)
  }

  /** An entry survives iff its index names a scheme with a non-empty id. */
  predicate Resolves(schemes: seq<Scheme>, rec: RawRecommendation) {
    0 <= rec.schemeIndex < |schemes| && schemes[rec.schemeIndex].id != ""
  }

  lemma MapAllCons(schemes: seq<Scheme>, rec: RawRecommendation, recs: seq<RawRecommendation>)
    ensures MapAll(schemes, [rec] + recs) == [MapOne(schemes, rec)] + MapAll(schemes, recs)
  {
  }

  /** Mapping then dropping the unresolved entries is mapping the resolving
      entries, in their input order. */
  lemma {:induction false} MapThenDrop(schemes: seq<Scheme>, recs: seq<RawRecommendation>)
    ensures MapRecommendations(schemes, recs) == MapAll(schemes, Filter(recs, rec => Resolves(schemes, rec)))
  {
    if recs != [] {
      var resolves := rec => Resolves(schemes, rec);
      MapThenDrop(schemes, recs[1..]);
      var mapped := MapAll(schemes, recs);
      MapAllCons(schemes, recs[0], recs[1..]);
      assert recs == [recs[0]] + recs[1..];
      assert HasId(mapped[0]) == Resolves(schemes, recs[0]);
      var rest := Filter(recs[1..], resolves);
      if Resolves(schemes, recs[0]) {
        MapAllCons(schemes, recs[0], rest);
      }
    }
  }

  /** Each survivor takes its scheme's id, its clamped score, and its entry's
      reasoning and status unchanged. */
  lemma Survivors(schemes: seq<Scheme>, recs: seq<RawRecommendation>)
    ensures var kept := Filter(recs, rec => Resolves(schemes, rec));
      var out := MapRecommendations(schemes, recs);
      && |out| == |kept|
      && forall i :: 0 <= i < |out| ==>
           && Resolves(schemes, kept[i])
           && out[i].schemeId == schemes[kept[i].schemeIndex].id
           && out[i].score == Clamp(kept[i].score)
           && out[i].reasoning == kept[i].reasoning
           && out[i].eligibilityStatus == kept[i].eligibilityStatus
  {
    MapThenDrop(schemes, recs);
  }

  /** `generateSchemeRecommendations` after the service call: `None` stands for
      a failed call or an unparsable answer, which yields no recommendations. */
  function GenerateSchemeRecommendations(availableSchemes: seq<Scheme>, response: Option<seq<RawRecommendation>>)
    : (r: seq<SchemeRecommendation>)
    ensures response.None? ==> r == []
    ensures response.Some? ==> |r| <= |response.value|
    ensures response.Some? ==> r == MapRecommendations(availableSchemes, response.value)
  {
    if response.None? then [] else MapRecommendations(availableSchemes, response.value)
  }
}
