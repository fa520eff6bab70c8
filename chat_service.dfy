/** `ChatService`: the history window sent to the language model and the steps of answering a
    message.

    The embedding model, the cosine similarity of stored embeddings, the name generator, the web
    search service and the LLM chain are oracles; the chat repository is the given configuration
    and history, and its writes are the renaming and the reply returned. */
module Chat {
  import opened Wrappers
  import opened TextUtil
  import opened Ranking
  import opened Reranking

  const MaxContextTokens := 6000
  const MaxRecentMessages := 8
  const MaxSimilarMessages := 2
  const MaxMessageLength := 500
  const SimilarityThreshold: real := 0.3
  /** How many history entries survive a prompt over the token limit. */
  const KeptOnOverflow := 4

  /** A stored chat message; `embedding` is "" when missing. */
  datatype Message = Message(prompt: string, chatResponse: string, embedding: string)

  /** A (prompt, response) pair as handed to the chain. */
  type Turn = (string, string)

  /** The similarity of the user input to a stored embedding, or None when the stored embedding
      cannot be decoded or compared. */
  type Similarity = (string, string) -> Option<real>

  // ---------------------------------------------------------------- history window

  /** Both texts of a turn are within the message length limit. */
  predicate Bounded(t: Turn) {
    |t.0| <= MaxMessageLength && |t.1| <= MaxMessageLength
  }

  function Truncated(m: Message): (t: Turn)
    ensures Bounded(t)
  {
    (Take(m.prompt, MaxMessageLength), Take(m.chatResponse, MaxMessageLength))
  }

  /** The truncated turns of the messages, in order. */
  function TruncatedAll(ms: seq<Message>): (ts: seq<Turn>)
    ensures |ts| == |ms| && forall i :: 0 <= i < |ms| ==> ts[i] == Truncated(ms[i])
  {
    if ms == [] then [] else TruncatedAll(ms[..|ms| - 1]) + [Truncated(ms[|ms| - 1])]
  }

  /** An older message that qualifies: its truncated turn and its similarity. */
  datatype Candidate = Candidate(turn: Turn, similarity: real)

  predicate Qualifies(m: Message, userInput: string, similarity: Similarity) {
    m.embedding != "" && similarity(userInput, m.embedding).Some?
    && similarity(userInput, m.embedding).value > SimilarityThreshold
  }

  /** `c` is what message `m` contributes as a candidate. */
  predicate CandidateOf(c: Candidate, m: Message, userInput: string, similarity: Similarity) {
    Qualifies(m, userInput, similarity) && c == Candidate(Truncated(m), similarity(userInput, m.embedding).value)
  }

  /** The qualifying messages among `older`, in order. */
  function Candidates(older: seq<Message>, userInput: string, similarity: Similarity): seq<Candidate> {
    if older == [] then []
    else
      var m := older[|older| - 1];
      Candidates(older[..|older| - 1], userInput, similarity)
        + (if Qualifies(m, userInput, similarity) then [Candidate(Truncated(m), similarity(userInput, m.embedding).value)] else [])
  }

  /** The positions of the qualifying messages among `older`, in order. */
  function QualifyingPositions(older: seq<Message>, userInput: string, similarity: Similarity): seq<nat> {
    if older == [] then []
    else
      QualifyingPositions(older[..|older| - 1], userInput, similarity)
        + (if Qualifies(older[|older| - 1], userInput, similarity) then [|older| - 1] else [])
  }

  /** The candidates are exactly the qualifying messages, one each and in order: candidate i is
      what the message at the i-th qualifying position contributes, those positions increase, and
      every qualifying message's position is among them. */
  lemma {:induction false} CandidatesSpec(older: seq<Message>, userInput: string, similarity: Similarity)
    ensures var cs := Candidates(older, userInput, similarity);
      var src := QualifyingPositions(older, userInput, similarity);
      && |cs| == |src| <= |older|
      && (forall i :: 0 <= i < |cs| ==>
            && src[i] < |older|
            && CandidateOf(cs[i], older[src[i]], userInput, similarity)
            && cs[i].similarity > SimilarityThreshold
            && Bounded(cs[i].turn))
      && (forall i, i' :: 0 <= i < i' < |src| ==> src[i] < src[i'])
      && (forall j :: 0 <= j < |older| && Qualifies(older[j], userInput, similarity) ==> j in src)
  {
    if older != [] {
      var n := |older| - 1;
      var init := older[..n];
      CandidatesSpec(init, userInput, similarity);
      var cs, ds := Candidates(older, userInput, similarity), Candidates(init, userInput, similarity);
      var src, prev := QualifyingPositions(older, userInput, similarity), QualifyingPositions(init, userInput, similarity);
      forall i | 0 <= i < |cs|
        ensures src[i] < |older| && CandidateOf(cs[i], older[src[i]], userInput, similarity)
      {
        if i < |ds| {
          assert cs[i] == ds[i] && src[i] == prev[i];
          assert older[prev[i]] == init[prev[i]];
        }
      }
      forall j | 0 <= j < |older| && Qualifies(older[j], userInput, similarity)
        ensures j in src
      {
        if j < n {
          assert older[j] == init[j];
          assert j in prev;
        } else {
          assert src[|src| - 1] == j;
        }
      }
    }
  }

  /** Every candidate's turn is within the message length limit. */
  lemma CandidatesBounded(older: seq<Message>, userInput: string, similarity: Similarity)
    ensures forall i :: 0 <= i < |Candidates(older, userInput, similarity)| ==>
      Bounded(Candidates(older, userInput, similarity)[i].turn)
  {
    CandidatesSpec(older, userInput, similarity);
  }

  /** Every qualifying older message yields its candidate. */
  lemma CandidatesComplete(older: seq<Message>, userInput: string, similarity: Similarity, j: nat)
    requires j < |older| && Qualifies(older[j], userInput, similarity)
    ensures Candidate(Truncated(older[j]), similarity(userInput, older[j].embedding).value)
            in Candidates(older, userInput, similarity)
  {
    CandidatesSpec(older, userInput, similarity);
    var src := QualifyingPositions(older, userInput, similarity);
    var i :| 0 <= i < |src| && src[i] == j;
    assert Candidates(older, userInput, similarity)[i] == Candidate(Truncated(older[j]), similarity(userInput, older[j].embedding).value);
  }

  function Similarities(cs: seq<Candidate>): (keys: seq<real>)
    ensures |keys| == |cs| && forall i :: 0 <= i < |cs| ==> keys[i] == cs[i].similarity
  {
    seq(|cs|, i requires 0 <= i < |cs| => cs[i].similarity)
  }

  function Turns(cs: seq<Candidate>): (ts: seq<Turn>)
    ensures |ts| == |cs| && forall i :: 0 <= i < |cs| ==> ts[i] == cs[i].turn
  {
    seq(|cs|, i requires 0 <= i < |cs| => cs[i].turn)
  }

  /** `sorted(similarities, key=similarity, reverse=True)[:2]`: Python's sort is stable, so this is
      the same order as the reranker's. */
  function SimilarOrder(cs: seq<Candidate>): (order: seq<nat>)
    ensures InRange(order, |cs|)
  {
    RerankOrder(Similarities(cs), MaxSimilarMessages)
  }

  /** The turns appended after the window: at most two, by non-increasing similarity, none left out
      more similar than one taken. */
  lemma SimilarTurnsSpec(cs: seq<Candidate>)
    ensures var order := SimilarOrder(cs);
      && |order| == Min(MaxSimilarMessages, |cs|)
      && (forall i, j :: 0 <= i < j < |order| ==> order[i] != order[j])
      && (forall i, j :: 0 <= i < j < |order| ==> cs[order[i]].similarity >= cs[order[j]].similarity)
      && (forall p, i :: 0 <= p < |cs| && p !in order && 0 <= i < |order| ==> cs[p].similarity <= cs[order[i]].similarity)
  {
    var keys := Similarities(cs);
    var order := RerankOrder(keys, MaxSimilarMessages);
    assert |Limit(keys, MaxSimilarMessages)| == Min(MaxSimilarMessages, |cs|);
  }

  /** `_get_optimized_history`: the last eight messages, truncated, followed (when there are older
      messages and the user input could be embedded) by the two older messages most similar to it. */
  function OptimizedHistory(history: seq<Message>, userInput: string, queryEmbedded: bool, similarity: Similarity)
    : seq<Turn>
  {
    if history == [] then []
    else
      var window := TruncatedAll(Last(history, MaxRecentMessages));
      if |history| > MaxRecentMessages && queryEmbedded then
        var cs := Candidates(history[..|history| - MaxRecentMessages], userInput, similarity);
        window + Select(Turns(cs), SimilarOrder(cs))
      else window
  }

  /** The similar turns: at most two, each within the length limit. */
  lemma SelectedBounded(cs: seq<Candidate>)
    requires forall i :: 0 <= i < |cs| ==> Bounded(cs[i].turn)
    ensures var extra := Select(Turns(cs), SimilarOrder(cs));
      |extra| <= MaxSimilarMessages && forall i :: 0 <= i < |extra| ==> Bounded(extra[i])
  {
    SimilarTurnsSpec(cs);
    var extra := Select(Turns(cs), SimilarOrder(cs));
    forall i | 0 <= i < |extra| ensures Bounded(extra[i]) {
      assert extra[i] == cs[SimilarOrder(cs)[i]].turn;
    }
  }

  /** The window: the last `min(8, n)` messages, in order, truncated. */
  lemma WindowSpec(history: seq<Message>)
    ensures var window := TruncatedAll(Last(history, MaxRecentMessages));
      var w := Min(MaxRecentMessages, |history|);
      && |window| == w
      && (forall i :: 0 <= i < w ==> window[i] == Truncated(history[|history| - w + i]))
      && (forall i :: 0 <= i < w ==> Bounded(window[i]))
  {
    var recent := Last(history, MaxRecentMessages);
    var w := Min(MaxRecentMessages, |history|);
    forall i | 0 <= i < w ensures recent[i] == history[|history| - w + i] {
    }
  }

  /** The window comes first, in order and truncated; at most two similar turns follow and only
      when there are older messages; every text is at most 500 characters. */
  lemma OptimizedHistorySpec(history: seq<Message>, userInput: string, queryEmbedded: bool, similarity: Similarity)
    ensures var r := OptimizedHistory(history, userInput, queryEmbedded, similarity);
      var w := Min(MaxRecentMessages, |history|);
      && (history == [] ==> r == [])
      && w <= |r| <= MaxRecentMessages + MaxSimilarMessages
      && (forall i :: 0 <= i < w ==> r[i] == Truncated(history[|history| - w + i]))
      && (|history| <= MaxRecentMessages || !queryEmbedded ==> |r| == w)
      && (forall i :: 0 <= i < |r| ==> Bounded(r[i]))
  {
    if history != [] {
      var r := OptimizedHistory(history, userInput, queryEmbedded, similarity);
      var window := TruncatedAll(Last(history, MaxRecentMessages));
      WindowSpec(history);
      if |history| > MaxRecentMessages && queryEmbedded {
        var older := history[..|history| - MaxRecentMessages];
        var cs := Candidates(older, userInput, similarity);
        CandidatesBounded(older, userInput, similarity);
        var extra := Select(Turns(cs), SimilarOrder(cs));
        SelectedBounded(cs);
        assert r == window + extra;
        forall i | 0 <= i < |r| ensures Bounded(r[i]) {
          if i >= |window| { assert r[i] == extra[i - |window|]; }
        }
      }
    }
  }

  /** The first loop of `_get_optimized_history`: the truncated turns of the recent messages. */
  method TruncateAll(recent: seq<Message>) returns (formatted: seq<Turn>)
    ensures formatted == TruncatedAll(recent)
  {
    formatted := [];
    for i := 0 to |recent|
      invariant formatted == TruncatedAll(recent[..i])
    {
      assert recent[..i + 1][..i] == recent[..i];
      formatted := formatted + [Truncated(recent[i])];
    }
    assert recent[..|recent|] == recent;
  }

  /** The second loop: the older messages with a decodable embedding above the threshold. */
  method CollectCandidates(older: seq<Message>, userInput: string, similarity: Similarity)
    returns (similarities: seq<Candidate>)
    ensures similarities == Candidates(older, userInput, similarity)
  {
    similarities := [];
    for i := 0 to |older|
      invariant similarities == Candidates(older[..i], userInput, similarity)
    {
      var msg := older[i];
      assert older[..i + 1][..i] == older[..i];
      if msg.embedding != "" {
        var s := similarity(userInput, msg.embedding);
        if s.Some? && s.value > SimilarityThreshold {
          similarities := similarities + [Candidate(Truncated(msg), s.value)];
        }
      }
    }
    assert older[..|older|] == older;
  }

  /** The third loop: the turns of the selected candidates, in the selected order. */
  method AppendSelected(formatted: seq<Turn>, cs: seq<Candidate>, order: seq<nat>) returns (r: seq<Turn>)
    requires InRange(order, |cs|)
    ensures r == formatted + Select(Turns(cs), order)
  {
    r := formatted;
    for j := 0 to |order|
      invariant r == formatted + Select(Turns(cs), order[..j])
    {
      assert Select(Turns(cs), order[..j + 1]) == Select(Turns(cs), order[..j]) + [cs[order[j]].turn];
      r := r + [cs[order[j]].turn];
    }
    assert order[..|order|] == order;
  }

  /** `_get_optimized_history`. `queryEmbedded` says whether embedding the user input succeeded;
      when it raises, no similar messages are added. */
  method GetOptimizedHistory(history: seq<Message>, userInput: string, queryEmbedded: bool, similarity: Similarity)
    returns (formatted: seq<Turn>)
    ensures formatted == OptimizedHistory(history, userInput, queryEmbedded, similarity)
  {
    if history == [] {
      return [];
    }
    formatted := TruncateAll(Last(history, MaxRecentMessages));
    if |history| > MaxRecentMessages && queryEmbedded {
      var similarities := CollectCandidates(history[..|history| - MaxRecentMessages], userInput, similarity);
      var sortedResults := SimilarOrder(similarities);
      formatted := AppendSelected(formatted, similarities, sortedResults);
    }
  }

  // ---------------------------------------------------------------- prompt and tokens

  /** `_estimate_tokens`: a quarter of the length, rounded down. */
  function EstimateTokens(text: string): (n: nat)
    ensures 4 * n <= |text| < 4 * n + 4
  {
    |text| / 4
  }

  /** What makes `str.format` raise: a replacement field other than the two the prompt supplies,
      or a stray or unclosed brace. */
  datatype FormatError = UnknownField(name: string) | Malformed

  predicate BraceFree(s: string) {
    forall k :: 0 <= k < |s| ==> s[k] != '{' && s[k] != '}'
  }

  function Prefixed(p: string, r: Result<string, FormatError>): Result<string, FormatError> {
    if r.Ok? then Ok(p + r.value) else r
  }

  /** `template.format(chat_history=history, question=question)`: `{{` and `}}` stand for braces,
      `{chat_history}` and `{question}` are replaced, and anything else in braces raises. */
  function Format(t: string, history: string, question: string): Result<string, FormatError>
    decreases |t|
  {
    if t == [] then Ok([])
    else if t[0] == '{' && |t| > 1 && t[1] == '{' then Prefixed("{", Format(t[2..], history, question))
    else if t[0] == '{' then
      var close := Find(t, "}");
      if close < 0 then Err(Malformed)
      else
        var name := t[1..close];
        if !BraceFree(name) then Err(Malformed)
        else if name == "chat_history" then Prefixed(history, Format(t[close + 1..], history, question))
        else if name == "question" then Prefixed(question, Format(t[close + 1..], history, question))
        else Err(UnknownField(name))
    else if t[0] == '}' then
      if |t| > 1 && t[1] == '}' then Prefixed("}", Format(t[2..], history, question)) else Err(Malformed)
    else Prefixed([t[0]], Format(t[1..], history, question))
  }

  /** Text without braces is copied through formatting unchanged. */
  lemma {:induction false} FormatCopiesPlainText(p: string, t: string, history: string, question: string)
    requires BraceFree(p)
    ensures Format(p + t, history, question) == Prefixed(p, Format(t, history, question))
    decreases |p|
  {
    var rest := Format(t, history, question);
    if p == [] {
      assert p + t == t;
      if rest.Ok? {
        assert p + rest.value == rest.value;
      }
    } else {
      assert (p + t)[0] == p[0];
      assert (p + t)[1..] == p[1..] + t;
      assert p[0] != '{' && p[0] != '}';
      FormatCopiesPlainText(p[1..], t, history, question);
      if rest.Ok? {
        assert [p[0]] + (p[1..] + rest.value) == p + rest.value;
      }
    }
  }

  /** A replacement field with any other name, after plain text, makes formatting raise: spliced
      text such as web content that contains `{name}` fails the whole prompt. */
  lemma {:induction false} FormatRejectsOtherFields(p: string, name: string, t: string, history: string, question: string)
    requires BraceFree(p) && BraceFree(name)
    requires name != "chat_history" && name != "question"
    ensures Format(p + "{" + name + "}" + t, history, question) == Err(UnknownField(name))
  {
    var s := "{" + name + "}" + t;
    assert p + "{" + name + "}" + t == p + s;
    FormatCopiesPlainText(p, s, history, question);
    assert s[0] == '{';
    assert |s| > 1 && (s[1] == '{' ==> false) by {
      if name == [] { assert s[1] == '}'; } else { assert s[1] == name[0]; }
    }
    assert OccursAt(s, "}", |name| + 1);
    forall j | 0 <= j < |name| + 1 ensures !OccursAt(s, "}", j) {
      if j > 0 { assert s[j] == name[j - 1]; }
    }
    assert Find(s, "}") == |name| + 1;
    assert s[1..|name| + 1] == name;
  }

  /** The prompt's fixed wording (16 spaces of indentation in front of each continued line). */
  const Indent := "                "
  const HistoryIntro := "Previous conversation context: {chat_history}\n\n" + Indent
  const WebIntro := "**IMPORTANT: You MUST use the following web search results to answer the user's question. Do not ignore this information:**\n\n" + Indent
  const WebOutro := "\n\n" + Indent + "**Instructions: Base your response primarily on the web search results above. If the web results contain current information, use that instead of your training data.**\n\n" + Indent
  const QuestionTail := "User: {question}\n" + Indent + "Assistant:"

  /** The prompt template: the history line when there is history, the web block when web context
      is used, and the question. */
  function PromptTemplate(webContext: Option<string>, hasHistory: bool): string {
    (if hasHistory then HistoryIntro else "") + (if webContext.Some? then WebIntro + webContext.value + WebOutro else "")
      + QuestionTail
  }

  /** The template always ends with the question; it opens with the history line exactly when
      there is history, and holds the web context, between the fixed web wording, when it is used. */
  lemma PromptTemplateShape(webContext: Option<string>, hasHistory: bool)
    ensures var t := PromptTemplate(webContext, hasHistory);
      && EndsWith(t, QuestionTail)
      && (hasHistory ==> StartsWith(t, HistoryIntro))
      && (webContext.Some? ==> OccursAt(t, WebIntro + webContext.value + WebOutro, if hasHistory then |HistoryIntro| else 0))
  {
    var h := if hasHistory then HistoryIntro else "";
    var w := if webContext.Some? then WebIntro + webContext.value + WebOutro else "";
    var t := PromptTemplate(webContext, hasHistory);
    assert t == h + w + QuestionTail;
    assert t[|h + w|..] == QuestionTail;
    assert t[..|h|] == h;
    assert t[|h|..|h| + |w|] == w;
  }

  /** The history as the prompt shows it. */
  function HistoryText(formatted: seq<Turn>): string {
    Join("\n", seq(|formatted|, i requires 0 <= i < |formatted| => "User: " + formatted[i].0 + "\nAssistant: " + formatted[i].1))
  }

  /** `_get_total_context_tokens`, raising where the template does not format. */
  function TotalContextTokens(formatted: seq<Turn>, userInput: string, template: string): Result<nat, FormatError> {
    var full := Format(template, HistoryText(formatted), userInput);
    if full.Ok? then Ok(EstimateTokens(full.value)) else Err(full.error)
  }

  /** The history sent to the model: cut to its last four entries when the prompt is estimated
      above the token limit. */
  function Fitted(formatted: seq<Turn>, tokens: nat): (r: seq<Turn>)
    ensures tokens <= MaxContextTokens ==> r == formatted
    ensures tokens > MaxContextTokens ==> |r| == Min(KeptOnOverflow, |formatted|) && r == formatted[|formatted| - |r|..]
  {
    if tokens > MaxContextTokens then Last(formatted, KeptOnOverflow) else formatted
  }

  // ---------------------------------------------------------------- web search

  const Keywords := ["president", "current", "2024", "2025", "now", "today", "latest"]
  const QuerySuffix := " 2025 current latest"

  predicate AsksForCurrentEvents(userInput: string) {
    exists w :: w in Keywords && Contains(Lower(userInput), w)
  }

  /** The web search query: the input, with the suffix when it mentions a keyword. */
  function SearchQuery(userInput: string): (q: string)
    ensures AsksForCurrentEvents(userInput) ==> q == userInput + QuerySuffix
    ensures !AsksForCurrentEvents(userInput) ==> q == userInput
    ensures StartsWith(q, userInput)
  {
    assert (userInput + QuerySuffix)[..|userInput|] == userInput;
    if AsksForCurrentEvents(userInput) then userInput + QuerySuffix else userInput
  }

  /** The web search service: its context and source URLs, or None when it raises. */
  type WebSearcher = string -> Option<(string, seq<string>)>

  const Unavailable := "Web search temporarily unavailable: "
  const SearchErrorMark := "Web search encountered an error"

  /** `web_context` and `source_urls` after the optional web search. */
  function WebContextFor(enabled: bool, userInput: string, search: WebSearcher, failure: string): (r: (string, seq<string>))
    ensures !enabled ==> r == ("", [])
  {
    if !enabled then ("", [])
    else
      var reply := search(SearchQuery(userInput));
      if reply.Some? then reply.value else (Unavailable + failure, [])
  }

  /** Whether the web block goes into the prompt: search on, some context, and not the service's
      error text. */
  predicate UsesWebContext(enabled: bool, webContext: string) {
    enabled && webContext != "" && !Contains(webContext, SearchErrorMark)
  }

  /** The source list appended to the answer. */
  function WithSources(response: string, urls: seq<string>): (r: string)
    ensures urls == [] ==> r == response
    ensures StartsWith(r, response)
  {
    if urls == [] then response
    else
      var tail := "\n\n**Sources:**\n" + Join("\n", seq(|urls|, i requires 0 <= i < |urls| => "• " + urls[i]));
      assert (response + tail)[..|response|] == response;
      response + tail
  }

  /** The web search step of `process_message`. */
  method SearchWeb(enabled: bool, userInput: string, search: WebSearcher, failure: string)
    returns (webContext: string, sourceUrls: seq<string>)
    ensures (webContext, sourceUrls) == WebContextFor(enabled, userInput, search, failure)
  {
    webContext, sourceUrls := "", [];
    if enabled {
      var reply := search(SearchQuery(userInput));
      if reply.Some? {
        webContext, sourceUrls := reply.value.0, reply.value.1;
      } else {
        webContext := Unavailable + failure;
      }
    }
  }

  // ---------------------------------------------------------------- process_message

  datatype ChatConfig = ChatConfig(languageModel: string, modelType: string, apiKey: string)

  /** Why `process_message` raised. A prompt-format error comes after the first message has
      renamed the chat, so it carries the name already saved. */
  datatype ChatError = ChatNotFound | NotConfigured | PromptFormat(error: FormatError, newName: Option<string>)

  /** The chat's new name (first message only), the answer with its sources, and what is reported. */
  datatype ChatReply = ChatReply(newName: Option<string>, response: string, responseLength: nat,
                                 webSearchEnabled: bool, sourceUrls: seq<string>)

  type Namer = (string, string, string, string) -> string
  type ChatChain = (string, seq<Turn>, string) -> string

  /** The name a first message gives the chat; None for a later message. */
  function FirstMessageName(history: seq<Message>, c: ChatConfig, userInput: string, generateName: Namer)
    : (name: Option<string>)
    ensures name.Some? <==> history == []
    ensures name.Some? ==> name.value == generateName(c.modelType, c.languageModel, userInput, c.apiKey)
  {
    if |history| == 0 then Some(generateName(c.modelType, c.languageModel, userInput, c.apiKey)) else None
  }

  predicate Pending(c: ChatConfig) {
    c.languageModel == "pending" || c.apiKey == "pending"
  }

  /** `process_message`. A missing chat and an unconfigured model raise first. A first message
      renames the chat, and the new name is reported whether or not a later step raises. The prompt is chosen by the web context and the history, the history is
      cut when the prompt is estimated over the token limit, and with web search on the answer
      ends with its sources. */
  method ProcessMessage(config: Option<ChatConfig>, history: seq<Message>, userInput: string, webSearchEnabled: bool,
                        queryEmbedded: bool, similarity: Similarity, generateName: Namer, search: WebSearcher,
                        searchFailure: string, chain: ChatChain) returns (r: Result<ChatReply, ChatError>)
    ensures config.None? <==> r == Err(ChatNotFound)
    ensures r == Err(NotConfigured) <==> config.Some? && Pending(config.value)
    ensures config.Some? && !Pending(config.value) ==>
      var c := config.value;
      var formatted := OptimizedHistory(history, userInput, queryEmbedded, similarity);
      var web := WebContextFor(webSearchEnabled, userInput, search, searchFailure);
      var template := PromptTemplate(if UsesWebContext(webSearchEnabled, web.0) then Some(web.0) else None, formatted != []);
      var tokens := TotalContextTokens(formatted, userInput, template);
      && (r.Err? <==> tokens.Err?)
      && (r.Err? ==> r.error == PromptFormat(tokens.error, FirstMessageName(history, c, userInput, generateName)))
      && (r.Ok? ==>
            var urls := if webSearchEnabled then web.1 else [];
            && r.value.newName == FirstMessageName(history, c, userInput, generateName)
            && r.value.response == WithSources(chain(template, Fitted(formatted, tokens.value), userInput), urls)
            && r.value.responseLength == |r.value.response|
            && r.value.webSearchEnabled == webSearchEnabled
            && r.value.sourceUrls == urls)
  {
    if config.None? {
      return Err(ChatNotFound);
    }
    var c := config.value;
    if c.languageModel == "pending" || c.apiKey == "pending" {
      return Err(NotConfigured);
    }
    var newName := FirstMessageName(history, c, userInput, generateName);
    var formattedHistory := GetOptimizedHistory(history, userInput, queryEmbedded, similarity);
    var webContext, sourceUrls := SearchWeb(webSearchEnabled, userInput, search, searchFailure);
    var template := PromptTemplate(if UsesWebContext(webSearchEnabled, webContext) then Some(webContext) else None,
                                   formattedHistory != []);
    var estimated := TotalContextTokens(formattedHistory, userInput, template);
    if estimated.Err? {
      return Err(PromptFormat(estimated.error, newName));
    }
    if estimated.value > MaxContextTokens {
      formattedHistory := Last(formattedHistory, KeptOnOverflow);
    }
    var response := chain(template, formattedHistory, userInput);
    if webSearchEnabled && sourceUrls != [] {
      response := WithSources(response, sourceUrls);
    }
    return Ok(ChatReply(newName, response, |response|, webSearchEnabled, if webSearchEnabled then sourceUrls else []));
  }
}
