/** `PromptGenerationService`: writes the prompt template of a RAG project, either by asking the
    project's language model (Groq or Ollama) or from a fixed default.

    The providers are oracles: each answers the message content for the user message and the model
    name (and, for Groq, the API key), or None when the call raises. Both are sent the same fixed
    instruction text as the system message, which the oracles stand for. */
module PromptGeneration {
  import opened Wrappers
  import opened TextUtil

  const ThinkClose := "</think>"

  /** The default prompt's pieces. */
  const Base := "You are a helpful AI assistant that answers questions based on the provided documentation."
  const GeneralPurpose := "A general purpose AI assistant"
  const PurposeIntro := " Your purpose is to help with: "
  const DocIntro := " The documentation covers: "
  const Guidelines := "\n" + "            Guidelines:\n"
    + "            - Provide clear, accurate answers based on the documentation\n"
    + "            - If information is not in the documentation, say \"I couldn't find that information in the provided documentation\"\n"
    + "            - Stay focused on the content and purpose of the uploaded materials\n"
    + "            - Provide helpful examples when appropriate\n"
    + "            "

  /** `_clean_response`: when the reply holds a closing think tag, the text after the first one
      (the regular expression's `\s*` takes the leading blanks, `strip()` the rest); otherwise the
      reply unchanged. */
  function CleanResponse(response: string): (r: string)
    ensures !Contains(response, ThinkClose) ==> r == response
    ensures Contains(response, ThinkClose) ==> exists i :: FirstTagAt(response, i) && r == Strip(response[i + |ThinkClose|..])
  {
    var i := Find(response, ThinkClose);
    if i < 0 then response
    else
      var rest := response[i + |ThinkClose|..];
      LStripTwice(rest);
      assert FirstTagAt(response, i);
      Strip(LStrip(rest))
  }

  /** The first closing think tag of `response` is at `i`. */
  predicate FirstTagAt(response: string, i: int) {
    OccursAt(response, ThinkClose, i) && forall j :: 0 <= j < i ==> !OccursAt(response, ThinkClose, j)
  }

  /** A reply holding the tag is cleaned to a text without surrounding blanks. */
  lemma CleanedIsTrimmed(response: string)
    requires Contains(response, ThinkClose)
    ensures var r := CleanResponse(response);
      r == [] || (!IsSpace(r[0]) && !IsSpace(r[|r| - 1]))
  {
    var i := Find(response, ThinkClose);
    StripSpec(LStrip(response[i + |ThinkClose|..]));
  }

  /** The purpose clause is left out for an empty purpose and for the generic one. */
  predicate HasPurpose(appPurpose: string) {
    appPurpose != "" && appPurpose != GeneralPurpose
  }

  /** An optional clause: its opening, the value and a full stop. */
  function Clause(open: string, v: string, has: bool): string {
    if has then open + v + "." else ""
  }

  /** `_get_default_prompt`. */
  function DefaultPrompt(appPurpose: string, docDetails: string): string {
    Base + Clause(PurposeIntro, appPurpose, HasPurpose(appPurpose)) + Clause(DocIntro, docDetails, docDetails != "") + Guidelines
  }

  /** `sub` occurs in `x + y` at `|x| + k` exactly when it occurs in `y` at `k`. */
  lemma ShiftOccurs(x: string, y: string, sub: string, k: nat)
    ensures OccursAt(x + y, sub, |x| + k) <==> OccursAt(y, sub, k)
  {
    if k + |sub| <= |y| {
      assert (x + y)[|x| + k..|x| + k + |sub|] == y[k..k + |sub|];
    }
  }

  /** A text starts with each of its own prefixes. */
  lemma PrefixOccurs(a: string, rest: string, sub: string)
    requires OccursAt(a, sub, 0)
    ensures OccursAt(a + rest, sub, 0)
  {
    assert (a + rest)[..|sub|] == a[..|sub|];
  }

  /** Two texts that differ at a position both have do not start alike. */
  lemma DifferAt(s: string, sub: string, i: nat)
    requires i < |s| && i < |sub| && s[i] != sub[i]
    ensures !OccursAt(s, sub, 0)
  {
  }

  /** What follows the base sentence: an optional clause opened by `open`, then `rest`. The
      opening occurs at its start exactly when the clause is there, provided that `rest` starts
      differently from the opening at position `i`. */
  lemma {:induction false} ClauseAt(open: string, v: string, has: bool, rest: string, i: nat)
    requires i < |open| && i < |rest| && rest[i] != open[i]
    ensures var c := Clause(open, v, has);
      && (OccursAt(c + rest, open, 0) <==> has)
      && (has ==> OccursAt(c + rest, open + v + ".", 0))
  {
    var c := Clause(open, v, has);
    if has {
      assert (open + v + ".")[..|open|] == open;
      PrefixOccurs(c, rest, open);
      PrefixOccurs(c, rest, c);
    } else {
      assert c + rest == rest;
      DifferAt(rest, open, i);
    }
  }

  /** A text made of a base, two optional clauses and a tail starts with the base and ends with
      the tail. */
  lemma LayoutEnds(b: string, p: string, d: string, g: string)
    ensures StartsWith(b + p + d + g, b) && EndsWith(b + p + d + g, g)
  {
    var r := b + p + d + g;
    assert r[..|b|] == b;
    assert r[|r| - |g|..] == g;
  }

  /** In such a text the first clause is there exactly when its opening follows the base, when the
      clause openings share their first character but not their second and the tail starts with
      another character. */
  lemma {:induction false} FirstClauseAt(b: string, pi: string, pv: string, hp: bool, di: string, dv: string, hd: bool, g: string)
    requires |pi| >= 2 && |di| >= 2 && |g| >= 2 && pi[0] == di[0] && pi[1] != di[1] && g[0] != pi[0]
    ensures var p, d := Clause(pi, pv, hp), Clause(di, dv, hd);
      var r := b + p + d + g;
      && (OccursAt(r, pi, |b|) <==> hp)
      && (hp ==> OccursAt(r, pi + pv + ".", |b|))
  {
    var p, d := Clause(pi, pv, hp), Clause(di, dv, hd);
    assert b + p + d + g == b + (p + (d + g));
    var i := if hd then 1 else 0;
    assert (d + g)[i] != pi[i] by {
      if hd { assert (d + g)[1] == di[1]; }
    }
    ClauseAt(pi, pv, hp, d + g, i);
    ShiftOccurs(b, p + (d + g), pi, 0);
    ShiftOccurs(b, p + (d + g), pi + pv + ".", 0);
  }

  /** ... and the second clause is there exactly when its opening follows the first. */
  lemma {:induction false} SecondClauseAt(b: string, p: string, di: string, dv: string, hd: bool, g: string)
    requires |di| >= 1 && |g| >= 1 && g[0] != di[0]
    ensures var d := Clause(di, dv, hd);
      var r := b + p + d + g;
      && (OccursAt(r, di, |b| + |p|) <==> hd)
      && (hd ==> OccursAt(r, di + dv + ".", |b| + |p|))
  {
    var d := Clause(di, dv, hd);
    assert b + p + d + g == (b + p) + (d + g);
    ClauseAt(di, dv, hd, g, 0);
    ShiftOccurs(b + p, d + g, di, 0);
    ShiftOccurs(b + p, d + g, di + dv + ".", 0);
  }

  /** The first characters that tell the pieces apart. */
  lemma PieceFacts()
    ensures |Guidelines| >= 2 && Guidelines[0] == '\n'
    ensures |PurposeIntro| >= 2 && |DocIntro| >= 2
    ensures PurposeIntro[0] == DocIntro[0] == ' ' && PurposeIntro[1] == 'Y' && DocIntro[1] == 'T'
  {
  }

  /** The default prompt always starts with the base sentence and ends with the guidelines. */
  lemma DefaultPromptEnds(appPurpose: string, docDetails: string)
    ensures StartsWith(DefaultPrompt(appPurpose, docDetails), Base)
    ensures EndsWith(DefaultPrompt(appPurpose, docDetails), Guidelines)
  {
    LayoutEnds(Base, Clause(PurposeIntro, appPurpose, HasPurpose(appPurpose)), Clause(DocIntro, docDetails, docDetails != ""), Guidelines);
  }

  /** Right after the base sentence comes the purpose clause exactly when there is a purpose other
      than the generic one. */
  lemma DefaultPromptPurpose(appPurpose: string, docDetails: string)
    ensures OccursAt(DefaultPrompt(appPurpose, docDetails), PurposeIntro, |Base|) <==> HasPurpose(appPurpose)
    ensures HasPurpose(appPurpose) ==> OccursAt(DefaultPrompt(appPurpose, docDetails), PurposeIntro + appPurpose + ".", |Base|)
  {
    PieceFacts();
    FirstClauseAt(Base, PurposeIntro, appPurpose, HasPurpose(appPurpose), DocIntro, docDetails, docDetails != "", Guidelines);
  }

  /** After the purpose clause (if any) comes the documentation clause exactly when there are
      documentation details. */
  lemma DefaultPromptDocs(appPurpose: string, docDetails: string)
    ensures var at := |Base| + |Clause(PurposeIntro, appPurpose, HasPurpose(appPurpose))|;
      && (OccursAt(DefaultPrompt(appPurpose, docDetails), DocIntro, at) <==> docDetails != "")
      && (docDetails != "" ==> OccursAt(DefaultPrompt(appPurpose, docDetails), DocIntro + docDetails + ".", at))
  {
    PieceFacts();
    SecondClauseAt(Base, Clause(PurposeIntro, appPurpose, HasPurpose(appPurpose)), DocIntro, docDetails, docDetails != "", Guidelines);
  }

  /** Empty clauses leave the base followed by the tail. */
  lemma {:induction false} NoClauses(b: string, pi: string, di: string, g: string)
    ensures b + Clause(pi, "", false) + Clause(di, "", false) + g == b + g
  {
    assert Clause(pi, "", false) == [] && Clause(di, "", false) == [];
    assert b + [] + [] == b;
  }

  /** Without a purpose or documentation details the default prompt is the base sentence and the
      guidelines. */
  lemma PlainDefaultPrompt()
    ensures DefaultPrompt("", "") == Base + Guidelines
  {
    NoClauses(Base, PurposeIntro, DocIntro, Guidelines);
  }

  /** The user message sent to the provider. */
  function UserMessage(appPurpose: string, docDetails: string): string {
    "write a prompt template for RAG Application good fit for this purpose: " + appPurpose
      + ", and it's documentation details: " + docDetails
  }

  /** Groq's chat completion for (user message, model name, API key); None when it raises. */
  type GroqChat = (string, string, string) -> Option<string>

  /** Ollama's chat for (user message, model name); None when it raises. */
  type OllamaChat = (string, string) -> Option<string>

  /** `_generate_with_groq` and `_generate_with_ollama` once the provider has answered: the
      stripped, cleaned reply, or the plain default prompt (without the project's purpose or
      documentation) when the call raised. A generated prompt has no blanks at either end. */
  function FromProvider(reply: Option<string>): string {
    if reply.None? then DefaultPrompt("", "") else CleanResponse(Strip(reply.value))
  }

  /** A failed call gives the base sentence and the guidelines only, without the project's
      purpose or documentation. */
  lemma FromProviderFallback()
    ensures FromProvider(None) == Base + Guidelines
  {
    PlainDefaultPrompt();
  }

  /** A reply gives a text without surrounding blanks: the stripped reply itself when it holds no
      think tag. */
  lemma FromProviderTrimmed(reply: string)
    ensures var r := FromProvider(Some(reply));
      && (!Contains(Strip(reply), ThinkClose) ==> r == Strip(reply))
      && (r == [] || (!IsSpace(r[0]) && !IsSpace(r[|r| - 1])))
  {
    if Contains(Strip(reply), ThinkClose) {
      CleanedIsTrimmed(Strip(reply));
    } else {
      StripSpec(reply);
    }
  }

  /** `generate_prompt`: Groq and Ollama are asked for the template; GitHub models and any other
      model type get the default prompt for the project's purpose and documentation. */
  function GeneratePrompt(modelType: string, modelName: string, appPurpose: string, docDetails: string,
                          apiKey: string, groq: GroqChat, ollama: OllamaChat): (r: string)
    ensures modelType == "GROQ" ==> r == FromProvider(groq(UserMessage(appPurpose, docDetails), modelName, apiKey))
    ensures modelType == "Ollama" ==> r == FromProvider(ollama(UserMessage(appPurpose, docDetails), modelName))
    ensures modelType != "GROQ" && modelType != "Ollama" ==> r == DefaultPrompt(appPurpose, docDetails)
  {
    var message := UserMessage(appPurpose, docDetails);
    if modelType == "GROQ" then FromProvider(groq(message, modelName, apiKey))
    else if modelType == "Ollama" then FromProvider(ollama(message, modelName))
    else if modelType == "GitHub" then DefaultPrompt(appPurpose, docDetails)
    else DefaultPrompt(appPurpose, docDetails)
  }

  /** Whatever the model type and whatever a provider answers, the template is a default prompt
      (the project's, or the plain one when the provider failed) or a text without surrounding
      blanks. */
  lemma {:induction false} GeneratedPromptForms(modelType: string, modelName: string, appPurpose: string, docDetails: string,
                                                apiKey: string, groq: GroqChat, ollama: OllamaChat)
    ensures var r := GeneratePrompt(modelType, modelName, appPurpose, docDetails, apiKey, groq, ollama);
      || r == DefaultPrompt(appPurpose, docDetails)
      || r == DefaultPrompt("", "")
      || r == [] || (!IsSpace(r[0]) && !IsSpace(r[|r| - 1]))
  {
    var message := UserMessage(appPurpose, docDetails);
    var reply := if modelType == "GROQ" then groq(message, modelName, apiKey) else ollama(message, modelName);
    if (modelType == "GROQ" || modelType == "Ollama") && reply.Some? {
      FromProviderTrimmed(reply.value);
    }
  }
}
