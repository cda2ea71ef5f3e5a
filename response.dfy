/** The response generator: post-processing of the model's reply, the
    templated fallback text and the knowledge context handed to the model. */
module Response {
  import opened Wrappers
  import opened Strings
  import opened Models

  const Newline: string := "\n"

  /** A backslash followed by the letter n, as it appears in some model replies. */
  const EscapedNewline: string := "\\n"

  const TripleNewline: string := "\n\n\n"

  const NoKnowledgeText: string := "No specific knowledge found for this request."

  const ContactSentence: string :=
    "For immediate assistance, please contact IT support at extension 1234 or email support@company.com."

  // ---------------------------------------------------------------------------
  // `_clean_response_formatting`

  /** The markdown removals in the order they are applied: `**`, `##`, `###`, then `*`. */
  function RemoveMarkdown(s: string): (r: string)
    ensures '*' !in r
  {
    var noBold := ReplaceAll(s, "**", "");
    var noH2 := ReplaceAll(noBold, "##", "");
    var noH3 := ReplaceAll(noH2, "###", "");
    RemoveCharLeavesNone(noH3, '*');
    ReplaceAll(noH3, "*", "")
  }

  /** One turn of the line loop: a line that is not blank is kept stripped; a
      blank line becomes one empty entry, and only right after a non-empty one. */
  function KeepLine(kept: seq<string>, line: string): seq<string> {
    var stripped := Strip(line);
    if stripped != "" then kept + [stripped]
    else if kept != [] && kept[|kept| - 1] != "" then kept + [""]
    else kept
  }

  /** The line loop over all lines. */
  function CleanLines(lines: seq<string>): seq<string>
    decreases |lines|
  {
    if lines == [] then []
    else KeepLine(CleanLines(lines[..|lines| - 1]), lines[|lines| - 1])
  }

  /** The shape the line loop guarantees: every entry is stripped, the first
      entry is not empty and no two neighbouring entries are both empty. */
  predicate WellSpaced(kept: seq<string>) {
    && (kept != [] ==> kept[0] != "")
    && (forall k :: 0 <= k < |kept| - 1 ==> kept[k] != "" || kept[k + 1] != "")
    && (forall k :: 0 <= k < |kept| ==> Stripped(kept[k]))
  }

  /** One turn of the line loop keeps the shape. */
  lemma KeepLineWellSpaced(kept: seq<string>, line: string)
    requires WellSpaced(kept)
    ensures WellSpaced(KeepLine(kept, line))
  {
    var stripped := Strip(line);
    var _, _ := StripSlice(line);
    if stripped != "" {
      var r := kept + [stripped];
      assert forall k :: 0 <= k < |kept| ==> r[k] == kept[k];
    } else if kept != [] && kept[|kept| - 1] != "" {
      var r := kept + [""];
      assert forall k :: 0 <= k < |kept| ==> r[k] == kept[k];
    }
  }

  lemma {:induction false} CleanLinesWellSpaced(lines: seq<string>)
    ensures WellSpaced(CleanLines(lines))
    decreases |lines|
  {
    if lines != [] {
      CleanLinesWellSpaced(lines[..|lines| - 1]);
      KeepLineWellSpaced(CleanLines(lines[..|lines| - 1]), lines[|lines| - 1]);
    }
  }

  /** A character absent from every line is absent from every kept entry. */
  lemma {:induction false} CleanLinesKeepsAbsent(lines: seq<string>, c: char)
    requires forall k :: 0 <= k < |lines| ==> c !in lines[k]
    ensures forall k :: 0 <= k < |CleanLines(lines)| ==> c !in CleanLines(lines)[k]
    decreases |lines|
  {
    if lines != [] {
      CleanLinesKeepsAbsent(lines[..|lines| - 1], c);
      StripKeepsAbsent(lines[|lines| - 1], c);
    }
  }

  /** The `while` loop: replace "\n\n\n" by "\n\n" until none is left. Each
      round shortens the text, so the loop ends. */
  function CollapseBlankLines(s: string): (r: string)
    ensures !Contains(r, TripleNewline)
    decreases |s|
  {
    if Contains(s, TripleNewline) then
      ReplaceAllShrinks(s, TripleNewline, "\n\n");
      CollapseBlankLines(ReplaceAll(s, TripleNewline, "\n\n"))
    else s
  }

  lemma {:induction false} CollapseKeepsAbsent(s: string, c: char)
    requires c !in s && c != '\n'
    ensures c !in CollapseBlankLines(s)
    decreases |s|
  {
    if Contains(s, TripleNewline) {
      ReplaceAllShrinks(s, TripleNewline, "\n\n");
      ReplaceAllKeepsAbsent(s, TripleNewline, "\n\n", c);
      CollapseKeepsAbsent(ReplaceAll(s, TripleNewline, "\n\n"), c);
    }
  }

  /** `_clean_response_formatting` as a value. */
  function Clean(s: string): string {
    if s == "" then ""
    else
      var text := RemoveMarkdown(ReplaceAll(s, EscapedNewline, Newline));
      var joined := Join(Newline, CleanLines(Split(text, Newline)));
      Strip(ReplaceAll(CollapseBlankLines(joined), EscapedNewline, Newline))
  }

  /** The cleaned text never holds an asterisk. */
  lemma CleanHasNoAsterisk(s: string)
    ensures '*' !in Clean(s)
  {
    if s != "" {
      var text := RemoveMarkdown(ReplaceAll(s, EscapedNewline, Newline));
      var lines := Split(text, Newline);
      SplitKeepsAbsent(text, Newline, '*');
      CleanLinesKeepsAbsent(lines, '*');
      var joined := Join(Newline, CleanLines(lines));
      JoinKeepsAbsent(Newline, CleanLines(lines), '*');
      CollapseKeepsAbsent(joined, '*');
      ReplaceAllKeepsAbsent(CollapseBlankLines(joined), EscapedNewline, Newline, '*');
      StripKeepsAbsent(ReplaceAll(CollapseBlankLines(joined), EscapedNewline, Newline), '*');
    }
  }

  /** The cleaned text has no whitespace at either end. */
  lemma CleanIsStripped(s: string)
    ensures Stripped(Clean(s))
  {
    if s != "" {
      var text := RemoveMarkdown(ReplaceAll(s, EscapedNewline, Newline));
      var joined := Join(Newline, CleanLines(Split(text, Newline)));
      var _, _ := StripSlice(ReplaceAll(CollapseBlankLines(joined), EscapedNewline, Newline));
    }
  }

  /** The `while` loop's guarantee does not survive the replacement after it:
      three escaped newlines hold no run of real newlines, pass the loop
      unchanged and then become one. */
  lemma ReplacementAfterCollapseCanCreateBlankRun()
    ensures var t := EscapedNewline + EscapedNewline + EscapedNewline;
      && CollapseBlankLines(t) == t
      && ReplaceAll(t, EscapedNewline, Newline) == TripleNewline
  {
    var t := EscapedNewline + EscapedNewline + EscapedNewline;
    assert '\n' !in t;
    AbsentFirstChar(t, TripleNewline);
    assert t == EscapedNewline + (EscapedNewline + (EscapedNewline + ""));
    ReplaceAllAtPattern("", EscapedNewline, Newline);
    ReplaceAllAtPattern(EscapedNewline + "", EscapedNewline, Newline);
    ReplaceAllAtPattern(EscapedNewline + (EscapedNewline + ""), EscapedNewline, Newline);
  }

  /** The line loop of `_clean_response_formatting`: each line stripped, and
      a blank line kept only after a line that is not blank. */
  method CleanLinesLoop(lines: seq<string>) returns (cleanedLines: seq<string>)
    ensures cleanedLines == CleanLines(lines)
  {
    cleanedLines := [];
    for i := 0 to |lines|
      invariant cleanedLines == CleanLines(lines[..i])
    {
      assert lines[..i + 1][..i] == lines[..i];
      var line := Strip(lines[i]);
      if line != "" {
        cleanedLines := cleanedLines + [line];
      } else if cleanedLines != [] && cleanedLines[|cleanedLines| - 1] != "" {
        cleanedLines := cleanedLines + [""];
      }
    }
    assert lines[..|lines|] == lines;
  }

  /** The `while` loop of `_clean_response_formatting`: three newlines become
      two until none are left. */
  method CollapseLoop(joined: string) returns (cleaned: string)
    ensures cleaned == CollapseBlankLines(joined)
  {
    cleaned := joined;
    while Contains(cleaned, TripleNewline)
      invariant CollapseBlankLines(cleaned) == CollapseBlankLines(joined)
      decreases |cleaned|
    {
      ReplaceAllShrinks(cleaned, TripleNewline, "\n\n");
      cleaned := ReplaceAll(cleaned, TripleNewline, "\n\n");
    }
  }

  /** `_clean_response_formatting`, with its line loop and its `while` loop. */
  method CleanResponseFormatting(response: string) returns (r: string)
    ensures r == Clean(response)
    ensures response == "" ==> r == ""
    ensures '*' !in r && Stripped(r)
  {
    CleanHasNoAsterisk(response);
    CleanIsStripped(response);
    if response == "" {
      return "";
    }
    var text := ReplaceAll(response, EscapedNewline, Newline);
    text := ReplaceAll(text, "**", "");
    text := ReplaceAll(text, "##", "");
    text := ReplaceAll(text, "###", "");
    text := ReplaceAll(text, "*", "");
    assert text == RemoveMarkdown(ReplaceAll(response, EscapedNewline, Newline));

    var lines := Split(text, Newline);
    var cleanedLines := CleanLinesLoop(lines);
    var cleaned := Join(Newline, cleanedLines);
    cleaned := CollapseLoop(cleaned);
    cleaned := ReplaceAll(cleaned, EscapedNewline, Newline);
    r := Strip(cleaned);
  }

  // ---------------------------------------------------------------------------
  // `_generate_response` and `generate_response`

  /** `_generate_response`: the model's reply stripped and cleaned; `None` when
      the call raises. */
  function GeneratedText(reply: Option<string>): (r: Option<string>)
    ensures r.Some? <==> reply.Some?
    ensures r.Some? ==> '*' !in r.value && Stripped(r.value)
  {
    match reply
    case None => None
    case Some(raw) =>
      CleanHasNoAsterisk(Strip(raw));
      CleanIsStripped(Strip(raw));
      Some(Clean(Strip(raw)))
  }

  const FallbackGreeting: string :=
    "Thank you for contacting IT support regarding your "

  const FallbackIssue: string := " issue.\n\n"

  const FallbackApology: string :=
    "I apologize, but I'm experiencing technical difficulties generating a detailed response right now.\n\n"

  const TroubleshootingAdvice: string :=
    "Please try the following general troubleshooting steps or contact IT support directly.\n\n"

  const EscalationLead: string := "Your request has been classified as "

  /** The rest of the escalation paragraph, split where it says "escalated". */
  const EscalationTail: string :=
    " and will be " + "escalated" + " to our technical team. You can expect a response within 2-4 hours.\n\n"

  /** The paragraph that depends on the escalation decision. */
  function FallbackAdvice(escalation: EscalationDecision): string {
    if escalation.shouldEscalate then
      EscalationLead + escalation.urgencyLevel.Name() + " priority" + EscalationTail
    else
      TroubleshootingAdvice
  }

  /** The category's value with underscores turned into spaces. */
  function CategoryText(category: RequestCategory): string {
    ReplaceChar(category.Value(), '_', ' ')
  }

  /** `_generate_fallback_response` */
  function FallbackResponse(category: RequestCategory, escalation: EscalationDecision): string {
    FallbackGreeting + CategoryText(category) + FallbackIssue
      + FallbackApology + FallbackAdvice(escalation) + ContactSentence
  }

  /** The fallback text names the category and ends with the contact sentence. */
  lemma FallbackNamesCategory(category: RequestCategory, escalation: EscalationDecision)
    ensures Contains(FallbackResponse(category, escalation), CategoryText(category))
    ensures Contains(FallbackResponse(category, escalation), ContactSentence)
    ensures var r := FallbackResponse(category, escalation);
      |r| >= |ContactSentence| && r[|r| - |ContactSentence|..] == ContactSentence
  {
    var name := CategoryText(category);
    ContainsSelf(name);
    ContainsAppend(FallbackGreeting, name, name);
    var rest := FallbackIssue + FallbackApology + FallbackAdvice(escalation) + ContactSentence;
    ContainsAppend(FallbackGreeting + name, FallbackIssue, name);
    ContainsAppend(FallbackGreeting + name + FallbackIssue, FallbackApology, name);
    ContainsAppend(FallbackGreeting + name + FallbackIssue + FallbackApology, FallbackAdvice(escalation), name);
    var body := FallbackGreeting + name + FallbackIssue + FallbackApology + FallbackAdvice(escalation);
    ContainsAppend(body, ContactSentence, name);
    ContainsSelf(ContactSentence);
    ContainsAppend(body, ContactSentence, ContactSentence);
    assert FallbackResponse(category, escalation) == body + ContactSentence;
    assert (body + ContactSentence)[|body|..] == ContactSentence;
  }

  /** An escalated fallback announces the escalation and its urgency. */
  lemma FallbackAnnouncesEscalation(category: RequestCategory, escalation: EscalationDecision)
    requires escalation.shouldEscalate
    ensures Contains(FallbackResponse(category, escalation), "escalated")
    ensures Contains(FallbackResponse(category, escalation), escalation.urgencyLevel.Name() + " priority")
  {
    var u := escalation.urgencyLevel.Name() + " priority";
    ContainsSelf(u);
    ContainsAppend(EscalationLead, u, u);
    assert EscalationLead + escalation.urgencyLevel.Name() + " priority" == EscalationLead + u;
    ContainsAppend(EscalationLead + u, EscalationTail, u);
    ContainsSelf("escalated");
    ContainsAppend(" and will be ", "escalated", "escalated");
    ContainsAppend(" and will be " + "escalated",
      " to our technical team. You can expect a response within 2-4 hours.\n\n", "escalated");
    ContainsAppend(EscalationLead + u, EscalationTail, "escalated");
    var advice := FallbackAdvice(escalation);
    var head := FallbackGreeting + CategoryText(category) + FallbackIssue + FallbackApology;
    ContainsAppend(head, advice, "escalated");
    ContainsAppend(head, advice, u);
    ContainsAppend(head + advice, ContactSentence, "escalated");
    ContainsAppend(head + advice, ContactSentence, u);
  }

  /** The advice paragraph is the troubleshooting text exactly when the
      request is not escalated. */
  lemma FallbackAdviceIff(escalation: EscalationDecision)
    ensures FallbackAdvice(escalation) == TroubleshootingAdvice <==> !escalation.shouldEscalate
  {
    if escalation.shouldEscalate {
      assert |FallbackAdvice(escalation)| > |TroubleshootingAdvice|;
    }
  }

  // ---------------------------------------------------------------------------
  // `_build_context`

  /** The context entry for the `index`-th result, numbered from 1. */
  function ContextEntry(index: nat, result: RetrievalResult): string {
    "Knowledge " + NatToString(index) + " (from " + result.source + "):\n" + result.content
  }

  /** What the model is told about retrieved knowledge. */
  function Context(results: seq<RetrievalResult>): string {
    if results == [] then NoKnowledgeText
    else Join("\n\n", seq(|results|, k requires 0 <= k < |results| => ContextEntry(k + 1, results[k])))
  }

  /** `_build_context`, with its loop over the numbered results. */
  method BuildContext(results: seq<RetrievalResult>) returns (context: string)
    ensures context == Context(results)
    ensures results == [] ==> context == NoKnowledgeText
  {
    if results == [] {
      return NoKnowledgeText;
    }
    var parts: seq<string> := [];
    for i := 0 to |results|
      invariant |parts| == i
      invariant forall k :: 0 <= k < i ==> parts[k] == ContextEntry(k + 1, results[k])
    {
      parts := parts + [ContextEntry(i + 1, results[i])];
    }
    assert parts == seq(|results|, k requires 0 <= k < |results| => ContextEntry(k + 1, results[k]));
    context := Join("\n\n", parts);
  }

  /** Every retrieved result appears in the context with its number, its
      source and its content. */
  lemma ContextMentionsResult(results: seq<RetrievalResult>, k: nat)
    requires k < |results|
    ensures Contains(Context(results), "Knowledge " + NatToString(k + 1) + " (from " + results[k].source)
    ensures Contains(Context(results), results[k].source)
    ensures Contains(Context(results), results[k].content)
  {
    var parts := seq(|results|, j requires 0 <= j < |results| => ContextEntry(j + 1, results[j]));
    JoinContainsPart("\n\n", parts, k);
    var head := "Knowledge " + NatToString(k + 1) + " (from " + results[k].source;
    var entry := ContextEntry(k + 1, results[k]);
    assert entry == head + "):\n" + results[k].content;
    ContainsSelf(head);
    ContainsAppend(head, "):\n", head);
    ContainsAppend(head + "):\n", results[k].content, head);
    ContainsTrans(Context(results), entry, head);
    ContainsSelf(results[k].source);
    ContainsAppend("Knowledge " + NatToString(k + 1) + " (from ", results[k].source, results[k].source);
    ContainsTrans(Context(results), head, results[k].source);
    ContainsSelf(results[k].content);
    ContainsAppend(head + "):\n", results[k].content, results[k].content);
    ContainsTrans(Context(results), entry, results[k].content);
  }

  // ---------------------------------------------------------------------------
  // `generate_response`

  /** `generate_response`, given the completion call's reply (`None` when it
      raises): the cleaned reply, or the fallback text on failure. */
  function GenerateResponse(category: RequestCategory, escalation: EscalationDecision, reply: Option<string>): (r: string)
    ensures reply.None? ==> r == FallbackResponse(category, escalation)
    ensures reply.Some? ==> r == GeneratedText(reply).value && '*' !in r && Stripped(r)
  {
    match reply
    case None => FallbackResponse(category, escalation)
    case Some(raw) => GeneratedText(reply).value
  }
}
