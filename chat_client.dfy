/** The chat screen's rendering of a bot reply (frontend/src/App.tsx,
    `formatBotResponse`): a conversational reply as plain paragraphs, any
    other reply as five titled sections with bulleted lists. */
module ChatClient {
  import opened JsText
  import opened Messages
  import ChatApi

  /** Phrases whose presence in `causes` marks a conversational reply. */
  const Markers: seq<string> := [
    "Hello there!", "You're very welcome!", "I'm doing well",
    "Thank you for this health conversation", "I'm here to help you understand"
  ]

  predicate IsConversational(response: Advisory) {
    IncludesAny(response.causes, Markers)
  }

  /** `• ${items.join('\n• ')}` */
  function Bullets(items: seq<string>): string {
    "• " + Join(items, "\n• ")
  }

  /** `formatBotResponse(response)`: the sectioned form is the template
      literal written out by `Head`, between its leading newline and its
      trailing newline and indentation, then trimmed. */
  function FormatBotResponse(response: Advisory): string {
    if IsConversational(response) then
      Join([response.causes, "", Join(response.homeRemedies, "\n"), "", response.nextSteps], "\n")
    else
      Trim("\n" + Head(response) + "\n" + response.nextSteps + "\n    ")
  }

  /** One titled section: the title, its body on the next line, a blank line. */
  function Section(title: string, body: string): string {
    title + "\n" + body + "\n\n"
  }

  /** The sectioned text up to the last title. */
  function Head(response: Advisory): string {
    Section("CAUSES:", response.causes)
    + Section("MEDICINE CATEGORIES:", Bullets(response.medicineCategories))
    + Section("HOME REMEDIES:", Bullets(response.homeRemedies))
    + Section("RED FLAGS (SEEK IMMEDIATE CARE):", Bullets(response.redFlags))
    + "NEXT STEPS:"
  }

  // ---------------------------------------------------------------------------
  // Conversational replies

  /** Causes, a blank line, the remedies one per line, a blank line, the next
      steps. */
  lemma {:induction false} ConversationalLayout(response: Advisory)
    requires IsConversational(response)
    ensures FormatBotResponse(response) ==
      response.causes + "\n\n" + Join(response.homeRemedies, "\n") + "\n\n" + response.nextSteps
  {
    var remedies := Join(response.homeRemedies, "\n");
    var parts := [response.causes, "", remedies, "", response.nextSteps];
    assert Join(parts[4..], "\n") == response.nextSteps;
    assert Join(parts[3..], "\n") == "\n" + response.nextSteps;
    assert Join(parts[2..], "\n") == remedies + "\n\n" + response.nextSteps;
    assert Join(parts[1..], "\n") == "\n" + remedies + "\n\n" + response.nextSteps;
  }

  /** The medicine categories and the red flags of a conversational reply are
      not shown. */
  lemma {:induction false} ConversationalHidesMedicineAndRedFlags(response: Advisory, medicine: seq<string>, flags: seq<string>)
    requires IsConversational(response)
    ensures FormatBotResponse(response.(medicineCategories := medicine, redFlags := flags))
         == FormatBotResponse(response)
  {
  }

  /** Both canned replies of the chat endpoint are shown as conversation. */
  lemma CannedRepliesAreConversational()
    ensures IsConversational(ChatApi.HelpReply)
    ensures IsConversational(ChatApi.GreetingReply)
  {
    IncludesAnyAt(ChatApi.HelpReply.causes, Markers, "I'm here to help you understand", 0);
    IncludesAnyAt(ChatApi.GreetingReply.causes, Markers, "Hello there!", 0);
  }

  // ---------------------------------------------------------------------------
  // Sectioned replies

  /** The sectioned text starts with the first title and ends with the colon
      of the last. */
  lemma {:induction false} HeadEnds(response: Advisory)
    ensures var head := Head(response); head != [] && head[0] == 'C' && head[|head| - 1] == ':'
  {
  }

  /** The template literal regrouped: its leading newline, then the text
      proper and the trailing indentation. */
  lemma {:induction false} RawRegrouped(head: string, rest: string)
    ensures "\n" + head + "\n" + rest + "\n    " == ['\n'] + ((head + ("\n" + rest)) + "\n    ")
  {
  }

  /** `trimStart` removes the leading newline and stops at the first title. */
  lemma {:induction false} TrimStartRaw(body: string)
    requires body != [] && body[0] == 'C'
    ensures TrimStart(['\n'] + (body + "\n    ")) == body + "\n    "
  {
    assert (body + "\n    ")[0] == 'C';
    TrimStartSteps('\n', body + "\n    ");
  }

  /** Removing the literal's leading newline and trailing indentation. */
  lemma {:induction false} TrimRaw(head: string, rest: string)
    requires head != [] && head[0] == 'C'
    ensures Trim("\n" + head + "\n" + rest + "\n    ") == TrimEnd(head + ("\n" + rest))
  {
    RawRegrouped(head, rest);
    var body := head + ("\n" + rest);
    assert body[0] == 'C';
    TrimStartRaw(body);
    TrimEndBlankSuffix(body, "\n    ");
  }

  /** A sectioned reply is the four sections and the last title, then the next
      steps with their trailing whitespace cut; the four sections are shown
      untouched. */
  lemma {:induction false} SectionedLayout(response: Advisory)
    requires !IsConversational(response)
    ensures FormatBotResponse(response) == TrimEnd(Head(response) + ("\n" + response.nextSteps))
    ensures StartsWith(FormatBotResponse(response), Head(response))
  {
    HeadEnds(response);
    TrimRaw(Head(response), response.nextSteps);
    TrimEndKeepsHead(Head(response), "\n" + response.nextSteps);
  }

  /** A section starts with its title and is longer than it. */
  lemma {:induction false} SectionStartsWithTitle(title: string, body: string)
    ensures StartsWith(Section(title, body), title)
    ensures |Section(title, body)| > |title|
  {
    assert Section(title, body) == title + ("\n" + body + "\n\n");
  }

  /** Where a text starting with four pieces and a last title shows each
      piece's leading title. */
  lemma {:induction false} TitlesAt(text: string, s1: string, s2: string, s3: string, s4: string,
                                    t1: string, t2: string, t3: string, t4: string, last: string)
    requires StartsWith(text, s1 + s2 + s3 + s4 + last)
    requires StartsWith(s1, t1) && StartsWith(s2, t2) && StartsWith(s3, t3) && StartsWith(s4, t4)
    ensures OccursAt(text, t1, 0) && OccursAt(text, t2, |s1|) && OccursAt(text, t3, |s1 + s2|)
    ensures OccursAt(text, t4, |s1 + s2 + s3|) && OccursAt(text, last, |s1 + s2 + s3 + s4|)
  {
    OccursAfterPrefix(text, s1 + s2 + s3 + s4, last);
    StartsWithLeft(text, s1 + s2 + s3 + s4, last);
    OccursInPiece(text, s1 + s2 + s3, s4, t4);
    StartsWithLeft(text, s1 + s2 + s3, s4);
    OccursInPiece(text, s1 + s2, s3, t3);
    StartsWithLeft(text, s1 + s2, s3);
    OccursInPiece(text, s1, s2, t2);
    StartsWithLeft(text, s1, s2);
    assert [] + s1 == s1;
    OccursInPiece(text, [], s1, t1);
  }

  /** A sectioned reply starts with the causes title and shows the other four
      titles after it, in order. */
  lemma {:induction false} SectionTitlesInOrder(response: Advisory)
    requires !IsConversational(response)
    ensures OccursAt(FormatBotResponse(response), "CAUSES:", 0)
    ensures exists i, j, k, l :: (0 < i < j < k < l
              && OccursAt(FormatBotResponse(response), "MEDICINE CATEGORIES:", i)
              && OccursAt(FormatBotResponse(response), "HOME REMEDIES:", j)
              && OccursAt(FormatBotResponse(response), "RED FLAGS (SEEK IMMEDIATE CARE):", k)
              && OccursAt(FormatBotResponse(response), "NEXT STEPS:", l))
  {
    var s1 := Section("CAUSES:", response.causes);
    var s2 := Section("MEDICINE CATEGORIES:", Bullets(response.medicineCategories));
    var s3 := Section("HOME REMEDIES:", Bullets(response.homeRemedies));
    var s4 := Section("RED FLAGS (SEEK IMMEDIATE CARE):", Bullets(response.redFlags));
    SectionStartsWithTitle("CAUSES:", response.causes);
    SectionStartsWithTitle("MEDICINE CATEGORIES:", Bullets(response.medicineCategories));
    SectionStartsWithTitle("HOME REMEDIES:", Bullets(response.homeRemedies));
    SectionStartsWithTitle("RED FLAGS (SEEK IMMEDIATE CARE):", Bullets(response.redFlags));
    SectionedLayout(response);
    TitlesAt(FormatBotResponse(response), s1, s2, s3, s4, "CAUSES:", "MEDICINE CATEGORIES:",
      "HOME REMEDIES:", "RED FLAGS (SEEK IMMEDIATE CARE):", "NEXT STEPS:");
    assert 0 < |s1| < |s1 + s2| < |s1 + s2 + s3| < |s1 + s2 + s3 + s4|;
  }

  /** A sectioned reply neither starts nor ends with whitespace. */
  lemma {:induction false} SectionedIsTrimmed(response: Advisory)
    requires !IsConversational(response)
    ensures var text := FormatBotResponse(response);
      text != [] && !IsWhitespace(text[0]) && !IsWhitespace(text[|text| - 1])
  {
    SectionedLayout(response);
    HeadEnds(response);
    var text := FormatBotResponse(response);
    var head := Head(response);
    assert text[..|head|] == head;
    assert text[0] == head[0] == 'C';
  }

  /** Bullets: every item behind a bullet, one per line; an empty list shows a
      lone bullet. */
  lemma {:induction false} BulletsLayout(items: seq<string>)
    ensures items != [] ==> Bullets(items) == Join(PrefixEach("• ", items), "\n")
    ensures items == [] ==> Bullets(items) == "• "
  {
    assert "\n• " == "\n" + "• ";
    if items != [] {
      JoinPrefixed("• ", "\n", items);
    } else {
      JoinPrefixedEmpty("• ", "\n");
    }
  }
}
