/** The serverless chat endpoint (frontend/api/chat.js): the safety keyword
    gate, the per-request response table, the first-match intent chain, the
    disclaimer composer and the status dispatch of the handler. */
module ChatApi {
  import opened JsText
  import opened Messages

  // ---------------------------------------------------------------------------
  // Safety gate

  /** The fourteen substrings that mark a request as asking for professional
      judgement (prescriptions, doses, pregnancy, ...). */
  const RiskyKeywords: seq<string> := [
    "prescription", "dose", "mg", "milligram", "injection", "inject",
    "pregnancy", "pregnant", "breastfeeding", "nursing",
    "doctor prescription", "specific medication", "brand name", "exact dosage"
  ]

  /** `safetyCheck(message)`: some keyword occurs in the lower-cased message.
      The source lower-cases each keyword too; they are all written in lower
      case already, so that step is the identity (`KeywordsAreLowercase`). */
  function SafetyCheck(message: string): bool {
    IncludesAny(Lower(message), RiskyKeywords)
  }

  /** `keyword.toLowerCase()` leaves every keyword as it is. */
  lemma KeywordsAreLowercase()
    ensures forall k :: k in RiskyKeywords ==> Lower(k) == k
  {
    forall k | k in RiskyKeywords
      ensures Lower(k) == k
    {
      LowerOfLowercase(k);
    }
  }

  /** The gate blocks exactly when one of the keywords is a substring of the
      lower-cased message. */
  lemma {:induction false} SafetyCheckIff(message: string)
    ensures SafetyCheck(message) <==>
      exists k :: k in RiskyKeywords && Includes(Lower(message), k)
  {
    IncludesAnyIff(Lower(message), RiskyKeywords);
  }

  /** The gate ignores letter case: a message and its lower-cased form are
      judged alike. */
  lemma {:induction false} SafetyIgnoresCase(message: string)
    ensures SafetyCheck(Lower(message)) == SafetyCheck(message)
  {
    LowerIdempotent(message);
  }

  /** The order of the keyword list is irrelevant: any list holding the same
      keywords blocks the same messages. */
  lemma {:induction false} SafetyKeywordOrderIrrelevant(message: string, keywords: seq<string>)
    requires forall k :: k in keywords <==> k in RiskyKeywords
    ensures IncludesAny(Lower(message), keywords) == SafetyCheck(message)
  {
    SafetyCheckIff(message);
    IncludesAnyIff(Lower(message), keywords);
  }

  /** Blocking is monotone: a message that contains a blocked message is blocked. */
  lemma {:induction false} BlockingMonotone(message: string, larger: string, at: int)
    requires OccursAt(larger, message, at)
    requires SafetyCheck(message)
    ensures SafetyCheck(larger)
  {
    LowerSlice(larger, at, at + |message|);
    IncludesAnyWithin(Lower(message), Lower(larger), at, RiskyKeywords);
  }

  /** The keywords without the two that contain another one. */
  const EssentialKeywords: seq<string> := [
    "prescription", "dose", "mg", "milligram", "inject",
    "pregnancy", "pregnant", "breastfeeding", "nursing",
    "specific medication", "brand name", "exact dosage"
  ]

  /** Two keywords are redundant ("injection" contains "inject", "doctor
      prescription" contains "prescription"): the remaining twelve block the
      same messages. */
  lemma {:induction false} RedundantKeywords(text: string)
    ensures IncludesAny(text, RiskyKeywords) == IncludesAny(text, EssentialKeywords)
  {
    EssentialKeywordsCover();
    IncludesAnyRedundant(text, RiskyKeywords, EssentialKeywords);
  }

  /** The twelve are keywords, and every keyword contains one of them. */
  lemma EssentialKeywordsCover()
    ensures forall n :: n in EssentialKeywords ==> n in RiskyKeywords
    ensures forall n :: n in RiskyKeywords ==> ContainsOneOf(n, EssentialKeywords)
  {
    forall n | n in RiskyKeywords
      ensures ContainsOneOf(n, EssentialKeywords)
    {
      if n == "injection" {
        assert OccursAt(n, "inject", 0);
      } else if n == "doctor prescription" {
        assert OccursAt(n, "prescription", 7);
      } else {
        assert n in EssentialKeywords && OccursAt(n, n, 0);
      }
    }
  }

  /** The 400 reply of a blocked message. */
  const BlockedMessage: string :=
    "I cannot provide prescriptions, "
    + "specific dosages, or medical advice "
    + "requiring professional evaluation. "
    + "Please consult a healthcare "
    + "provider for personalized medical "
    + "advice."

  const BlockedReply: Reply :=
    Reply(400, ErrorNotice("Request blocked for safety reasons", BlockedMessage))

  const MethodNotAllowedReply: Reply := Reply(405, ErrorReply("Method not allowed"))

  const MissingMessageReply: Reply := Reply(400, ErrorReply("Message is required"))

  const InternalErrorMessage: string :=
    "An error occurred while processing "
    + "your request. Please try again."

  /** The reply of the `catch` block: anything thrown inside the `try`. */
  const InternalErrorReply: Reply :=
    Reply(500, ErrorNotice("Internal server error", InternalErrorMessage))

  // ---------------------------------------------------------------------------
  // Response table

  const FeverTemplate: Advisory := Advisory(
    "Fever is commonly caused by "
    + "infections (viral or bacterial), "
    + "inflammation, or immune responses.",
    ["pain reliever",
     "fever reducer"],
    ["Stay hydrated by drinking plenty of "
     + "fluids",
     "Rest and avoid strenuous activities",
     "Use a cool compress on forehead"],
    ["Temperature above 103°F (39.4°C)",
     "Severe headache or stiff neck",
     "Difficulty breathing",
     "Persistent vomiting"],
    "Monitor temperature regularly. "
    + "Consult a doctor if fever persists "
    + "for more than 3 days or if severe "
    + "symptoms develop.")

  const HeadacheTemplate: Advisory := Advisory(
    "Headaches can be caused by stress, "
    + "dehydration, eye strain, lack of "
    + "sleep, or sinus congestion.",
    ["pain reliever",
     "anti-inflammatory"],
    ["Apply a cold or warm compress to "
     + "head/neck",
     "Ensure adequate hydration",
     "Rest in a dark, quiet room"],
    ["Sudden, severe headache unlike any "
     + "before",
     "Headache with fever, stiff neck, "
     + "confusion",
     "Headache after a head injury"],
    "Most headaches resolve with rest. "
    + "See a doctor for recurring severe "
    + "headaches or those accompanied by "
    + "neurological symptoms.")

  const ColdTemplate: Advisory := Advisory(
    "Common cold is caused by viruses, "
    + "most commonly rhinoviruses, "
    + "affecting the upper respiratory "
    + "tract.",
    ["decongestant",
     "cough suppressant",
     "throat lozenge"],
    ["Drink warm liquids like tea with "
     + "honey",
     "Gargle with warm salt water",
     "Use a humidifier or breathe steam"],
    ["High fever lasting more than 3 days",
     "Severe sinus pain",
     "Difficulty breathing or chest pain"],
    "Cold symptoms typically resolve in "
    + "7-10 days. Seek medical care if "
    + "symptoms worsen or persist beyond "
    + "10 days.")

  const StomachTemplate: Advisory := Advisory(
    "Stomach discomfort can be due to "
    + "indigestion, food intolerance, "
    + "gastritis, or gastrointestinal "
    + "infections.",
    ["antacid",
     "anti-nausea",
     "digestive aid"],
    ["Eat bland foods like crackers or "
     + "toast",
     "Stay hydrated with small sips of "
     + "water",
     "Avoid spicy, fatty, or acidic foods"],
    ["Severe abdominal pain",
     "Persistent vomiting or diarrhea",
     "Blood in vomit or stool",
     "Signs of dehydration"],
    "Minor stomach issues often resolve "
    + "with diet adjustments. Consult a "
    + "doctor for persistent symptoms or "
    + "signs of dehydration.")

  const DefaultTemplate: Advisory := Advisory(
    "I'm not familiar with those "
    + "specific symptoms. They could be "
    + "related to various conditions.",
    ["general pain reliever",
     "anti-inflammatory"],
    ["Rest and stay hydrated",
     "Monitor your symptoms",
     "Maintain a healthy diet"],
    ["Severe pain",
     "Difficulty breathing",
     "High fever",
     "Persistent vomiting"],
    "Since I'm not familiar with these "
    + "symptoms, it's best to consult with "
    + "a healthcare provider for accurate "
    + "diagnosis and treatment.")

  const TemplateKeys: set<string> := {"fever", "headache", "cold", "stomach", "default"}

  /** The `responses` object, rebuilt on every request: one template per key,
      among them `default`. */
  function Responses(): (table: map<string, Advisory>)
    ensures table.Keys == TemplateKeys
  {
    map["fever" := FeverTemplate, "headache" := HeadacheTemplate, "cold" := ColdTemplate,
        "stomach" := StomachTemplate, "default" := DefaultTemplate]
  }

  // ---------------------------------------------------------------------------
  // Canned replies and the disclaimer

  const HelpReply: Advisory := Advisory(
    "I'm here to help you understand "
    + "health information better. My role "
    + "is to provide educational insights "
    + "about symptoms and general wellness.",
    ["none needed"],
    ["Share your health concerns",
     "Learn about symptoms",
     "Understand wellness options"],
    ["None at this moment"],
    "Please describe your health "
    + "concerns in more detail. For "
    + "example, you can tell me about "
    + "specific symptoms you're "
    + "experiencing, when they started, or "
    + "what makes them better or worse.")

  const GreetingReply: Advisory := Advisory(
    "Hello there! I'm glad you reached "
    + "out. I'm here to assist you with "
    + "health information in a safe and "
    + "informative way.",
    ["none needed"],
    ["Welcome to our health conversation",
     "Share your concerns openly",
     "Ask questions freely"],
    ["None at this moment"],
    "Tell me about what's been bothering "
    + "you lately. For example, you might "
    + "say 'I've been having some "
    + "troubling symptoms' or 'I'd like to "
    + "know about this pain I've been "
    + "experiencing.'")

  const Disclaimer: string :=
    "\n\nDISCLAIMER: This advice is for "
    + "educational purposes only and is "
    + "not a substitute for professional "
    + "medical advice, diagnosis, or "
    + "treatment. Always seek the advice "
    + "of your physician or other "
    + "qualified health provider with any "
    + "questions you may have regarding a "
    + "medical condition. Our conversation "
    + "is meant to enhance your health "
    + "literacy, but professional medical "
    + "decisions should always involve "
    + "qualified healthcare providers."

  /** `{ ...response, next_steps: response.next_steps + disclaimer }`: a fresh
      record equal to the template except that its next steps are the
      template's followed by the disclaimer; the template itself is a value
      and cannot be changed by this. */
  function Compose(template: Advisory): (r: Advisory)
    ensures r.causes == template.causes
    ensures r.medicineCategories == template.medicineCategories
    ensures r.homeRemedies == template.homeRemedies
    ensures r.redFlags == template.redFlags
    ensures EndsWith(r.nextSteps, Disclaimer)
    ensures r.nextSteps[..|r.nextSteps| - |Disclaimer|] == template.nextSteps
    ensures WellFormed(template) ==> WellFormed(r)
  {
    template.(nextSteps := template.nextSteps + Disclaimer)
  }

  // ---------------------------------------------------------------------------
  // Intent classification

  /** Where a message is routed: a template of the table, or one of the two
      canned replies. */
  datatype Intent = Template(key: string) | HelpIntent | GreetingIntent

  /** One branch of the `else if` chain: its trigger substrings and its target. */
  datatype Rule = Rule(triggers: seq<string>, intent: Intent)

  const FeverTriggers: seq<string> := ["fever", "temperature", "hot", "burning up"]
  const HeadacheTriggers: seq<string> := ["headache", "head ache", "head hurts", "head pain"]
  const ColdTriggers: seq<string> := ["cold", "flu", "cough", "runny nose", "sneezing"]
  const StomachTriggers: seq<string> := ["stomach", "nausea", "vomit", "diarrhea", "stomach ache"]
  const HelpTriggers: seq<string> := ["help", "assist", "advice"]
  const GreetingTriggers: seq<string> := ["hello", "hi", "hey"]

  /** The branches in the order they are tested. */
  const Rules: seq<Rule> := [
    Rule(FeverTriggers, Template("fever")),
    Rule(HeadacheTriggers, Template("headache")),
    Rule(ColdTriggers, Template("cold")),
    Rule(StomachTriggers, Template("stomach")),
    Rule(HelpTriggers, HelpIntent),
    Rule(GreetingTriggers, GreetingIntent)
  ]

  const DefaultIntent: Intent := Template("default")

  predicate Matches(rule: Rule, text: string) {
    IncludesAny(text, rule.triggers)
  }

  /** The targets of a rule list, in order. */
  function Targets(rules: seq<Rule>): (r: seq<Intent>)
    ensures |r| == |rules|
    ensures forall j :: 0 <= j < |rules| ==> r[j] == rules[j].intent
  {
    if rules == [] then [] else [rules[0].intent] + Targets(rules[1..])
  }

  /** First-match evaluation from rule `i` on; `default` when none matches. */
  function FirstMatchFrom(rules: seq<Rule>, text: string, i: nat): (r: Intent)
    requires i <= |rules|
    ensures r == DefaultIntent || r in Targets(rules)[i..]
    decreases |rules| - i
  {
    if i == |rules| then DefaultIntent
    else if Matches(rules[i], text) then rules[i].intent
    else FirstMatchFrom(rules, text, i + 1)
  }

  function FirstMatch(rules: seq<Rule>, text: string): Intent {
    FirstMatchFrom(rules, text, 0)
  }

  /** One step of the evaluation: rule `i` decides if it matches, otherwise
      the rules after it do. */
  lemma {:induction false} FirstMatchStep(rules: seq<Rule>, text: string, i: nat)
    requires i < |rules|
    ensures FirstMatchFrom(rules, text, i) ==
      if Matches(rules[i], text) then rules[i].intent else FirstMatchFrom(rules, text, i + 1)
  {
  }

  /** The rule picked is the first one that matches. */
  lemma {:induction false} FirstMatchFromPicks(rules: seq<Rule>, text: string, start: nat, i: nat)
    requires start <= i < |rules|
    requires Matches(rules[i], text)
    requires forall j :: start <= j < i ==> !Matches(rules[j], text)
    ensures FirstMatchFrom(rules, text, start) == rules[i].intent
    decreases i - start
  {
    if start < i {
      FirstMatchFromPicks(rules, text, start + 1, i);
    }
  }

  lemma {:induction false} FirstMatchFromNone(rules: seq<Rule>, text: string, start: nat)
    requires start <= |rules|
    requires forall j :: start <= j < |rules| ==> !Matches(rules[j], text)
    ensures FirstMatchFrom(rules, text, start) == DefaultIntent
    decreases |rules| - start
  {
    if start < |rules| {
      FirstMatchFromNone(rules, text, start + 1);
    }
  }

  /** First match, both directions: when rule `i` matches and no earlier rule
      does, rule `i` decides; when no rule matches, the result is `default`. */
  lemma {:induction false} FirstMatchPicks(rules: seq<Rule>, text: string, i: nat)
    requires i < |rules| && Matches(rules[i], text)
    requires forall j :: 0 <= j < i ==> !Matches(rules[j], text)
    ensures FirstMatch(rules, text) == rules[i].intent
  {
    FirstMatchFromPicks(rules, text, 0, i);
  }

  lemma {:induction false} FirstMatchNone(rules: seq<Rule>, text: string)
    requires forall j :: 0 <= j < |rules| ==> !Matches(rules[j], text)
    ensures FirstMatch(rules, text) == DefaultIntent
  {
    FirstMatchFromNone(rules, text, 0);
  }

  /** Conversely, every result is explained: it comes from the first matching
      rule `i`, or `i` is past the end, no rule matches, and it is `default`. */
  lemma {:induction false} FirstMatchFromExplained(rules: seq<Rule>, text: string, start: nat) returns (i: nat)
    requires start <= |rules|
    requires forall j :: 0 <= j < start ==> !Matches(rules[j], text)
    ensures i <= |rules|
    ensures forall j :: 0 <= j < i ==> !Matches(rules[j], text)
    ensures i < |rules| ==> Matches(rules[i], text) && FirstMatchFrom(rules, text, start) == rules[i].intent
    ensures i == |rules| ==> FirstMatchFrom(rules, text, start) == DefaultIntent
    decreases |rules| - start
  {
    if start == |rules| || Matches(rules[start], text) {
      i := start;
    } else {
      i := FirstMatchFromExplained(rules, text, start + 1);
    }
  }

  /** Two texts on which every rule agrees are classified alike. */
  lemma {:induction false} FirstMatchFromCongruent(rules: seq<Rule>, a: string, b: string, start: nat)
    requires start <= |rules|
    requires forall j :: start <= j < |rules| ==> Matches(rules[j], a) == Matches(rules[j], b)
    ensures FirstMatchFrom(rules, a, start) == FirstMatchFrom(rules, b, start)
    decreases |rules| - start
  {
    if start < |rules| {
      FirstMatchFromCongruent(rules, a, b, start + 1);
    }
  }

  /** The intent of a message: first match over its lower-cased, trimmed text.
      Every template it names is in the response table. */
  function Classify(message: string): (intent: Intent)
    ensures intent.Template? ==> intent.key in TemplateKeys
  {
    var text := Trim(Lower(message));
    RoutesToTable(text);
    FirstMatch(Rules, text)
  }

  lemma {:induction false} RoutesToTable(text: string)
    ensures FirstMatch(Rules, text).Template? ==> FirstMatch(Rules, text).key in TemplateKeys
  {
    var i := FirstMatchFromExplained(Rules, text, 0);
  }

  /** A rule none of whose triggers starts or ends with whitespace matches a
      text exactly when it matches the trimmed text. */
  lemma {:induction false} MatchesIgnoresTrim(rule: Rule, s: string)
    requires forall n :: n in rule.triggers ==> SolidEnds(n)
    ensures Matches(rule, Trim(s)) == Matches(rule, s)
  {
    forall n | n in rule.triggers
      ensures Includes(Trim(s), n) == Includes(s, n)
    {
      TrimIncludesIff(s, n);
    }
    IncludesAnyIff(Trim(s), rule.triggers);
    IncludesAnyIff(s, rule.triggers);
  }

  lemma FeverTriggersSolid()
    ensures forall n :: n in FeverTriggers ==> SolidEnds(n)
  {
  }

  lemma HeadacheTriggersSolid()
    ensures forall n :: n in HeadacheTriggers ==> SolidEnds(n)
  {
  }

  lemma ColdTriggersSolid()
    ensures forall n :: n in ColdTriggers ==> SolidEnds(n)
  {
  }

  lemma StomachTriggersSolid()
    ensures forall n :: n in StomachTriggers ==> SolidEnds(n)
  {
  }

  lemma HelpTriggersSolid()
    ensures forall n :: n in HelpTriggers ==> SolidEnds(n)
  {
  }

  lemma GreetingTriggersSolid()
    ensures forall n :: n in GreetingTriggers ==> SolidEnds(n)
  {
  }

  lemma TriggersSolid()
    ensures forall j, n :: 0 <= j < |Rules| && n in Rules[j].triggers ==> SolidEnds(n)
  {
    FeverTriggersSolid();
    HeadacheTriggersSolid();
    ColdTriggersSolid();
    StomachTriggersSolid();
    HelpTriggersSolid();
    GreetingTriggersSolid();
  }

  /** No trigger starts or ends with whitespace, so the `trim` before matching
      never changes the intent. */
  lemma {:induction false} ClassifyIgnoresTrim(message: string)
    ensures Classify(message) == FirstMatch(Rules, Lower(message))
  {
    var lowered := Lower(message);
    TriggersSolid();
    forall j | 0 <= j < |Rules|
      ensures Matches(Rules[j], Trim(lowered)) == Matches(Rules[j], lowered)
    {
      MatchesIgnoresTrim(Rules[j], lowered);
    }
    FirstMatchFromCongruent(Rules, Trim(lowered), lowered, 0);
  }

  // ---------------------------------------------------------------------------
  // The handler

  /** The advice record of a successful classification: a composed template,
      or a canned reply sent as it is, without the disclaimer. */
  function AdviceFor(intent: Intent): (a: Advisory)
    requires intent.Template? ==> intent.key in TemplateKeys
  {
    match intent
    case Template(key) => Compose(Responses()[key])
    case HelpIntent => HelpReply
    case GreetingIntent => GreetingReply
  }

  /** Which way the handler goes with a request, before any body is built. */
  datatype Route =
    | Preflight
    | NotAllowed
    | Missing
    | Blocked
    | Failed
    | Answer(intent: Intent)

  /** The handler's decisions, in the order it takes them: the method, then
      (inside the `try`) the presence of a message, the safety gate and the
      classification. A `null` body cannot be destructured and a truthy
      message that is not a string has no `toLowerCase`: both throw inside
      the `try` and end in the `catch`. */
  function RouteOf(req: Request): (r: Route)
    ensures r == Preflight <==> req.httpMethod == "OPTIONS"
    ensures r == NotAllowed <==> req.httpMethod != "OPTIONS" && req.httpMethod != "POST"
    ensures r == Missing <==>
      req.httpMethod == "POST" && req.body.Some? && !Truthy(req.body.value)
    ensures r == Failed <==>
      req.httpMethod == "POST" && (req.body.None? || (Truthy(req.body.value) && req.body.value.NonText?))
    ensures r == Blocked <==>
      req.httpMethod == "POST" && req.body.Some? && req.body.value.Text?
      && req.body.value.text != [] && SafetyCheck(req.body.value.text)
    ensures r.Answer? <==>
      req.httpMethod == "POST" && req.body.Some? && req.body.value.Text?
      && req.body.value.text != [] && !SafetyCheck(req.body.value.text)
    ensures r.Answer? ==> r.intent == Classify(req.body.value.text)
  {
    if req.httpMethod == "OPTIONS" then Preflight
    else if req.httpMethod != "POST" then NotAllowed
    else match req.body
      case None => Failed
      case Some(field) =>
        if !Truthy(field) then Missing
        else if field.NonText? then Failed
        else if SafetyCheck(field.text) then Blocked
        else Answer(Classify(field.text))
  }

  /** The status and body written for each route. */
  function Render(route: Route): (r: Reply)
    requires route.Answer? && route.intent.Template? ==> route.intent.key in TemplateKeys
  {
    match route
    case Preflight => Reply(200, NoContent)
    case NotAllowed => MethodNotAllowedReply
    case Missing => MissingMessageReply
    case Blocked => BlockedReply
    case Failed => InternalErrorReply
    case Answer(intent) => Reply(200, Advice(AdviceFor(intent)))
  }

  /** The status and body `handler(req, res)` sends for a request. */
  function Respond(req: Request): (r: Reply)
    ensures r.status in {200, 400, 405, 500}
    ensures r.status == 200 <==> RouteOf(req) == Preflight || RouteOf(req).Answer?
    ensures r.status == 400 <==> RouteOf(req) == Missing || RouteOf(req) == Blocked
    ensures r.status == 500 <==> RouteOf(req) == Failed
  {
    Render(RouteOf(req))
  }

  /** The block reply is sent exactly on the `Blocked` route: every other
      route writes a different status or a different body shape. */
  lemma {:induction false} BlockedReplyIff(req: Request)
    ensures Respond(req) == BlockedReply <==> RouteOf(req) == Blocked
  {
  }

  /** The `else if` chain of the handler evaluates the first-match rule list. */
  lemma {:induction false} FirstMatchChain(t: string)
    ensures FirstMatch(Rules, t) ==
        if IncludesAny(t, FeverTriggers) then Template("fever")
        else if IncludesAny(t, HeadacheTriggers) then Template("headache")
        else if IncludesAny(t, ColdTriggers) then Template("cold")
        else if IncludesAny(t, StomachTriggers) then Template("stomach")
        else if IncludesAny(t, HelpTriggers) then HelpIntent
        else if IncludesAny(t, GreetingTriggers) then GreetingIntent
        else DefaultIntent
  {
    assert Rules[0].triggers == FeverTriggers && Rules[1].triggers == HeadacheTriggers;
    assert Rules[2].triggers == ColdTriggers && Rules[3].triggers == StomachTriggers;
    assert Rules[4].triggers == HelpTriggers && Rules[5].triggers == GreetingTriggers;
    FirstMatchStep(Rules, t, 0);
    FirstMatchStep(Rules, t, 1);
    FirstMatchStep(Rules, t, 2);
    FirstMatchStep(Rules, t, 3);
    FirstMatchStep(Rules, t, 4);
    FirstMatchStep(Rules, t, 5);
  }

  /** `handler(req, res)`: writes exactly one reply, the one `Respond`
      describes, after whatever was written before, and never calls `next`.
      The response table is rebuilt and the template copied on every call,
      so equal requests always get equal replies. */
  method Handler(req: Request, res: Exchange)
    modifies res
    ensures res.sent == old(res.sent) + [Respond(req)]
    ensures res.nextCalls == old(res.nextCalls)
  {
    if req.httpMethod == "OPTIONS" {
      res.Send(Reply(200, NoContent));
      return;
    }
    if req.httpMethod != "POST" {
      res.Send(MethodNotAllowedReply);
      return;
    }
    if req.body.None? {
      res.Send(InternalErrorReply);
      return;
    }
    var message := req.body.value;
    if !Truthy(message) {
      res.Send(MissingMessageReply);
      return;
    }
    if message.NonText? {
      res.Send(InternalErrorReply);
      return;
    }
    if SafetyCheck(message.text) {
      res.Send(BlockedReply);
      return;
    }
    var responses := Responses();
    var responseKey := "default";
    var lowerMessage := Trim(Lower(message.text));
    FirstMatchChain(lowerMessage);
    if IncludesAny(lowerMessage, FeverTriggers) {
      responseKey := "fever";
    } else if IncludesAny(lowerMessage, HeadacheTriggers) {
      responseKey := "headache";
    } else if IncludesAny(lowerMessage, ColdTriggers) {
      responseKey := "cold";
    } else if IncludesAny(lowerMessage, StomachTriggers) {
      responseKey := "stomach";
    } else if IncludesAny(lowerMessage, HelpTriggers) {
      res.Send(Reply(200, Advice(HelpReply)));
      return;
    } else if IncludesAny(lowerMessage, GreetingTriggers) {
      res.Send(Reply(200, Advice(GreetingReply)));
      return;
    }
    var response := responses[responseKey];
    res.Send(Reply(200, Advice(response.(nextSteps := response.nextSteps + Disclaimer))));
  }

  // ---------------------------------------------------------------------------
  // Properties of the replies

  lemma FeverTemplateWellFormed() ensures WellFormed(FeverTemplate) {}
  lemma HeadacheTemplateWellFormed() ensures WellFormed(HeadacheTemplate) {}
  lemma ColdTemplateWellFormed() ensures WellFormed(ColdTemplate) {}
  lemma StomachTemplateWellFormed() ensures WellFormed(StomachTemplate) {}
  lemma DefaultTemplateWellFormed() ensures WellFormed(DefaultTemplate) {}

  /** Every template of the table has all five fields filled. */
  lemma ResponsesWellFormed()
    ensures forall key :: key in Responses() ==> WellFormed(Responses()[key])
  {
    FeverTemplateWellFormed();
    HeadacheTemplateWellFormed();
    ColdTemplateWellFormed();
    StomachTemplateWellFormed();
    DefaultTemplateWellFormed();
  }

  lemma HelpReplyWellFormed() ensures WellFormed(HelpReply) {}
  lemma GreetingReplyWellFormed() ensures WellFormed(GreetingReply) {}

  /** Every advice record of a classification has all five fields filled. */
  lemma {:induction false} AdviceForWellFormed(intent: Intent)
    requires intent.Template? ==> intent.key in TemplateKeys
    ensures WellFormed(AdviceFor(intent))
  {
    match intent
    case Template(key) =>
      ResponsesWellFormed();
      assert WellFormed(Responses()[key]);
    case HelpIntent => HelpReplyWellFormed();
    case GreetingIntent => GreetingReplyWellFormed();
  }

  /** Every advice record the handler sends has all five fields filled. */
  lemma {:induction false} AdviceWellFormed(req: Request)
    requires Respond(req).payload.Advice?
    ensures WellFormed(Respond(req).payload.advisory)
  {
    var route := RouteOf(req);
    assert route.Answer?;
    AdviceForWellFormed(route.intent);
  }

  /** A templated reply ends with the disclaimer, a canned reply does not:
      its next steps are shorter than the disclaimer alone. */
  lemma {:induction false} DisclaimerOnlyOnTemplates(intent: Intent)
    requires intent.Template? ==> intent.key in TemplateKeys
    ensures EndsWith(AdviceFor(intent).nextSteps, Disclaimer) <==> intent.Template?
  {
    if !intent.Template? {
      assert |HelpReply.nextSteps| < |Disclaimer|;
      assert |GreetingReply.nextSteps| < |Disclaimer|;
    }
  }

  /** The two canned replies carry no medicine and no red flag. */
  lemma {:induction false} CannedRepliesShape(intent: Intent)
    requires !intent.Template?
    ensures AdviceFor(intent).medicineCategories == ["none needed"]
    ensures AdviceFor(intent).redFlags == ["None at this moment"]
  {
  }

  // ---------------------------------------------------------------------------
  // Requests

  /** A `POST` whose body carries a string message. */
  function Post(message: string): Request {
    Request("POST", Some(Text(message)))
  }

  /** No keyword begins with whitespace. */
  lemma KeywordsStartSolid()
    ensures forall k :: k in RiskyKeywords ==> k != [] && !IsWhitespace(k[0])
  {
  }

  /** Whitespace passes the gate: no keyword starts with a blank. */
  lemma {:induction false} BlankNotBlocked(message: string)
    requires AllBlank(message)
    ensures !SafetyCheck(message)
  {
    LowerBlank(message);
    KeywordsStartSolid();
    BlankIncludesNone(Lower(message), RiskyKeywords);
  }

  /** Whitespace is trimmed away, leaving nothing for a trigger to match. */
  lemma {:induction false} BlankClassifiedDefault(message: string)
    requires AllBlank(message)
    ensures Classify(message) == DefaultIntent
  {
    LowerBlank(message);
    TrimBlank(Lower(message));
    TriggersSolid();
    forall j | 0 <= j < |Rules|
      ensures !Matches(Rules[j], [])
    {
      EmptyIncludesNone(Rules[j].triggers);
    }
    FirstMatchNone(Rules, []);
  }

  /** A message of whitespace only is present (non-empty), passes the gate and
      lands on the `default` template. */
  lemma {:induction false} BlankMessageGetsDefault(message: string)
    requires message != [] && AllBlank(message)
    ensures RouteOf(Post(message)) == Answer(DefaultIntent)
  {
    BlankNotBlocked(message);
    BlankClassifiedDefault(message);
  }

  // ---------------------------------------------------------------------------
  // Examples (with `RouteOf`'s contract they fix the whole reply)

  /** Fever is tested before headache. */
  lemma {:induction false} FeverBeforeHeadache(message: string)
    requires message == "fever, headache"
    ensures Classify(message) == Template("fever")
  {
    IncludesAnyAt(message, FeverTriggers, "fever", 0);
    LowerOfLowercase(message);
    ClassifyIgnoresTrim(message);
    FeverFirst(message);
  }

  /** A text with a fever trigger is a fever text, whatever follows. */
  lemma {:induction false} FeverFirst(text: string)
    requires IncludesAny(text, FeverTriggers)
    ensures FirstMatch(Rules, text) == Template("fever")
  {
    FirstMatchChain(text);
  }

  /** A message that asks for a dose is blocked, although it names a symptom. */
  lemma {:induction false} DoseIsBlocked(message: string)
    requires message == "fever dose"
    ensures SafetyCheck(message)
  {
    LowerOfLowercase(message);
    IncludesAnyAt(message, RiskyKeywords, "dose", 6);
  }

  /** Greeting triggers match anywhere in a word: "this" contains "hi". */
  lemma {:induction false} ThisIsAGreeting(message: string)
    requires message == "this"
    ensures !SafetyCheck(message)
    ensures Classify(message) == GreetingIntent
  {
    LowerOfLowercase(message);
    ThisIsSafe(message);
    ClassifyIgnoresTrim(message);
    ThisMatchesGreeting(message);
  }

  lemma {:induction false} ThisIsSafe(message: string)
    requires message == "this"
    ensures !IncludesAny(message, RiskyKeywords)
  {
    NoneIncludedByChars(message, RiskyKeywords, "pommjjppbuopbx");
  }

  lemma {:induction false} ThisNamesNoFeverOrHeadache(message: string)
    requires message == "this"
    ensures !IncludesAny(message, FeverTriggers) && !IncludesAny(message, HeadacheTriggers)
  {
    NoneIncludedByChars(message, FeverTriggers, "feob");
    NoneIncludedByChars(message, HeadacheTriggers, "eaaa");
  }

  lemma {:induction false} ThisNamesNoColdOrStomach(message: string)
    requires message == "this"
    ensures !IncludesAny(message, ColdTriggers) && !IncludesAny(message, StomachTriggers)
  {
    NoneIncludedByChars(message, ColdTriggers, "cfcre");
    NoneIncludedByChars(message, StomachTriggers, "oaoao");
  }

  lemma {:induction false} ThisMatchesGreeting(message: string)
    requires message == "this"
    ensures FirstMatch(Rules, message) == GreetingIntent
  {
    ThisNamesNoFeverOrHeadache(message);
    ThisNamesNoColdOrStomach(message);
    NoneIncludedByChars(message, HelpTriggers, "eaa");
    IncludesAnyAt(message, GreetingTriggers, "hi", 1);
    FirstMatchChain(message);
  }
}
