/** The Express middleware in front of the chat route
    (backend/middleware/safetyMiddleware.js): its own copy of the keyword
    gate. It throws when the message is absent or not a string, answers 400
    and stops the chain on a keyword, and otherwise hands the request on
    with `next()`. */
module SafetyMiddleware {
  import opened JsText
  import opened Messages
  import ChatApi

  /** The middleware's own keyword list. */
  const RiskyKeywords: seq<string> := [
    "prescription", "dose", "mg", "milligram", "injection", "inject",
    "pregnancy", "pregnant", "breastfeeding", "nursing",
    "doctor prescription", "specific medication", "brand name", "exact dosage"
  ]

  /** `riskyKeywords.some(...)` over the lower-cased message; the keywords are
      lower case already, so lower-casing them changes nothing. */
  function Blocks(message: string): bool {
    IncludesAny(Lower(message), RiskyKeywords)
  }

  const BlockMessage: string :=
    "I cannot provide prescriptions, "
    + "specific dosages, or medical advice "
    + "requiring professional evaluation. "
    + "Please consult a healthcare "
    + "provider for personalized medical "
    + "advice."

  const BlockReply: Reply :=
    Reply(400, ErrorNotice("Request blocked for safety reasons", BlockMessage))

  /** What the middleware does with a request: it throws (there is no `try`)
      when the body is missing or the message is not a string, it answers with
      the block reply, or it passes the request on. */
  datatype Outcome = Throws | Reject(reply: Reply) | Pass

  function Decide(req: Request): (o: Outcome)
    ensures o.Throws? <==> req.body.None? || !req.body.value.Text?
    ensures o.Reject? <==> req.body.Some? && req.body.value.Text? && Blocks(req.body.value.text)
    ensures o.Reject? ==> o.reply == BlockReply
  {
    match req.body
    case None => Throws
    case Some(field) =>
      if !field.Text? then Throws
      else if Blocks(field.text) then Reject(BlockReply)
      else Pass
  }

  /** `safetyMiddleware(req, res, next)`: on a block it writes the reply and
      returns without calling `next`; otherwise it writes nothing and calls
      `next` once; when it throws it has done neither. */
  method Apply(req: Request, res: Exchange) returns (thrown: bool)
    modifies res
    ensures thrown <==> Decide(req).Throws?
    ensures Decide(req).Reject? ==>
      res.sent == old(res.sent) + [BlockReply] && res.nextCalls == old(res.nextCalls)
    ensures !Decide(req).Reject? ==> res.sent == old(res.sent)
    ensures res.nextCalls == old(res.nextCalls) + (if Decide(req).Pass? then 1 else 0)
  {
    if req.body.None? || !req.body.value.Text? {
      return true;
    }
    var message := req.body.value.text;
    if Blocks(message) {
      res.Send(BlockReply);
      return false;
    }
    res.Next();
    return false;
  }

  // ---------------------------------------------------------------------------
  // Agreement with the handler's gate

  /** The two keyword lists are the same list. */
  lemma SameKeywords()
    ensures RiskyKeywords == ChatApi.RiskyKeywords
  {
  }

  /** The middleware blocks exactly the messages the handler's gate blocks. */
  lemma {:induction false} BlocksIffSafetyCheck(message: string)
    ensures Blocks(message) == ChatApi.SafetyCheck(message)
  {
    SameKeywords();
  }

  /** The block reply is the handler's. */
  lemma SameBlockReply()
    ensures BlockReply == ChatApi.BlockedReply
  {
  }

  /** For a non-empty string message, the middleware rejects exactly when the
      handler, left alone, would answer with the block reply. */
  lemma {:induction false} AgreesWithHandler(message: string)
    requires message != []
    ensures Decide(ChatApi.Post(message)).Reject? <==>
      ChatApi.Respond(ChatApi.Post(message)) == ChatApi.BlockedReply
  {
    BlocksIffSafetyCheck(message);
    ChatApi.BlockedReplyIff(ChatApi.Post(message));
  }

  /** The two disagree on the empty message: the middleware passes it on,
      and the handler answers that a message is required. */
  lemma EmptyMessagePasses()
    ensures Decide(ChatApi.Post("")) == Pass
    ensures ChatApi.RouteOf(ChatApi.Post("")) == ChatApi.Missing
  {
    ChatApi.KeywordsStartSolid();
    SameKeywords();
    EmptyIncludesNone(RiskyKeywords);
  }
}
