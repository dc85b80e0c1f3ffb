/** The shapes that cross the HTTP boundary of the chat endpoint: the advice
    record (the `BotResponse` the client reads), the request the handler and the
    middleware receive, the replies they write, and the response object with its
    `next` callback. */
module Messages {

  datatype Option<T> = None | Some(value: T)

  /** The five-field advice record: a template of the response table, a canned
      reply, or the composed answer. */
  datatype Advisory = Advisory(
    causes: string,
    medicineCategories: seq<string>,
    homeRemedies: seq<string>,
    redFlags: seq<string>,
    nextSteps: string)

  /** Every text field non-empty, every list non-empty with non-empty items. */
  predicate WellFormed(a: Advisory) {
    a.causes != [] && a.nextSteps != []
    && a.medicineCategories != [] && a.homeRemedies != [] && a.redFlags != []
    && (forall i :: 0 <= i < |a.medicineCategories| ==> a.medicineCategories[i] != [])
    && (forall i :: 0 <= i < |a.homeRemedies| ==> a.homeRemedies[i] != [])
    && (forall i :: 0 <= i < |a.redFlags| ==> a.redFlags[i] != [])
  }

  /** The `message` field of a parsed JSON body: missing (`undefined`), a
      string, or some other JSON value, of which only truthiness matters. */
  datatype MessageField = Absent | Text(text: string) | NonText(truthy: bool)

  /** JavaScript truthiness of the field, as tested by `!message`. */
  predicate Truthy(m: MessageField) {
    match m
    case Absent => false
    case Text(s) => s != []
    case NonText(t) => t
  }

  /** A request: its method and, when the body parsed to an object, its
      `message` field (`None` is a `null` or `undefined` body). */
  datatype Request = Request(httpMethod: string, body: Option<MessageField>)

  /** What a reply carries: nothing (`res.end()`), an advice record, or an
      error object with one or two string fields. */
  datatype Payload =
    | NoContent
    | Advice(advisory: Advisory)
    | ErrorReply(error: string)
    | ErrorNotice(error: string, message: string)

  datatype Reply = Reply(status: int, payload: Payload)

  /** The response object together with the request's `next` callback: the
      replies written so far, in order, and how many times `next` was called. */
  class Exchange {
    var sent: seq<Reply>
    var nextCalls: nat

    constructor ()
      ensures sent == [] && nextCalls == 0
    {
      sent := [];
      nextCalls := 0;
    }

    /** `res.status(status).json(payload)` or `res.status(status).end()` */
    method Send(r: Reply)
      modifies this
      ensures sent == old(sent) + [r]
      ensures nextCalls == old(nextCalls)
    {
      sent := sent + [r];
    }

    /** `next()` */
    method Next()
      modifies this
      ensures nextCalls == old(nextCalls) + 1
      ensures sent == old(sent)
    {
      nextCalls := nextCalls + 1;
    }
  }
}
