/** The server's one route, `POST /api/contact`: a presence check on four fields. */
module Routes {
  import opened Common

  /** A JSON value as the request body parser produces it. */
  datatype JsValue = Null | Bool(b: bool) | Num(n: real) | Str(s: string) | Array(items: seq<JsValue>) | Object(fields: map<string, JsValue>)

  /** JavaScript truthiness of a field; an absent field reads as `undefined`, which is falsy. */
  predicate Truthy(v: Option<JsValue>) {
    match v
    case None => false
    case Some(Null) => false
    case Some(Bool(b)) => b
    case Some(Num(n)) => n != 0.0
    case Some(Str(s)) => s != ""
    case Some(_) => true
  }

  function Field(body: map<string, JsValue>, key: string): Option<JsValue> {
    if key in body then Some(body[key]) else None
  }

  const RequiredFields: seq<string> := ["name", "email", "subject", "message"]

  /** All four required fields are truthy. */
  predicate Complete(body: map<string, JsValue>) {
    forall k :: k in RequiredFields ==> Truthy(Field(body, k))
  }

  datatype Reply = Reply(status: nat, message: string)

  const Missing := Reply(400, "All fields are required")
  const Sent := Reply(200, "Message sent successfully")
  const Failed := Reply(500, "Failed to send message")

  /**
   * The handler's decision on the fields the destructuring reads. `None` stands for a null or
   * undefined `req.body`, whose destructuring throws and lands in the catch.
   */
  function ContactReply(body: Option<map<string, JsValue>>): (r: Reply)
    ensures r == Failed <==> body.None?
    ensures r == Missing <==> body.Some? && !Complete(body.value)
    ensures r == Sent <==> body.Some? && Complete(body.value)
  {
    match body
    case None => Failed
    case Some(b) =>
      if !Truthy(Field(b, "name")) || !Truthy(Field(b, "email")) || !Truthy(Field(b, "subject")) || !Truthy(Field(b, "message"))
      then Missing
      else Sent
  }

  /**
   * What `const { name, email, subject, message } = req.body` reads from: an object's own
   * fields; nothing for a null or undefined body, which throws; and no field at all for a
   * number, string, boolean or array, whose four properties read as `undefined`.
   */
  function Destructured(body: Option<JsValue>): Option<map<string, JsValue>> {
    match body
    case None => None
    case Some(Null) => None
    case Some(Object(fields)) => Some(fields)
    case Some(_) => Some(map[])
  }

  /** A body that is neither an object nor null or undefined gets the 400 reply, not the 500 one. */
  lemma NonObjectBodyIsIncomplete(v: JsValue)
    requires v != Null && !v.Object?
    ensures ContactReply(Destructured(Some(v))) == Missing
  {
    assert !Truthy(Field(map[], "name"));
  }

  /** Only a null or undefined body makes the handler fail. */
  lemma FailsOnlyWithoutBody(body: Option<JsValue>)
    ensures ContactReply(Destructured(body)) == Failed <==> body.None? || body == Some(Null)
  {
  }

  /**
   * Only the truthiness of the four fields matters: which field is missing, what the
   * present ones hold and any further keys do not change the reply.
   */
  lemma ReplyDependsOnlyOnPresence(a: map<string, JsValue>, b: map<string, JsValue>)
    requires (forall k :: k in RequiredFields ==> (Truthy(Field(a, k)) <==> Truthy(Field(b, k)))) || (!Complete(a) && !Complete(b))
    ensures ContactReply(Some(a)) == ContactReply(Some(b))
  {
  }
}
