// The membership middleware in front of the chat routes: the caller must be
// signed in, name a chat, and have a participant row in it. Unlike the
// socket and message operations, it makes no exception for the general room.

module ChatMiddleware {
  import opened Types
  import opened Persistence
  import opened JsText

  /** `req.body.chatId` as it arrives: missing, a string, or an integer. */
  datatype BodyValue = Missing | TextValue(s: string) | NumberValue(n: int)

  /** What the middleware does: pass on to the controller, or answer with a
      status and a message. */
  datatype Outcome = Next | Reject(status: int, message: string)

  /** `req.params.chatId || req.body.chatId`, then `parseInt` when truthy.
      None is `null` or `NaN`. */
  function ChatIdOf(params: Option<string>, body: BodyValue): (r: Option<int>)
    ensures TruthyText(params) ==> r == ParseInt(params.value)
    ensures !TruthyText(params) && body.Missing? ==> r.None?
  {
    if TruthyText(params) then ParseInt(params.value)
    else match body
      case Missing => None
      case TextValue(s) => if s == "" then None else ParseInt(s)
      case NumberValue(n) => if n == 0 then None else Some(n)
  }

  /** A route parameter written as the decimal text of a positive id
      names that chat. */
  lemma RouteParamNamesChat(id: nat)
    requires 0 < id
    ensures ChatIdOf(Some(DecimalText(id)), Missing) == Some(id)
  {
    ParseIntDecimal(id, []);
    assert DecimalText(id) + [] == DecimalText(id);
  }

  /** JavaScript truthiness of an optional number (`undefined`, 0 and NaN
      are falsy). */
  predicate TruthyNumber(n: Option<int>)
  {
    n.Some? && n.value != 0
  }

  /** `verificarMiembroDelChat`. Store call 0 is the participant lookup. */
  function VerificarMiembroDelChat(st: Store, userId: Option<int>, params: Option<string>, body: BodyValue, fail: Fault)
    : (o: Outcome)
    reads st
    ensures o == Reject(401, "no autenticado") <==> !TruthyNumber(userId)
    ensures o == Reject(400, "chatId requerido") <==> TruthyNumber(userId) && !TruthyNumber(ChatIdOf(params, body))
    ensures o == Reject(500, "error al verificar permisos") <==>
              TruthyNumber(userId) && TruthyNumber(ChatIdOf(params, body)) && Throws(fail, 0)
    ensures o.Next? <==>
              && TruthyNumber(userId) && TruthyNumber(ChatIdOf(params, body)) && !Throws(fail, 0)
              && (ChatIdOf(params, body).value, userId.value) in st.participants
    ensures o == Reject(403, "no tienes permiso para acceder a este chat") <==>
              && TruthyNumber(userId) && TruthyNumber(ChatIdOf(params, body)) && !Throws(fail, 0)
              && (ChatIdOf(params, body).value, userId.value) !in st.participants
    ensures o.Reject? ==> o.status in {400, 401, 403, 500}
    ensures o.Reject? && o.status == 403 ==> o.message == "no tienes permiso para acceder a este chat"
  {
    var chatId := ChatIdOf(params, body);
    if !TruthyNumber(userId) then Reject(401, "no autenticado")
    else if !TruthyNumber(chatId) then Reject(400, "chatId requerido")
    else if Throws(fail, 0) then Reject(500, "error al verificar permisos")
    else if !st.IsParticipant(chatId.value, userId.value) then Reject(403, "no tienes permiso para acceder a este chat")
    else Next
  }

  /** Through this middleware the general room is as closed as any other
      chat: without a participant row even a signed-in user is refused. */
  lemma GeneralRoomNotExempt(st: Store, userId: int)
    requires userId != 0 && (GeneralChatId, userId) !in st.participants
    ensures VerificarMiembroDelChat(st, Some(userId), Some("1"), Missing, NoFault)
              == Reject(403, "no tienes permiso para acceder a este chat")
  {
    assert ChatIdOf(Some("1"), Missing) == Some(1) by {
      ParseIntDecimal(1, []);
      assert DecimalText(1) + [] == "1";
    }
  }
}
