/**
 * The decision the webhook loop takes for one inbound event: whether the user
 * is touched at all, and which reply, if any, follows.
 */
module Events {
  import opened Optional
  import opened JsStrings

  type UserId = string

  /** `e.message`: its `type` and, for a text message, its `text`. */
  datatype Message = Message(kind: string, text: JsString)

  /**
   * One entry of `req.body.events`: `userId` is `e.source?.userId` (absent when
   * either link is missing), `kind` is `e.type`.
   */
  datatype Event = Event(userId: Option<UserId>, kind: string, message: Option<Message>, replyToken: string)

  /** What follows the touch of the user. */
  datatype Response =
    | Generated(text: JsString)   // a reply generated from the message text
    | Greeting                    // the fixed greeting for a new follower
    | Silent                      // no reply
    | Crash                       // `e.message.type` read on a message event without a message: a TypeError

  datatype Action = Skip | Touch(user: UserId, response: Response)

  /** `!userId`: an absent id and the empty string are both falsy. */
  predicate HasUser(e: Event) {
    e.userId.Some? && e.userId.value != ""
  }

  predicate IsTextMessage(e: Event) {
    e.kind == "message" && e.message.Some? && e.message.value.kind == "text"
  }

  /**
   * The loop body of `POST /webhook` for one event. An event without a user id
   * is skipped; every other event touches its user first, whatever its type.
   */
  function Decide(e: Event): (a: Action)
    ensures a.Skip? <==> !HasUser(e)
    ensures a.Touch? ==> a.user == e.userId.value
    ensures a.Touch? ==> (a.response.Generated? <==> IsTextMessage(e))
    ensures a.Touch? && IsTextMessage(e) ==> a.response.text == e.message.value.text
    ensures a.Touch? ==> (a.response.Greeting? <==> e.kind == "follow")
    ensures a.Touch? ==> (a.response.Crash? <==> e.kind == "message" && e.message.None?)
  {
    if !HasUser(e) then Skip
    else
      var response :=
        if e.kind == "message" then
          match e.message
          case None => Crash
          case Some(m) => if m.kind == "text" then Generated(m.text) else Silent
        else if e.kind == "follow" then Greeting
        else Silent;
      Touch(e.userId.value, response)
  }
}
