/**
 * The chat widget `AiChatbot` (controllers/chat.controller.js): its
 * transcript, the request payload it sends for each user turn, and the
 * `messages` / `isLoading` / `error` state that `handleSubmit` and
 * `sendMessage` update.  Rendering is not modelled; the network call is an
 * input, and so are the ids and timestamps taken from the clock.
 */
module Chat {
  import opened Wrappers
  import opened JsString

  /** The `type` field of a transcript entry: `"user"` or `"bot"`. */
  datatype Sender = User | Bot

  /**
   * One transcript entry (`Message` in types/chat.ts).  `content` is `None`
   * when the value stored is `undefined` (a reply with neither field set).
   * `id` and `timestamp` are clock readings supplied by the caller.
   */
  datatype Message = Message(id: string, content: Option<string>, sender: Sender, timestamp: int)

  /** One element of the request's `messages` array; `None` content is dropped by `JSON.stringify`. */
  datatype ApiMessage = ApiMessage(role: string, content: Option<string>)

  /** The parsed reply body: only the two fields the widget reads, each absent or a string. */
  datatype ResponseBody = ResponseBody(response: Option<string>, message: Option<string>)

  /** How the `fetch` of a turn ends: a parsed body, or any of the failures the `catch` receives. */
  datatype FetchResult = Received(data: ResponseBody) | Failed

  const FailureText: string := "Failed to get response. Please try again."

  /** `msg.type === "user" ? "user" : "assistant"`. */
  function RoleOf(sender: Sender): (role: string)
    ensures role == "user" || role == "assistant"
    ensures role == "user" <==> sender == User
  {
    if sender == User then "user" else "assistant"
  }

  /** `messages.map(msg => ({ role: …, content: msg.content }))`. */
  function History(transcript: seq<Message>): (r: seq<ApiMessage>)
    ensures |r| == |transcript|
    ensures forall i :: 0 <= i < |r| ==>
      r[i].content == transcript[i].content && r[i].role == RoleOf(transcript[i].sender)
  {
    if transcript == [] then []
    else [ApiMessage(RoleOf(transcript[0].sender), transcript[0].content)] + History(transcript[1..])
  }

  /**
   * The `messages` array of the request body: the transcript in order,
   * role-tagged, then the new user turn once, at the end.
   */
  function BuildPayload(transcript: seq<Message>, message: string): (r: seq<ApiMessage>)
    ensures |r| == |transcript| + 1
    ensures forall i :: 0 <= i < |transcript| ==>
      r[i].content == transcript[i].content &&
      (r[i].role == "user" <==> transcript[i].sender == User) &&
      (r[i].role == "user" || r[i].role == "assistant")
    ensures r[|transcript|] == ApiMessage("user", Some(message))
  {
    History(transcript) + [ApiMessage("user", Some(message))]
  }

  /** `data.response || data.message`: the first field when it is a non-empty string, else the second. */
  function ReplyContent(data: ResponseBody): Option<string>
  {
    if data.response.Some? && data.response.value != [] then data.response else data.message
  }

  /** Mapping a transcript is compatible with splitting it. */
  lemma HistoryAppend(a: seq<Message>, b: seq<Message>)
    ensures History(a + b) == History(a) + History(b)
  {
  }

  /**
   * After a completed exchange (the user turn `u` carrying `message`, then
   * the reply `b`), the next request repeats the previous one and adds
   * exactly the reply and the new turn: what is sent upstream only grows.
   */
  lemma PayloadGrowsByExchange(transcript: seq<Message>, message: string, u: Message, b: Message, next: string)
    requires u.sender == User && u.content == Some(message) && b.sender == Bot
    ensures BuildPayload(transcript + [u, b], next)
         == BuildPayload(transcript, message) + [ApiMessage("assistant", b.content), ApiMessage("user", Some(next))]
  {
  }

  /** The two-turn example: earlier user and assistant turns are kept in order before the new turn. */
  lemma TwoTurnExample(t0: int, t1: int)
    ensures BuildPayload([Message("1", Some("a"), User, t0), Message("2", Some("b"), Bot, t1)], "hi")
         == [ApiMessage("user", Some("a")), ApiMessage("assistant", Some("b")), ApiMessage("user", Some("hi"))]
  {
  }

  /** The widget's state: `useState` for the transcript, the loading flag and the error text. */
  class ChatWidget {
    var messages: seq<Message>
    var isLoading: bool
    var error: Option<string>

    /** Every user entry is a non-empty trimmed string; the only error text is the fixed one. */
    ghost predicate Valid()
      reads this
    {
      (forall i :: 0 <= i < |messages| && messages[i].sender == User ==>
        messages[i].content.Some? && IsTrimmed(messages[i].content.value)) &&
      (error.Some? ==> error.value == FailureText)
    }

    /** Initial state: `useState([])`, `useState(false)`, `useState(null)`. */
    constructor ()
      ensures Valid()
      ensures messages == [] && !isLoading && error == None
    {
      messages := [];
      isLoading := false;
      error := None;
    }

    /**
     * `sendMessage` up to its `await fetch`: sets the loading flag, clears
     * the error and builds the request from the transcript the submit saw.
     */
    method BeginSend(transcript: seq<Message>, message: string) returns (payload: seq<ApiMessage>)
      requires Valid()
      modifies this`isLoading, this`error
      ensures Valid()
      ensures isLoading && error == None && messages == old(messages)
      ensures payload == BuildPayload(transcript, message)
    {
      isLoading := true;
      error := None;
      payload := BuildPayload(transcript, message);
    }

    /**
     * `sendMessage` after its `await`: a reply appends one bot entry; any
     * failure sets the fixed error and keeps the transcript; either way the
     * loading flag ends cleared.
     */
    method Receive(outcome: FetchResult, id: string, now: int)
      requires Valid()
      modifies this
      ensures Valid()
      ensures !isLoading
      ensures outcome.Received? ==>
        messages == old(messages) + [Message(id, ReplyContent(outcome.data), Bot, now)] &&
        error == old(error)
      ensures outcome.Failed? ==> messages == old(messages) && error == Some(FailureText)
    {
      match outcome {
        case Received(data) =>
          messages := messages + [Message(id, ReplyContent(data), Bot, now)];
        case Failed =>
          error := Some(FailureText);
      }
      isLoading := false;
    }

    /**
     * `handleSubmit` up to the `await`: a blank input changes nothing and
     * sends nothing; otherwise the trimmed text is appended as one user
     * entry and the request is built from the transcript as it was before.
     */
    method HandleSubmit(input: string, id: string, now: int) returns (request: Option<seq<ApiMessage>>)
      requires Valid()
      modifies this
      ensures Valid()
      ensures Trim(input) == [] ==>
        request == None && messages == old(messages) &&
        isLoading == old(isLoading) && error == old(error)
      ensures Trim(input) != [] ==>
        request == Some(BuildPayload(old(messages), Trim(input))) &&
        messages == old(messages) + [Message(id, Some(Trim(input)), User, now)] &&
        isLoading && error == None
    {
      var message := Trim(input);
      if message == [] {
        return None;
      }
      var transcript := messages;
      messages := messages + [Message(id, Some(message), User, now)];
      var payload := BeginSend(transcript, message);
      request := Some(payload);
    }

    /**
     * One whole turn, `await handleSubmit(…)` with no other event in
     * between: the user entry and then the reply are appended, or the error
     * is set; the loading flag ends cleared.
     */
    method SubmitAndWait(input: string, userId: string, userTime: int,
                         outcome: FetchResult, botId: string, botTime: int)
      returns (request: Option<seq<ApiMessage>>)
      requires Valid()
      modifies this
      ensures Valid()
      ensures Trim(input) == [] ==>
        request == None && messages == old(messages) &&
        isLoading == old(isLoading) && error == old(error)
      ensures Trim(input) != [] ==>
        var turn := Message(userId, Some(Trim(input)), User, userTime);
        request == Some(BuildPayload(old(messages), Trim(input))) && !isLoading &&
        (outcome.Received? ==>
          messages == old(messages) + [turn, Message(botId, ReplyContent(outcome.data), Bot, botTime)] &&
          error == None) &&
        (outcome.Failed? ==> messages == old(messages) + [turn] && error == Some(FailureText))
    {
      request := HandleSubmit(input, userId, userTime);
      if request.Some? {
        Receive(outcome, botId, botTime);
      }
    }
  }
}
