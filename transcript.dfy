/**
 * The transcript controller of the support chat page: the ordered list of
 * messages, the input buffer and the loading flag, and how sending a message
 * changes them. The awaited request is split in two steps: `Begin` does what
 * happens before the request is sent, `Settle` what happens once it settles,
 * given its outcome.
 */
module Transcript {
  import opened Js
  import opened Normalizer

  const AGENT_ID := "695cb642c2dad05ba69ae2b8"
  const QUICK_REPLY_TOPICS := ["Pricing Plans", "Features Overview", "Account Help", "Billing Questions"]
  /** The opening both error replies share. */
  const ERROR_LEAD := "Sorry, I encountered an error"
  const ERROR_PREFIX := ERROR_LEAD + ": "
  const ERROR_FALLBACK := "Unable to process your request"
  const CONNECTION_TAIL := " connecting to the service. Please try again."
  const CONNECTION_ERROR := ERROR_LEAD + CONNECTION_TAIL

  datatype Role = User | Agent

  /** A message of the transcript; `timestamp` is in milliseconds since the epoch. */
  datatype Message = Message(
    id: string,
    role: Role,
    content: string,
    timestamp: nat,
    escalationSuggested: Option<bool>)

  /** How the request settled: the fetch or the JSON parse threw, the agent reported a failure, or it succeeded. */
  datatype Outcome =
    | Transport
    | AppFailure(error: Option<string>)
    | Success(response: Payload)

  /** The JSON body posted to the agent endpoint. */
  datatype AgentRequest = AgentRequest(message: string, agentId: string, userId: string, sessionId: string)

  /** Which of the three id templates a message id follows. */
  datatype IdKind = UserId | AgentId | ErrorId

  function IdSuffix(kind: IdKind): string {
    match kind
    case UserId => ""
    case AgentId => "-agent"
    case ErrorId => "-error"
  }

  /** `msg-${Date.now()}` followed by the template's suffix. */
  function MessageId(now: nat, kind: IdKind): string {
    "msg-" + Decimal(now) + IdSuffix(kind)
  }

  /** Digits followed by a suffix that is empty or starts with '-' split in only one way. */
  lemma DigitsThenSuffix(d1: string, x1: string, d2: string, x2: string)
    requires forall k :: 0 <= k < |d1| ==> IsDigit(d1[k])
    requires forall k :: 0 <= k < |d2| ==> IsDigit(d2[k])
    requires x1 == [] || x1[0] == '-'
    requires x2 == [] || x2[0] == '-'
    requires d1 + x1 == d2 + x2
    ensures d1 == d2 && x1 == x2
  {
    var u := d1 + x1;
    assert d1 == u[..|d1|] && d2 == u[..|d2|];
    assert x1 == u[|d1|..] && x2 == u[|d2|..];
  }

  /** When two strings with the same prefix are equal, so are the parts after it. */
  lemma CommonPrefix(p: string, a: string, b: string)
    requires p + a == p + b
    ensures a == b
  {
    assert a == (p + a)[|p|..] && b == (p + b)[|p|..];
  }

  /**
   * Two message ids are equal exactly when they were made in the same
   * millisecond from the same template: a user message and its reply never
   * share an id, but two messages of one kind made in one millisecond do.
   */
  lemma MessageIdCollision(t1: nat, k1: IdKind, t2: nat, k2: IdKind)
    ensures MessageId(t1, k1) == MessageId(t2, k2) <==> t1 == t2 && k1 == k2
  {
    if MessageId(t1, k1) == MessageId(t2, k2) {
      var d1, d2 := Decimal(t1), Decimal(t2);
      var x1, x2 := IdSuffix(k1), IdSuffix(k2);
      assert MessageId(t1, k1) == "msg-" + (d1 + x1);
      assert MessageId(t2, k2) == "msg-" + (d2 + x2);
      CommonPrefix("msg-", d1 + x1, d2 + x2);
      DigitsThenSuffix(d1, x1, d2, x2);
      DecimalInjective(t1, t2);
    }
  }

  /** `messageText || inputValue.trim()`: an explicit text is sent verbatim, otherwise the trimmed input. */
  function TextToSend(messageText: Option<string>, input: string): string {
    Or(messageText, Trim(input))
  }

  /** A send is rejected exactly when no explicit text is given and the input is all whitespace. */
  lemma SendRejected(messageText: Option<string>, input: string)
    ensures TextToSend(messageText, input) == "" <==> !Truthy(messageText) && Blank(input)
  {
  }

  /** The user's message for an accepted send. */
  function UserMessage(text: string, now: nat): Message {
    Message(MessageId(now, UserId), User, text, now, None)
  }

  /**
   * The one agent message a settled request adds. Its kind follows the
   * outcome, only a success carries an escalation flag, and the two error
   * replies are never empty.
   */
  function AgentReply(outcome: Outcome, now: nat): (m: Message)
    ensures m.role == Agent && m.timestamp == now
    ensures m.id == MessageId(now, if outcome.Success? then AgentId else ErrorId)
    ensures m.escalationSuggested.Some? <==> outcome.Success?
    ensures !outcome.Success? ==> m.content != ""
  {
    match outcome
    case Transport =>
      Message(MessageId(now, ErrorId), Agent, CONNECTION_ERROR, now, None)
    case AppFailure(error) =>
      Message(MessageId(now, ErrorId), Agent, ERROR_PREFIX + Or(error, ERROR_FALLBACK), now, None)
    case Success(response) =>
      var n := Normalize(response);
      Message(MessageId(now, AgentId), Agent, n.text, now, Some(n.escalationSuggested))
  }

  /** A success is shown as the normalised payload, with its escalation flag. */
  lemma ReplyOnSuccess(response: Payload, now: nat)
    ensures AgentReply(Success(response), now).content == Normalize(response).text
    ensures AgentReply(Success(response), now).escalationSuggested == Some(Normalize(response).escalationSuggested)
  {
  }

  /**
   * An application failure quotes the agent's error after the fixed prefix,
   * or the fallback text when the error is missing or empty.
   */
  lemma ReplyOnAppFailure(error: Option<string>, now: nat)
    ensures var c := AgentReply(AppFailure(error), now).content;
      |c| > |ERROR_PREFIX| && c[..|ERROR_PREFIX|] == ERROR_PREFIX
      && c[|ERROR_PREFIX|..] == (if Truthy(error) then error.value else ERROR_FALLBACK)
  {
    var c := AgentReply(AppFailure(error), now).content;
    assert c == ERROR_PREFIX + Or(error, ERROR_FALLBACK);
  }

  /** A transport failure is shown as the fixed connection error, which no application failure reply equals. */
  lemma ReplyOnTransport(error: Option<string>, now: nat, later: nat)
    ensures AgentReply(Transport, now).content == CONNECTION_ERROR
    ensures AgentReply(Transport, now).content != AgentReply(AppFailure(error), later).content
  {
    var c := AgentReply(AppFailure(error), later).content;
    assert c[|ERROR_LEAD|] == ':';
    assert CONNECTION_TAIL == [' '] + CONNECTION_TAIL[1..];
    assert CONNECTION_ERROR[|ERROR_LEAD|] == ' ';
  }

  /** Whether messages alternate user, agent, user, ... from the start. */
  ghost predicate Alternating(messages: seq<Message>) {
    forall i :: 0 <= i < |messages| ==> (messages[i].role == User <==> i % 2 == 0)
  }

  /** No user message is empty or carries an escalation flag. */
  ghost predicate UserMessagesWellFormed(messages: seq<Message>) {
    forall i :: 0 <= i < |messages| && messages[i].role == User ==>
      messages[i].content != "" && messages[i].escalationSuggested == None
  }

  /** Appending the message whose turn it is keeps the transcript's shape. */
  lemma AppendKeepsShape(messages: seq<Message>, m: Message)
    requires Alternating(messages) && UserMessagesWellFormed(messages)
    requires m.role == User <==> |messages| % 2 == 0
    requires m.role == User ==> m.content != "" && m.escalationSuggested == None
    ensures Alternating(messages + [m]) && UserMessagesWellFormed(messages + [m])
  {
    var ms := messages + [m];
    forall i | 0 <= i < |ms|
      ensures ms[i].role == User <==> i % 2 == 0
      ensures ms[i].role == User ==> ms[i].content != "" && ms[i].escalationSuggested == None
    {
      if i < |messages| {
        assert ms[i] == messages[i];
      }
    }
  }

  /**
   * The chat page's state. `sessionId` and `userId` are fixed when the page
   * starts; the rest changes as messages are sent.
   */
  class ChatSession {
    var messages: seq<Message>
    var input: string
    var loading: bool
    const sessionId: string
    const userId: string

    /**
     * The invariant the page keeps, given that its controls are disabled
     * while a request is outstanding: user and agent messages alternate, a
     * request is outstanding exactly when the last message is the user's,
     * the input stays empty meanwhile, and no user message is empty or
     * carries an escalation flag.
     */
    ghost predicate Valid()
      reads this
    {
      && Alternating(messages)
      && UserMessagesWellFormed(messages)
      && (loading <==> |messages| % 2 == 1)
      && (loading ==> input == "")
    }

    /**
     * The page as first rendered. The session id and the user id each read
     * the clock, at times `sessionNow` and `userNow`, which may differ.
     */
    constructor (sessionNow: nat, userNow: nat)
      ensures Valid()
      ensures messages == [] && input == "" && !loading
      ensures sessionId == "session-" + Decimal(sessionNow) && userId == "user-" + Decimal(userNow)
    {
      messages := [];
      input := "";
      loading := false;
      sessionId := "session-" + Decimal(sessionNow);
      userId := "user-" + Decimal(userNow);
    }

    /** Typing in the input field, which is disabled while loading. */
    method Type(value: string)
      requires Valid() && !loading
      modifies this
      ensures Valid()
      ensures input == value && messages == old(messages) && loading == old(loading)
    {
      input := value;
    }

    /**
     * The part of `handleSendMessage` before the request is awaited. A send
     * with no text to send changes nothing and posts nothing; otherwise it
     * appends the user's message, clears the input, sets loading and returns
     * the body it posts.
     */
    method Begin(messageText: Option<string>, now: nat) returns (request: Option<AgentRequest>)
      requires Valid() && !loading
      modifies this
      ensures Valid()
      ensures request.Some? <==> TextToSend(messageText, old(input)) != ""
      ensures request.None? ==>
        messages == old(messages) && input == old(input) && loading == old(loading)
      ensures request.Some? ==>
        var text := TextToSend(messageText, old(input));
        && request.value == AgentRequest(text, AGENT_ID, userId, sessionId)
        && messages == old(messages) + [UserMessage(text, now)]
        && input == "" && loading
    {
      var text := TextToSend(messageText, input);
      if text == "" {
        return None;
      }
      var m := UserMessage(text, now);
      AppendKeepsShape(messages, m);
      messages := messages + [m];
      input := "";
      loading := true;
      request := Some(AgentRequest(text, AGENT_ID, userId, sessionId));
    }

    /**
     * The part of `handleSendMessage` after the request settles: exactly one
     * agent message is appended, whatever the outcome, and loading is cleared.
     */
    method Settle(outcome: Outcome, now: nat)
      requires Valid() && loading
      modifies this
      ensures Valid()
      ensures messages == old(messages) + [AgentReply(outcome, now)]
      ensures !loading && input == old(input)
    {
      AppendKeepsShape(messages, AgentReply(outcome, now));
      messages := messages + [AgentReply(outcome, now)];
      loading := false;
    }

    /**
     * `handleSendMessage` as a whole, the request settling with `outcome` at
     * time `later`: a completed round trip adds the user's message and one
     * reply, and a rejected send adds nothing.
     */
    method SendMessage(messageText: Option<string>, outcome: Outcome, now: nat, later: nat)
        returns (request: Option<AgentRequest>)
      requires Valid() && !loading
      modifies this
      ensures Valid() && !loading
      ensures var text := TextToSend(messageText, old(input));
        if text == "" then
          request == None && messages == old(messages) && input == old(input)
        else
          && request == Some(AgentRequest(text, AGENT_ID, userId, sessionId))
          && messages == old(messages) + [UserMessage(text, now), AgentReply(outcome, later)]
          && |messages| == |old(messages)| + 2
          && input == ""
    {
      request := Begin(messageText, now);
      if request.Some? {
        Settle(outcome, later);
      }
    }

    /**
     * A quick-reply chip sends its topic verbatim. The chips are shown only
     * on an empty, idle transcript, and offer only the fixed topics, none of
     * them empty, so the send is always accepted.
     */
    method QuickReply(topic: string, now: nat) returns (request: Option<AgentRequest>)
      requires Valid() && QuickRepliesShown() && topic in QUICK_REPLY_TOPICS
      modifies this
      ensures Valid()
      ensures request == Some(AgentRequest(topic, AGENT_ID, userId, sessionId))
      ensures messages == [UserMessage(topic, now)] && input == "" && loading
    {
      QuickReplyAccepted(topic, input);
      request := Begin(Some(topic), now);
    }

    /** Enter without Shift sends the input; any other key does nothing. */
    method KeyPress(key: string, shift: bool, now: nat) returns (request: Option<AgentRequest>)
      requires Valid() && !loading
      modifies this
      ensures Valid()
      ensures !(key == "Enter" && !shift) ==>
        request == None && messages == old(messages) && input == old(input) && loading == old(loading)
      ensures key == "Enter" && !shift ==>
        (request.Some? <==> !Blank(old(input)))
      ensures key == "Enter" && !shift && request.None? ==>
        messages == old(messages) && input == old(input) && loading == old(loading)
      ensures key == "Enter" && !shift && request.Some? ==>
        var text := Trim(old(input));
        && request.value == AgentRequest(text, AGENT_ID, userId, sessionId)
        && messages == old(messages) + [UserMessage(text, now)]
        && input == "" && loading
    {
      if key == "Enter" && !shift {
        request := Begin(None, now);
        SendRejected(None, old(input));
      } else {
        request := None;
      }
    }

    /** Whether the send button is enabled: `disabled={!inputValue.trim() || isLoading}`. */
    function SendEnabled(): bool
      reads this
    {
      Trim(input) != "" && !loading
    }

    /** Whether the quick-reply chips are shown: only on an empty, idle transcript. */
    function QuickRepliesShown(): bool
      reads this
    {
      |messages| == 0 && !loading
    }
  }

  /** The send button is enabled exactly when a send of the input would be accepted. */
  lemma SendButtonMatchesGuard(c: ChatSession)
    ensures c.SendEnabled() <==> !c.loading && TextToSend(None, c.input) != ""
  {
  }

  /** Every offered topic is non-empty, so a quick reply is always accepted and sent verbatim. */
  lemma QuickReplyAccepted(topic: string, input: string)
    requires topic in QUICK_REPLY_TOPICS
    ensures topic != "" && TextToSend(Some(topic), input) == topic
  {
    assert Truthy(Some(topic));
  }
}
