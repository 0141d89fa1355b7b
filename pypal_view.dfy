/**
 * The PyPal chat page (python-programming-assistant/frontend/src/app/page.tsx):
 * the key form that initialises the backend, and `sendMessage`, which appends
 * the user's question, streams the answer into a placeholder bubble and
 * appends an apology bubble when anything fails.
 *
 * Clock readings (`new Date()`) are parameters, the network replies are
 * parameters (`InitReply`, `Reply`), and chunks arrive already decoded. A
 * thrown value appears as the text `${error}` gives for it.
 */
module PyPalView {
  import opened Text
  import opened Wrappers

  datatype Role = User | Assistant

  datatype Message = Message(role: Role, content: string, timestamp: int)

  const Greeting: string :=
    "Hi! I'm PyPal, your Python Programming Assistant! \U{1F40D}\n\n"
    + "I have access to comprehensive Python documentation and I'm here to help you with:\n\n"
    + "\U{2022} Python syntax and concepts\n"
    + "\U{2022} Code examples and explanations\n"
    + "\U{2022} Best practices and patterns\n"
    + "\U{2022} Debugging and troubleshooting\n\n"
    + "What Python question can I help you with today?"

  const MissingKeyAlert: string := "Please enter your OpenAI API key"
  const ErrorPrefix: string := "Sorry, I encountered an error: "

  // ---------------------------------------------------------------------------
  // Network replies, abstracted
  // ---------------------------------------------------------------------------

  /** The answer to POST /api/initialize: ok, a non-ok status with its body text, or a thrown error. */
  datatype InitReply = InitOk | InitRejected(body: string) | InitUnreachable(error: string)

  function InitAlert(reply: InitReply): (alert: string)
    ensures alert == "" <==> reply.InitOk?
  {
    match reply
    case InitOk => ""
    case InitRejected(body) => "Failed to initialize: " + body
    case InitUnreachable(error) => "Connection error: " + error
  }

  /** How the read loop ends: the reader reports done, or a read throws. */
  datatype StreamEnd = Completed | ReadFailed(error: string)

  /** The answer to POST /api/chat. */
  datatype Reply =
    | FetchFailed(error: string)
    | NotOk(status: nat)
    | OkWithoutReader
    | OkStream(chunks: seq<string>, end: StreamEnd)

  predicate IsFailure(reply: Reply) {
    reply.FetchFailed? || reply.NotOk? || (reply.OkStream? && reply.end.ReadFailed?)
  }

  /** `${error}` for the error that a failure throws; a non-ok status throws `new Error("HTTP " + status)`. */
  function FailureText(reply: Reply): string
    requires IsFailure(reply)
  {
    match reply
    case FetchFailed(e) => e
    case NotOk(status) => "Error: HTTP " + NatToString(status)
    case OkStream(_, end) => end.error
  }

  function ErrorBubble(reply: Reply, errStamp: int): (m: Message)
    requires IsFailure(reply)
    ensures m.role == Assistant && m.timestamp == errStamp
    ensures ErrorPrefix <= m.content && m.content[|ErrorPrefix|..] == FailureText(reply)
  {
    Message(Assistant, ErrorPrefix + FailureText(reply), errStamp)
  }

  // ---------------------------------------------------------------------------
  // Log updates made by sendMessage
  // ---------------------------------------------------------------------------

  /**
   * The update applied per chunk: the last slot is overwritten whatever it
   * holds. (On an empty array the assignment to index -1 adds no element.)
   */
  function ReplaceLast(log: seq<Message>, m: Message): (r: seq<Message>)
    ensures |r| == |log|
    ensures forall i :: 0 <= i < |log| - 1 ==> r[i] == log[i]
    ensures log != [] ==> r[|log| - 1] == m
  {
    if log == [] then log else log[..|log| - 1] + [m]
  }

  /** The log once an accepted send has settled, from the log holding the new user bubble. */
  function SettledLog(withUser: seq<Message>, reply: Reply, botStamp: int, errStamp: int): seq<Message> {
    match reply
    case FetchFailed(_) => withUser + [ErrorBubble(reply, errStamp)]
    case NotOk(_) => withUser + [ErrorBubble(reply, errStamp)]
    case OkWithoutReader => withUser + [Message(Assistant, "", botStamp)]
    case OkStream(chunks, end) =>
      var answer := withUser + [Message(Assistant, Concat(chunks), botStamp)];
      if end.Completed? then answer else answer + [ErrorBubble(reply, errStamp)]
  }

  /**
   * Nothing is ever removed: the log only grows, by the answer bubble, by one
   * apology bubble, or by a partial answer followed by one apology bubble.
   */
  lemma SettledLogGrows(withUser: seq<Message>, reply: Reply, botStamp: int, errStamp: int)
    ensures var settled := SettledLog(withUser, reply, botStamp, errStamp);
      && withUser <= settled
      && |settled| == |withUser| + (if reply.OkStream? && reply.end.ReadFailed? then 2 else 1)
      && settled[|settled| - 1].role == Assistant
      && (IsFailure(reply) ==> settled[|settled| - 1] == ErrorBubble(reply, errStamp))
      && (!IsFailure(reply) ==>
            settled[|settled| - 1] == Message(Assistant, if reply.OkStream? then Concat(reply.chunks) else "", botStamp))
      && (reply.OkStream? ==>
            settled[|withUser|] == Message(Assistant, Concat(reply.chunks), botStamp))
  {
    var settled := SettledLog(withUser, reply, botStamp, errStamp);
    if reply.OkStream? && reply.end.ReadFailed? {
      assert settled[..|withUser|] == withUser;
    }
  }

  // ---------------------------------------------------------------------------
  // The page state
  // ---------------------------------------------------------------------------

  datatype KeyAction = NoAction | RanInitialize | RanSend

  class PyPalChat {
    var messages: seq<Message>
    var input: string
    var apiKey: string
    var isLoading: bool
    var isInitialized: bool
    var showApiKeyInput: bool

    /**
     * The key form shows exactly until initialisation succeeds; before that
     * the log is empty, after it the log starts with the greeting.
     */
    ghost predicate Valid()
      reads this
    {
      && showApiKeyInput == !isInitialized
      && (!isInitialized ==> messages == [])
      && (isInitialized ==> messages != [] && messages[0].role == Assistant && messages[0].content == Greeting)
    }

    constructor ()
      ensures Valid()
      ensures messages == [] && input == "" && apiKey == ""
      ensures !isLoading && !isInitialized && showApiKeyInput
    {
      messages, input, apiKey := [], "", "";
      isLoading, isInitialized, showApiKeyInput := false, false, true;
    }

    method SetApiKey(key: string)
      modifies this`apiKey
      ensures apiKey == key
    {
      apiKey := key;
    }

    method SetInput(text: string)
      modifies this`input
      ensures input == text
    {
      input := text;
    }

    /** The state `initializeSystem` leaves, and the alert it shows. */
    twostate predicate InitSettled(reply: InitReply, now: int, new alert: Option<string>)
      reads this
    {
      && input == old(input) && apiKey == old(apiKey) && isLoading == old(isLoading)
      && (Blank(old(apiKey)) ==>
            && alert == Some(MissingKeyAlert)
            && messages == old(messages) && isInitialized == old(isInitialized)
            && showApiKeyInput == old(showApiKeyInput))
      && (!Blank(old(apiKey)) && reply.InitOk? ==>
            && alert.None?
            && isInitialized && !showApiKeyInput
            && messages == [Message(Assistant, Greeting, now)])
      && (!Blank(old(apiKey)) && !reply.InitOk? ==>
            && alert == Some(InitAlert(reply))
            && messages == old(messages) && isInitialized == old(isInitialized)
            && showApiKeyInput == old(showApiKeyInput))
    }

    /** Posts the key; `now` is the clock reading for the greeting. */
    method InitializeSystem(reply: InitReply, now: int) returns (alert: Option<string>)
      requires Valid()
      modifies this`messages, this`isInitialized, this`showApiKeyInput
      ensures Valid()
      ensures InitSettled(reply, now, alert)
    {
      // `!apiKey.trim()`, which TrimEmptyIffBlank shows to be Blank
      if Blank(apiKey) {
        return Some(MissingKeyAlert);
      }
      match reply {
        case InitOk =>
          isInitialized := true;
          showApiKeyInput := false;
          messages := [Message(Assistant, Greeting, now)];
          alert := None;
        case InitRejected(_) =>
          alert := Some(InitAlert(reply));
        case InitUnreachable(_) =>
          alert := Some(InitAlert(reply));
      }
    }

    /** The state `sendMessage` leaves. */
    twostate predicate SendSettled(userStamp: int, botStamp: int, errStamp: int, reply: Reply, new accepted: bool)
      reads this
    {
      && apiKey == old(apiKey) && isInitialized == old(isInitialized)
      && showApiKeyInput == old(showApiKeyInput)
      && (accepted <==> !Blank(old(input)) && !old(isLoading) && old(isInitialized))
      && (!accepted ==> messages == old(messages) && input == old(input) && isLoading == old(isLoading))
      && (accepted ==>
            && messages == SettledLog(old(messages) + [Message(User, old(input), userStamp)], reply, botStamp, errStamp)
            && input == "" && !isLoading)
    }

    /**
     * The read loop: the accumulated answer overwrites the last slot with the
     * placeholder's role and timestamp after every chunk.
     */
    method StreamChunks(withUser: seq<Message>, botStamp: int, chunks: seq<string>) returns (content: string)
      requires messages == withUser + [Message(Assistant, "", botStamp)]
      modifies this`messages
      ensures content == Concat(chunks)
      ensures messages == withUser + [Message(Assistant, content, botStamp)]
    {
      content := "";
      var i := 0;
      while i < |chunks|
        invariant 0 <= i <= |chunks|
        invariant content == Concat(chunks[..i])
        invariant messages == withUser + [Message(Assistant, content, botStamp)]
      {
        assert chunks[..i + 1][..i] == chunks[..i];
        content := content + chunks[i];
        messages := ReplaceLast(messages, Message(Assistant, content, botStamp));
        assert messages[..|withUser|] == withUser;
        i := i + 1;
      }
      assert chunks[..i] == chunks;
    }

    /**
     * Sends the typed question. `userStamp`, `botStamp` and `errStamp` are the
     * clock readings for the user bubble, the placeholder and an apology.
     */
    method SendMessage(userStamp: int, botStamp: int, errStamp: int, reply: Reply) returns (accepted: bool)
      requires Valid()
      modifies this`messages, this`input, this`isLoading
      ensures Valid()
      ensures SendSettled(userStamp, botStamp, errStamp, reply, accepted)
    {
      // `!input.trim()`, which TrimEmptyIffBlank shows to be Blank
      if Blank(input) || isLoading || !isInitialized {
        return false;
      }
      accepted := true;
      var withUser := messages + [Message(User, input, userStamp)];
      messages := withUser;
      input := "";
      isLoading := true;
      match reply {
        case FetchFailed(_) =>
          messages := messages + [ErrorBubble(reply, errStamp)];
        case NotOk(_) =>
          messages := messages + [ErrorBubble(reply, errStamp)];
        case OkWithoutReader =>
          messages := messages + [Message(Assistant, "", botStamp)];
        case OkStream(chunks, end) =>
          messages := messages + [Message(Assistant, "", botStamp)];
          var content := StreamChunks(withUser, botStamp, chunks);
          if end.ReadFailed? {
            messages := messages + [ErrorBubble(reply, errStamp)];
          }
      }
      isLoading := false;
    }

    /** Enter without Shift initialises while the key form shows and sends otherwise. */
    method HandleKeyPress(key: string, shift: bool, initReply: InitReply, now: int,
                          userStamp: int, botStamp: int, errStamp: int, reply: Reply)
      returns (action: KeyAction, alert: Option<string>, accepted: bool)
      requires Valid()
      modifies this`messages, this`input, this`isLoading, this`isInitialized, this`showApiKeyInput
      ensures Valid()
      ensures action == if key == "Enter" && !shift then (if old(showApiKeyInput) then RanInitialize else RanSend) else NoAction
      ensures action == RanInitialize ==> InitSettled(initReply, now, alert)
      ensures action == RanSend ==> SendSettled(userStamp, botStamp, errStamp, reply, accepted)
      ensures action != RanSend ==> !accepted
      ensures action == NoAction ==>
        && alert.None? && messages == old(messages) && input == old(input) && isLoading == old(isLoading)
        && isInitialized == old(isInitialized) && showApiKeyInput == old(showApiKeyInput)
    {
      alert, accepted := None, false;
      if key == "Enter" && !shift {
        if showApiKeyInput {
          action := RanInitialize;
          alert := InitializeSystem(initReply, now);
        } else {
          action := RanSend;
          accepted := SendMessage(userStamp, botStamp, errStamp, reply);
        }
      } else {
        action := NoAction;
      }
    }
  }
}
