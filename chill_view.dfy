/**
 * The ChillGPT chat page (frontend/app/page.tsx): the relative-time label and
 * token estimate shown beside messages, the personality presets, the request
 * history, and the page state that `handleSend`, the scroll handler and the
 * auto-scroll effect update.
 *
 * Clock readings (`Date.now()`) are parameters, the network reply is a
 * parameter (see `Reply`), and every chunk arrives already decoded.
 */
module ChillView {
  import opened Text
  import opened Wrappers

  /** A chat bubble. On this page `role` is "user" or "bot". */
  datatype Message = Message(role: string, content: string, timestamp: int)

  /** One entry of the `messages` list posted to /api/chat. */
  datatype ApiMessage = ApiMessage(role: string, content: string)

  const BotRole: string := "bot"
  const UserRole: string := "user"
  const Greeting: string := "Hey, what's up?"
  const MissingKeyError: string := "You forgot your API key! (Don't worry, I won't tell anyone.)"
  const NoBodyError: string := "No response body. The AI is being shy."
  const UnknownError: string := "Unknown error occurred"
  const FallbackError: string := "Something went wrong! Maybe the AI is on a coffee break? \U{2615}\U{FE0F}"

  // ---------------------------------------------------------------------------
  // Relative time labels (formatRelativeTime)
  // ---------------------------------------------------------------------------

  const MillisPerMinute: int := 60_000
  const MillisPerHour: int := 3_600_000
  const MillisPerDay: int := 86_400_000

  datatype RelativeTime = JustNow | MinutesAgo(minutes: nat) | HoursAgo(hours: nat) | DaysAgo(days: nat)

  /**
   * The bucket of the age `now - timestamp` (milliseconds): whole minutes,
   * hours or days elapsed, or "just now" below one minute, including every
   * timestamp from the future.
   */
  function Classify(now: int, timestamp: int): (r: RelativeTime)
    ensures r == JustNow <==> now - timestamp < MillisPerMinute
    ensures r.MinutesAgo? ==>
      1 <= r.minutes < 60 && MillisPerMinute * r.minutes <= now - timestamp < MillisPerMinute * (r.minutes + 1)
    ensures r.HoursAgo? ==>
      1 <= r.hours < 24 && MillisPerHour * r.hours <= now - timestamp < MillisPerHour * (r.hours + 1)
    ensures r.DaysAgo? ==>
      1 <= r.days && MillisPerDay * r.days <= now - timestamp < MillisPerDay * (r.days + 1)
  {
    var diff := now - timestamp;
    // Math.floor of a quotient by a positive divisor is Dafny's integer division
    var seconds := diff / 1000;
    var minutes := seconds / 60;
    var hours := minutes / 60;
    var days := hours / 24;
    if seconds < 60 then JustNow
    else if minutes < 60 then MinutesAgo(minutes)
    else if hours < 24 then HoursAgo(hours)
    else DaysAgo(days)
  }

  function Render(t: RelativeTime): string {
    match t
    case JustNow => "just now"
    case MinutesAgo(m) => NatToString(m) + "m ago"
    case HoursAgo(h) => NatToString(h) + "h ago"
    case DaysAgo(d) => NatToString(d) + "d ago"
  }

  /** The label under a bubble whose timestamp is `timestamp`, read at time `now`. */
  function FormatRelativeTime(now: int, timestamp: int): (r: string)
    ensures ParseRelativeTime(r) == Some(Classify(now, timestamp))
  {
    RenderRoundTrip(Classify(now, timestamp));
    Render(Classify(now, timestamp))
  }

  /** Reads a label back: a number followed by its unit, or "just now". */
  function ParseRelativeTime(s: string): Option<RelativeTime> {
    if s == "just now" then Some(JustNow)
    else if |s| <= 5 || !AllDigits(s[..|s| - 5]) then None
    else
      var n := ParseDigits(s[..|s| - 5]);
      var unit := s[|s| - 5..];
      if unit == "m ago" then Some(MinutesAgo(n))
      else if unit == "h ago" then Some(HoursAgo(n))
      else if unit == "d ago" then Some(DaysAgo(n))
      else None
  }

  /** No two buckets share a label: the label determines the bucket and its count. */
  lemma RenderRoundTrip(t: RelativeTime)
    ensures ParseRelativeTime(Render(t)) == Some(t)
  {
    match t
    case JustNow =>
    case MinutesAgo(n) => UnitLabelRoundTrip(n, "m ago");
    case HoursAgo(n) => UnitLabelRoundTrip(n, "h ago");
    case DaysAgo(n) => UnitLabelRoundTrip(n, "d ago");
  }

  lemma UnitLabelRoundTrip(n: nat, unit: string)
    requires |unit| == 5
    ensures var s := NatToString(n) + unit;
      && s != "just now" && |s| > 5
      && s[..|s| - 5] == NatToString(n) && s[|s| - 5..] == unit
      && AllDigits(s[..|s| - 5]) && ParseDigits(s[..|s| - 5]) == n
  {
    var s := NatToString(n) + unit;
    assert s[..|s| - 5] == NatToString(n);
    assert s[|s| - 5..] == unit;
    ParseNatToString(n);
    assert IsDigit(s[0]);
  }

  // ---------------------------------------------------------------------------
  // Input counters under the text box
  // ---------------------------------------------------------------------------

  /**
   * `Math.ceil(text.length / 4)`: the least k with 4k >= `text.length`, where
   * the length counts UTF-16 code units as JavaScript does.
   */
  function EstimateTokens(text: string): (k: nat)
    ensures 4 * k >= Utf16Length(text)
    ensures k > 0 ==> 4 * (k - 1) < Utf16Length(text)
  {
    (Utf16Length(text) + 3) / 4
  }

  /** `userMessage.length > 1000`, again in UTF-16 code units. */
  predicate IsLongMessage(text: string) {
    Utf16Length(text) > 1000
  }

  /** The warning style marks exactly the inputs estimated above 250 tokens. */
  lemma LongMessageTokens(text: string)
    ensures IsLongMessage(text) <==> EstimateTokens(text) > 250
  {
  }

  /**
   * A character outside the Basic Multilingual Plane counts twice: three
   * snakes are six code units, so two tokens, not one.
   */
  lemma EstimateTokensAstral()
    ensures EstimateTokens("\U{1F40D}\U{1F40D}\U{1F40D}") == 2
  {
    var s := "\U{1F40D}\U{1F40D}\U{1F40D}";
    var snake := '\U{1F40D}';
    assert Utf16Units(snake) == 2;
    assert s[..1][..0] == [];
    assert Utf16Length(s[..1]) == 2;
    assert s[..2][..1] == s[..1];
    assert Utf16Length(s[..2]) == 4;
    assert s[..|s| - 1] == s[..2];
  }

  /** Plain text (no character beyond U+FFFF) is counted one unit per character. */
  lemma EstimateTokensBmp(text: string)
    requires forall i :: 0 <= i < |text| ==> text[i] as int <= 0xFFFF
    ensures EstimateTokens(text) == (|text| + 3) / 4
    ensures IsLongMessage(text) <==> |text| > 1000
  {
    Utf16LengthBounds(text);
  }

  // ---------------------------------------------------------------------------
  // Personality presets (SYSTEM_PROMPTS)
  // ---------------------------------------------------------------------------

  const DefaultPreset: string := "default"

  /** Every personality prompt opens with these words. */
  const YouAre: string := "You are "

  const Presets: map<string, string> := map[
    "default" := "",
    "coding-assistant" := YouAre + "an expert programming assistant. Provide clear, well-commented code examples and explain complex concepts simply.",
    "creative-writer" := YouAre + "a creative writing assistant. Help with storytelling, character development, and writing techniques.",
    "data-analyst" := YouAre + "a data analysis expert. Help interpret data, suggest visualizations, and explain statistical concepts.",
    "teacher" := YouAre + "a patient, encouraging teacher. Break down complex topics into easy-to-understand steps.",
    "business-advisor" := YouAre + "a business consultant. Provide strategic advice, market insights, and practical business solutions.",
    "researcher" := YouAre + "a thorough researcher. Provide well-sourced information and multiple perspectives on topics."
  ]

  /** Every preset except "default" carries a prompt that is not whitespace-only. */
  lemma PresetPromptsNonBlank(preset: string)
    requires preset in Presets
    ensures Blank(Presets[preset]) <==> preset == DefaultPreset
  {
    assert YouAre[0] == 'Y';
    if preset != DefaultPreset {
      assert Presets[preset][0] == 'Y';
    }
  }

  // ---------------------------------------------------------------------------
  // The request history
  // ---------------------------------------------------------------------------

  function ApiRole(role: string): string {
    if role == BotRole then "assistant" else role
  }

  /** The log as sent to the API: same order and contents, "bot" renamed "assistant". */
  function ConversationHistory(log: seq<Message>): (h: seq<ApiMessage>)
    ensures |h| == |log|
    ensures forall i :: 0 <= i < |log| ==> h[i].content == log[i].content && h[i].role != BotRole
    ensures forall i :: 0 <= i < |log| ==> log[i].role == BotRole ==> h[i].role == "assistant"
    ensures forall i :: 0 <= i < |log| ==> log[i].role != BotRole ==> h[i].role == log[i].role
  {
    seq(|log|, i requires 0 <= i < |log| => ApiMessage(ApiRole(log[i].role), log[i].content))
  }

  /**
   * The `messages` field of the request: the history, with one system message
   * in front exactly when the personality text is not whitespace-only.
   */
  function OutgoingMessages(log: seq<Message>, developerMessage: string): (out: seq<ApiMessage>)
    ensures Blank(developerMessage) ==> out == ConversationHistory(log)
    ensures !Blank(developerMessage) ==> out == [ApiMessage("system", developerMessage)] + ConversationHistory(log)
  {
    TrimEmptyIffBlank(developerMessage);
    var history := ConversationHistory(log);
    if Trim(developerMessage) != "" then [ApiMessage("system", developerMessage)] + history else history
  }

  /** Choosing a preset other than "default" makes the next request start with its system prompt. */
  lemma PresetSystemMessage(preset: string, log: seq<Message>)
    requires preset in Presets
    ensures var out := OutgoingMessages(log, Presets[preset]);
      && (preset == DefaultPreset ==> out == ConversationHistory(log))
      && (preset != DefaultPreset ==> |out| == |log| + 1 && out[0] == ApiMessage("system", Presets[preset]))
  {
    PresetPromptsNonBlank(preset);
  }

  // ---------------------------------------------------------------------------
  // Scroll position (checkIfAtBottom)
  // ---------------------------------------------------------------------------

  datatype Viewport = Viewport(scrollTop: int, scrollHeight: int, clientHeight: int)

  const ScrollThreshold: int := 50

  /** With no container mounted the page counts as pinned to the bottom. */
  function CheckIfAtBottom(container: Option<Viewport>): (r: bool)
    ensures container.None? ==> r
    ensures container.Some? && 0 <= container.value.scrollTop && container.value.scrollHeight <= container.value.clientHeight ==> r
  {
    match container
    case None => true
    case Some(v) => v.scrollHeight - v.scrollTop - v.clientHeight < ScrollThreshold
  }

  // ---------------------------------------------------------------------------
  // Log updates made by handleSend
  // ---------------------------------------------------------------------------

  /**
   * The update applied per streamed chunk: the last bubble gets `content` and
   * keeps its timestamp, but only when it is a bot bubble; nothing else moves.
   */
  function ReplaceLastBot(log: seq<Message>, content: string): (r: seq<Message>)
    ensures |r| == |log|
    ensures forall i :: 0 <= i < |log| - 1 ==> r[i] == log[i]
    ensures log != [] && log[|log| - 1].role == BotRole ==>
      r[|log| - 1] == Message(BotRole, content, log[|log| - 1].timestamp)
    ensures log == [] || log[|log| - 1].role != BotRole ==> r == log
  {
    if log != [] && log[|log| - 1].role == BotRole
    then log[..|log| - 1] + [Message(BotRole, content, log[|log| - 1].timestamp)]
    else log
  }

  /** The update applied on failure: the log loses its last bubble exactly when that is an empty bot bubble. */
  function DropEmptyBot(log: seq<Message>): (r: seq<Message>)
    ensures r <= log && |r| + 1 >= |log|
    ensures |r| < |log| <==> log != [] && log[|log| - 1].role == BotRole && log[|log| - 1].content == ""
  {
    if log != [] && log[|log| - 1].role == BotRole && log[|log| - 1].content == ""
    then log[..|log| - 1]
    else log
  }

  // ---------------------------------------------------------------------------
  // The network reply, abstracted
  // ---------------------------------------------------------------------------

  /** A thrown value: an Error object with its message, or anything else. */
  datatype Thrown = ErrorObject(message: string) | OtherValue

  /** How the read loop ends: the reader reports done, or a read throws. */
  datatype StreamEnd = Completed | ReadFailed(thrown: Thrown)

  /**
   * What `fetch` gives back. The page does not look at the HTTP status, so an
   * error response's body is streamed like any other.
   */
  datatype Reply = FetchFailed(thrown: Thrown) | NoBody | Body(chunks: seq<string>, end: StreamEnd)

  /** The text of the error banner after a failure; never empty. */
  function ErrorText(t: Thrown): (e: string)
    ensures e != ""
    ensures t.ErrorObject? && t.message != "" ==> e == t.message
    ensures t.ErrorObject? && t.message == "" ==> e == FallbackError
    ensures t.OtherValue? ==> e == UnknownError
  {
    var message := match t
      case ErrorObject(m) => m
      case OtherValue => UnknownError;
    if message == "" then FallbackError else message
  }

  /** The log once an accepted send has settled, from the log holding the new user bubble. */
  function SettledLog(withUser: seq<Message>, reply: Reply, botStamp: int): seq<Message> {
    match reply
    case FetchFailed(_) => DropEmptyBot(withUser)
    case NoBody => DropEmptyBot(withUser)
    case Body(chunks, end) =>
      var streamed := withUser + [Message(BotRole, Concat(chunks), botStamp)];
      if end.Completed? then streamed else DropEmptyBot(streamed)
  }

  /** The error banner once an accepted send has settled. */
  function SettledError(reply: Reply): (e: string)
    ensures e == "" <==> reply.Body? && reply.end.Completed?
  {
    match reply
    case FetchFailed(t) => ErrorText(t)
    case NoBody => ErrorText(ErrorObject(NoBodyError))
    case Body(_, Completed) => ""
    case Body(_, ReadFailed(t)) => ErrorText(t)
  }

  /**
   * How often the [messages, loading] effect runs during an accepted send, one
   * run per commit: the user bubble, then either the catch/finally updates, or
   * the placeholder, each chunk, and the final update.
   */
  function EffectRuns(reply: Reply): (n: nat)
    ensures n >= 2
    ensures reply.Body? ==> n > |reply.chunks|
  {
    match reply
    case FetchFailed(_) => 2
    case NoBody => 2
    case Body(chunks, _) => 3 + |chunks|
  }

  /**
   * After an accepted send the user's bubble stays and every earlier bubble is
   * untouched; a bot bubble holding the whole stream follows unless the stream
   * failed while the reply was still empty.
   */
  lemma SettledLogShape(log: seq<Message>, text: string, userStamp: int, reply: Reply, botStamp: int)
    ensures var withUser := log + [Message(UserRole, text, userStamp)];
      var settled := SettledLog(withUser, reply, botStamp);
      var kept := reply.Body? && (reply.end.Completed? || Concat(reply.chunks) != "");
      && withUser <= settled
      && |settled| == |withUser| + (if kept then 1 else 0)
      && (kept ==> settled[|withUser|] == Message(BotRole, Concat(reply.chunks), botStamp))
  {
    var withUser := log + [Message(UserRole, text, userStamp)];
    assert DropEmptyBot(withUser) == withUser;
    if reply.Body? {
      var streamed := withUser + [Message(BotRole, Concat(reply.chunks), botStamp)];
      assert streamed[..|streamed| - 1] == withUser;
    }
  }

  // ---------------------------------------------------------------------------
  // The page state
  // ---------------------------------------------------------------------------

  class ChillChat {
    var apiKey: string
    var developerMessage: string
    var selectedPrompt: string
    var userMessage: string
    var messages: seq<Message>
    var loading: bool
    var error: string
    var isAtBottom: bool
    var unreadCount: nat

    /** Pinned to the bottom means nothing is unread; the preset selector always shows a known preset. */
    ghost predicate Valid()
      reads this
    {
      && (isAtBottom ==> unreadCount == 0)
      && selectedPrompt in Presets
    }

    /** The page as first rendered at time `now`. */
    constructor (now: int)
      ensures Valid()
      ensures messages == [Message(BotRole, Greeting, now)]
      ensures !loading && error == "" && isAtBottom && unreadCount == 0
      ensures apiKey == "" && developerMessage == "" && userMessage == "" && selectedPrompt == DefaultPreset
    {
      apiKey, developerMessage, selectedPrompt, userMessage := "", "", DefaultPreset, "";
      messages := [Message(BotRole, Greeting, now)];
      loading, error := false, "";
      isAtBottom, unreadCount := true, 0;
    }

    method SetApiKey(key: string)
      modifies this`apiKey
      ensures apiKey == key
    {
      apiKey := key;
    }

    method SetUserMessage(text: string)
      modifies this`userMessage
      ensures userMessage == text
    {
      userMessage := text;
    }

    /** Typing a personality by hand switches the preset selector back to "default". */
    method EditDeveloperMessage(text: string)
      requires Valid()
      modifies this`developerMessage, this`selectedPrompt
      ensures Valid()
      ensures developerMessage == text && selectedPrompt == DefaultPreset
    {
      developerMessage := text;
      selectedPrompt := DefaultPreset;
    }

    /** The selector offers only the keys of `Presets`. */
    method HandlePresetChange(preset: string)
      requires Valid() && preset in Presets
      modifies this`selectedPrompt, this`developerMessage
      ensures Valid()
      ensures selectedPrompt == preset && developerMessage == Presets[preset]
    {
      selectedPrompt := preset;
      developerMessage := Presets[preset];
    }

    /** The send button is disabled while loading; `HandleSend` itself does not look at `loading`. */
    predicate SendButtonEnabled()
      reads this
    {
      !loading
    }

    method HandleScroll(container: Option<Viewport>)
      requires Valid()
      modifies this`isAtBottom, this`unreadCount
      ensures Valid()
      ensures isAtBottom == CheckIfAtBottom(container)
      ensures unreadCount == if isAtBottom then 0 else old(unreadCount)
    {
      var atBottom := CheckIfAtBottom(container);
      isAtBottom := atBottom;
      if atBottom {
        unreadCount := 0;
      }
    }

    /** Scrolling down (forced, or because the view is pinned) clears the unread badge. */
    method ScrollToBottom(force: bool)
      requires Valid()
      modifies this`unreadCount
      ensures Valid()
      ensures unreadCount == if force || isAtBottom then 0 else old(unreadCount)
    {
      if force || isAtBottom {
        unreadCount := 0;
      }
    }

    /**
     * The effect run after every commit that changed `messages` or `loading`:
     * pinned, it scrolls down and clears the badge; scrolled away, it adds one
     * to the badge, per commit and not per message.
     */
    method MessagesOrLoadingChanged()
      requires Valid()
      modifies this`unreadCount
      ensures Valid()
      ensures unreadCount == if isAtBottom then 0 else old(unreadCount) + 1
    {
      if isAtBottom {
        ScrollToBottom(true);
      } else {
        unreadCount := unreadCount + 1;
      }
    }

    /** The state `handleSend` leaves, from the state it started in. */
    twostate predicate SendSettled(userStamp: int, botStamp: int, reply: Reply, new request: Option<seq<ApiMessage>>)
      reads this
    {
      var accepted := !Blank(old(userMessage)) && old(apiKey) != "";
      var withUser := old(messages) + [Message(UserRole, old(userMessage), userStamp)];
      && (request.Some? <==> accepted)
      && apiKey == old(apiKey) && developerMessage == old(developerMessage)
      && selectedPrompt == old(selectedPrompt) && isAtBottom == old(isAtBottom)
      && (!accepted ==>
            && messages == old(messages) && loading == old(loading)
            && userMessage == old(userMessage) && unreadCount == old(unreadCount)
            && error == if Blank(old(userMessage)) then "" else MissingKeyError)
      && (accepted ==>
            && request.value == OutgoingMessages(withUser, old(developerMessage))
            && messages == SettledLog(withUser, reply, botStamp)
            && error == SettledError(reply)
            && !loading && userMessage == ""
            && unreadCount == if isAtBottom then 0 else old(unreadCount) + EffectRuns(reply))
    }

    /**
     * The read loop: each chunk extends the accumulated reply, the bot
     * placeholder is rewritten with it, and the effect runs once per chunk.
     */
    method StreamChunks(withUser: seq<Message>, botStamp: int, chunks: seq<string>) returns (botMsg: string)
      requires Valid()
      requires messages == withUser + [Message(BotRole, "", botStamp)]
      modifies this`messages, this`unreadCount
      ensures Valid()
      ensures botMsg == Concat(chunks)
      ensures messages == withUser + [Message(BotRole, botMsg, botStamp)]
      ensures unreadCount == if isAtBottom then 0 else old(unreadCount) + |chunks|
    {
      botMsg := "";
      var i := 0;
      while i < |chunks|
        invariant 0 <= i <= |chunks|
        invariant botMsg == Concat(chunks[..i])
        invariant messages == withUser + [Message(BotRole, botMsg, botStamp)]
        invariant Valid()
        invariant unreadCount == if isAtBottom then 0 else old(unreadCount) + i
      {
        assert chunks[..i + 1][..i] == chunks[..i];
        botMsg := botMsg + chunks[i];
        messages := ReplaceLastBot(messages, botMsg);
        assert messages[..|withUser|] == withUser;
        MessagesOrLoadingChanged();
        i := i + 1;
      }
      assert chunks[..i] == chunks;
    }

    /**
     * Everything after the user bubble is committed: the fetch, the read loop,
     * the catch block that drops an empty placeholder, and the finally block.
     */
    method Deliver(withUser: seq<Message>, botStamp: int, reply: Reply)
      requires Valid()
      requires messages == withUser && loading && error == "" && userMessage == ""
      modifies this`messages, this`loading, this`error, this`unreadCount
      ensures Valid()
      ensures messages == SettledLog(withUser, reply, botStamp)
      ensures error == SettledError(reply) && !loading
      ensures unreadCount == if isAtBottom then 0 else old(unreadCount) + EffectRuns(reply) - 1
    {
      match reply {
        case FetchFailed(thrown) =>
          error := ErrorText(thrown);
          messages := DropEmptyBot(messages);
        case NoBody =>
          error := ErrorText(ErrorObject(NoBodyError));
          messages := DropEmptyBot(messages);
        case Body(chunks, end) =>
          messages := messages + [Message(BotRole, "", botStamp)];
          MessagesOrLoadingChanged();
          var botMsg := StreamChunks(withUser, botStamp, chunks);
          if end.ReadFailed? {
            error := ErrorText(end.thrown);
            messages := DropEmptyBot(messages);
          }
      }
      loading := false;
      MessagesOrLoadingChanged();
    }

    /**
     * Sends the typed message. `userStamp` and `botStamp` are the clock
     * readings for the user bubble and the bot placeholder; `reply` is what
     * the network delivers. Returns the request's message list when sent.
     */
    method HandleSend(userStamp: int, botStamp: int, reply: Reply) returns (request: Option<seq<ApiMessage>>)
      requires Valid()
      modifies this`messages, this`loading, this`error, this`userMessage, this`unreadCount
      ensures Valid()
      ensures SendSettled(userStamp, botStamp, reply, request)
    {
      error := "";
      // `!userMessage.trim()`, which TrimEmptyIffBlank shows to be Blank
      if Blank(userMessage) {
        return None;
      }
      if apiKey == "" {
        error := MissingKeyError;
        return None;
      }
      var current := userMessage;
      userMessage := "";
      loading := true;
      var withUser := messages + [Message(UserRole, current, userStamp)];
      messages := withUser;
      MessagesOrLoadingChanged();
      request := Some(OutgoingMessages(withUser, developerMessage));
      Deliver(withUser, botStamp, reply);
    }

    /** Enter without Shift sends, whatever `loading` is; every other key does nothing here. */
    method HandleKeyDown(key: string, shift: bool, userStamp: int, botStamp: int, reply: Reply)
      returns (request: Option<seq<ApiMessage>>)
      requires Valid()
      modifies this`messages, this`loading, this`error, this`userMessage, this`unreadCount
      ensures Valid()
      ensures key == "Enter" && !shift ==> SendSettled(userStamp, botStamp, reply, request)
      ensures !(key == "Enter" && !shift) ==>
        request.None? && messages == old(messages) && loading == old(loading) && error == old(error)
        && userMessage == old(userMessage) && unreadCount == old(unreadCount)
    {
      if key == "Enter" && !shift {
        request := HandleSend(userStamp, botStamp, reply);
      } else {
        request := None;
      }
    }
  }
}
