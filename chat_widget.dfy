/**
 * The chat widget of static/script.js: the form-submission handler as a
 * state machine over the transcript (the children of `#messages`), the text
 * input and the submit button. The handler is split at its `await`:
 * BeginSubmit runs up to issuing the request, Resolve runs once the request
 * has ended and is given how it ended; Submit runs both in turn.
 */
module ChatWidget {
  import opened Wrappers

  /** Who a message is from (the `isUser` flag of `addMessage`). */
  datatype Sender = User | Bot

  /** One child of the messages container: a message, or the `#loading-message` placeholder. */
  datatype Entry = Message(sender: Sender, text: string) | Loading

  /** What `response.json()` yields, as far as the handler looks at it. */
  datatype Json =
    | JsonNull                           // the body `null`
    | JsonObject(answer: Option<string>) // an object, with or without a string `answer`
    | JsonOther                          // a string, number, boolean or array

  datatype Body = Unparsable | Parsed(json: Json)

  /** How the `fetch` ends: a response with its status and body, or a network failure. */
  datatype Outcome = Response(status: int, body: Body) | NetworkFailure

  /** The JSON body `{ q, session_id }` POSTed to /query. */
  datatype Request = Request(q: string, sessionId: string)

  /** The observable steps of the handler, in the order it takes them. */
  datatype Effect =
    | MessageAppended(sender: Sender, text: string)
    | InputCleared
    | SubmitDisabled   // `disabled = true` and the `loading` class added
    | LoadingShown
    | RequestSent(request: Request)
    | LoadingRemoved
    | SubmitEnabled    // `disabled = false` and the `loading` class removed

  const NoAnswerText: string := "Sorry, I could not generate a response. Please try again."
  const ErrorText: string := "Sorry, an error occurred while processing your query. Please try again."

  /** `response.ok`: a status in the range 200-299. */
  predicate IsOk(status: int) {
    200 <= status <= 299
  }

  // ---------------------------------------------------------------------------
  // String.prototype.trim
  // ---------------------------------------------------------------------------

  /** The ECMAScript WhiteSpace and LineTerminator code points, which `trim` removes. */
  predicate IsJsWhitespace(c: char) {
    || c == '\t' || c == '\n' || c == '\U{B}' || c == '\U{C}' || c == '\r' || c == ' '
    || c == '\U{A0}' || c == '\U{1680}' || ('\U{2000}' <= c <= '\U{200A}')
    || c == '\U{2028}' || c == '\U{2029}' || c == '\U{202F}' || c == '\U{205F}'
    || c == '\U{3000}' || c == '\U{FEFF}'
  }

  /** `s` without its leading whitespace. */
  function TrimStart(s: string): (r: string)
    ensures |r| <= |s| && r == s[|s| - |r|..]
    ensures forall k :: 0 <= k < |s| - |r| ==> IsJsWhitespace(s[k])
    ensures r != "" ==> !IsJsWhitespace(r[0])
  {
    if s != "" && IsJsWhitespace(s[0]) then TrimStart(s[1..]) else s
  }

  /** `s` without its trailing whitespace. */
  function TrimEnd(s: string): (r: string)
    ensures |r| <= |s| && r == s[..|r|]
    ensures forall k :: |r| <= k < |s| ==> IsJsWhitespace(s[k])
    ensures r != "" ==> !IsJsWhitespace(r[|r| - 1])
  {
    if s != "" && IsJsWhitespace(s[|s| - 1]) then TrimEnd(s[..|s| - 1]) else s
  }

  /**
   * `s.trim()`: the text between the leading and the trailing whitespace. It
   * is empty exactly when `s` is whitespace only.
   */
  function Trim(s: string): (r: string)
    ensures |r| <= |s|
    ensures r == "" <==> forall k :: 0 <= k < |s| ==> IsJsWhitespace(s[k])
    ensures r != "" ==> !IsJsWhitespace(r[0]) && !IsJsWhitespace(r[|r| - 1])
    ensures exists i :: 0 <= i <= |s| - |r| && r == s[i..][..|r|]
  {
    var t := TrimStart(s);
    var r := TrimEnd(t);
    assert r != "" ==> r[0] == t[0];
    assert r == "" ==> t == "";
    assert r == s[|s| - |t|..][..|r|];
    r
  }

  /** Trimming twice removes nothing more. */
  lemma TrimIdempotent(s: string)
    ensures Trim(Trim(s)) == Trim(s)
  {
    var r := Trim(s);
    if r != "" {
      assert TrimStart(r) == r;
      assert TrimEnd(r) == r;
    }
  }

  /** Leading blanks before a text that starts with a non-blank are exactly what TrimStart drops. */
  lemma {:induction false} TrimStartPadded(pre: string, rest: string)
    requires forall k :: 0 <= k < |pre| ==> IsJsWhitespace(pre[k])
    requires rest != "" ==> !IsJsWhitespace(rest[0])
    ensures TrimStart(pre + rest) == rest
  {
    if pre == [] {
      assert pre + rest == rest;
    } else {
      assert (pre + rest)[0] == pre[0];
      assert (pre + rest)[1..] == pre[1..] + rest;
      TrimStartPadded(pre[1..], rest);
    }
  }

  /** Trailing blanks after a text that ends with a non-blank are exactly what TrimEnd drops. */
  lemma {:induction false} TrimEndPadded(rest: string, post: string)
    requires forall k :: 0 <= k < |post| ==> IsJsWhitespace(post[k])
    requires rest != "" ==> !IsJsWhitespace(rest[|rest| - 1])
    ensures TrimEnd(rest + post) == rest
  {
    if post == [] {
      assert rest + post == rest;
    } else {
      assert (rest + post)[|rest + post| - 1] == post[|post| - 1];
      assert (rest + post)[..|rest + post| - 1] == rest + post[..|post| - 1];
      TrimEndPadded(rest, post[..|post| - 1]);
    }
  }

  /** Trimming removes exactly the blank padding around a text that neither starts nor ends with a blank. */
  lemma TrimPadded(pre: string, core: string, post: string)
    requires forall k :: 0 <= k < |pre| ==> IsJsWhitespace(pre[k])
    requires forall k :: 0 <= k < |post| ==> IsJsWhitespace(post[k])
    requires core != "" && !IsJsWhitespace(core[0]) && !IsJsWhitespace(core[|core| - 1])
    ensures Trim(pre + core + post) == core
  {
    assert pre + core + post == pre + (core + post);
    assert (core + post)[0] == core[0];
    TrimStartPadded(pre, core + post);
    TrimEndPadded(core, post);
  }

  // ---------------------------------------------------------------------------
  // The transcript
  // ---------------------------------------------------------------------------

  /** How many loading placeholders the transcript holds. */
  function LoadingCount(t: seq<Entry>): nat {
    if t == [] then 0 else (if t[0] == Loading then 1 else 0) + LoadingCount(t[1..])
  }

  /** The messages of a transcript in display order, placeholders left out. */
  function Messages(t: seq<Entry>): seq<Entry> {
    if t == [] then [] else (if t[0] == Loading then [] else [t[0]]) + Messages(t[1..])
  }

  lemma {:induction false} LoadingCountAppend(a: seq<Entry>, b: seq<Entry>)
    ensures LoadingCount(a + b) == LoadingCount(a) + LoadingCount(b)
  {
    if a == [] {
      assert a + b == b;
    } else {
      assert (a + b)[1..] == a[1..] + b;
      LoadingCountAppend(a[1..], b);
    }
  }

  lemma {:induction false} MessagesAppend(a: seq<Entry>, b: seq<Entry>)
    ensures Messages(a + b) == Messages(a) + Messages(b)
  {
    if a == [] {
      assert a + b == b;
    } else {
      assert (a + b)[1..] == a[1..] + b;
      MessagesAppend(a[1..], b);
    }
  }

  /**
   * `removeLoadingMessage`: `document.getElementById('loading-message')`
   * finds the first placeholder, which is removed; with none it does nothing.
   * No message is changed, dropped or moved.
   */
  function RemoveFirstLoading(t: seq<Entry>): (r: seq<Entry>)
    ensures LoadingCount(t) == 0 ==> r == t
  {
    if t == [] then []
    else if t[0] == Loading then t[1..]
    else [t[0]] + RemoveFirstLoading(t[1..])
  }

  /** With a placeholder present, exactly one entry goes, and it is a placeholder. */
  lemma {:induction false} RemoveFirstLoadingCount(t: seq<Entry>)
    requires LoadingCount(t) > 0
    ensures LoadingCount(RemoveFirstLoading(t)) == LoadingCount(t) - 1
    ensures |RemoveFirstLoading(t)| == |t| - 1
  {
    if t[0] != Loading {
      RemoveFirstLoadingCount(t[1..]);
      var r := RemoveFirstLoading(t);
      assert r[0] == t[0] && r[1..] == RemoveFirstLoading(t[1..]);
    }
  }

  /** Removing the placeholder leaves the messages, and their order, as they were. */
  lemma {:induction false} RemoveFirstLoadingMessages(t: seq<Entry>)
    ensures Messages(RemoveFirstLoading(t)) == Messages(t)
  {
    if t != [] && t[0] != Loading {
      RemoveFirstLoadingMessages(t[1..]);
      var r := RemoveFirstLoading(t);
      assert r[0] == t[0] && r[1..] == RemoveFirstLoading(t[1..]);
    }
  }

  /** Messages before the first placeholder are not touched by its removal. */
  lemma {:induction false} RemoveFirstLoadingAfter(a: seq<Entry>, b: seq<Entry>)
    requires LoadingCount(a) == 0
    ensures RemoveFirstLoading(a + b) == a + RemoveFirstLoading(b)
  {
    if a == [] {
      assert a + b == b;
    } else {
      var c := a + b;
      var head, tail := a[0], a[1..];
      assert c[0] == head && c[1..] == tail + b;
      assert head != Loading && LoadingCount(tail) == 0;
      RemoveFirstLoadingAfter(tail, b);
      assert RemoveFirstLoading(c) == [head] + (tail + RemoveFirstLoading(b));
      assert a == [head] + tail;
    }
  }

  // ---------------------------------------------------------------------------
  // The reply shown once the request has ended
  // ---------------------------------------------------------------------------

  /**
   * The text of the bot message the handler ends with: the server's answer
   * when it is there and non-empty, one fixed text when the response is
   * fine but has no usable answer, another when anything went wrong. The
   * widget never shows an empty bot message, nor text it did not receive
   * other than the two fixed ones.
   */
  function BotReply(outcome: Outcome): (text: string)
    ensures text != ""
    ensures text == ErrorText || text == NoAnswerText
      || (outcome.Response? && IsOk(outcome.status) && outcome.body == Parsed(JsonObject(Some(text))))
    // a network failure, an HTTP error status, a body that is not JSON, or a `null` body
    ensures outcome.NetworkFailure? ==> text == ErrorText
    ensures outcome.Response? && (!IsOk(outcome.status) || outcome.body == Unparsable || outcome.body == Parsed(JsonNull))
      ==> text == ErrorText
    // an OK response whose `answer` is a non-empty string
    ensures outcome.Response? && IsOk(outcome.status) && outcome.body.Parsed? && outcome.body.json.JsonObject?
      && outcome.body.json.answer.Some? && outcome.body.json.answer.value != ""
      ==> text == outcome.body.json.answer.value
    // an OK response without a usable `answer`
    ensures outcome.Response? && IsOk(outcome.status)
      && (outcome.body == Parsed(JsonObject(None)) || outcome.body == Parsed(JsonObject(Some(""))) || outcome.body == Parsed(JsonOther))
      ==> text == NoAnswerText
  {
    match outcome
    case NetworkFailure => ErrorText
    case Response(status, body) =>
      if !IsOk(status) then ErrorText
      else match body
        case Unparsable => ErrorText
        case Parsed(JsonNull) => ErrorText
        case Parsed(JsonObject(answer)) =>
          if answer.Some? && answer.value != "" then answer.value else NoAnswerText
        case Parsed(JsonOther) => NoAnswerText
  }

  /** The effects of the handler up to its `await`, in order. */
  function SendEffects(request: Request): seq<Effect> {
    [MessageAppended(User, request.q), InputCleared, SubmitDisabled, LoadingShown, RequestSent(request)]
  }

  /** The effects of the handler after its `await`, in order. */
  function SettleEffects(reply: string): seq<Effect> {
    [LoadingRemoved, MessageAppended(Bot, reply), SubmitEnabled]
  }

  /**
   * Settling a transcript that ends in the placeholder: the messages are the
   * earlier ones, in their order, followed by the reply.
   */
  lemma SettleKeepsMessages(t: seq<Entry>, reply: Entry)
    requires |t| > 0 && t[|t| - 1] == Loading && reply.Message?
    ensures Messages(t[..|t| - 1] + [reply]) == Messages(t) + [reply]
  {
    var settled := t[..|t| - 1];
    assert t == settled + [Loading];
    MessagesAppend(settled, [Loading]);
    MessagesAppend(settled, [reply]);
    assert [Loading][1..] == [] && [reply][1..] == [];
  }

  // ---------------------------------------------------------------------------
  // The page
  // ---------------------------------------------------------------------------

  /** The DOM state the handler reads and writes. */
  class Widget {
    /** `sessionId`, fixed once when the page loads. */
    const sessionId: string
    /** The children of `#messages`, in display order. */
    var transcript: seq<Entry>
    /** `queryInput.value`. */
    var inputValue: string
    /** `submitBtn.disabled`. */
    var submitDisabled: bool
    /** Whether `submitBtn` carries the `loading` class. */
    var submitLoading: bool
    /** The request whose response the handler is awaiting, if any. */
    var inFlight: Option<Request>
    /** Every effect the handler has had, oldest first. */
    ghost var effects: seq<Effect>

    /**
     * Idle: submit usable and no placeholder. Awaiting a request: submit
     * disabled and marked loading, the transcript ending in the question and
     * the one placeholder, and the request carrying the page's session id.
     */
    ghost predicate Valid()
      reads this
    {
      match inFlight
      case None => !submitDisabled && !submitLoading && LoadingCount(transcript) == 0
      case Some(request) =>
        && submitDisabled && submitLoading
        && request.sessionId == sessionId
        && |transcript| >= 2
        && transcript[|transcript| - 2] == Message(User, request.q)
        && transcript[|transcript| - 1] == Loading
        && LoadingCount(transcript) == 1
    }

    /** The page as loaded: empty transcript and input, submit usable. */
    constructor (sessionId: string)
      ensures Valid()
      ensures this.sessionId == sessionId
      ensures transcript == [] && inputValue == "" && inFlight == None && effects == []
    {
      this.sessionId := sessionId;
      transcript := [];
      inputValue := "";
      submitDisabled := false;
      submitLoading := false;
      inFlight := None;
      effects := [];
    }

    /** The user edits the text box. */
    method EditInput(text: string)
      modifies this`inputValue
      ensures inputValue == text
    {
      inputValue := text;
    }

    /** `addMessage(content, isUser)`: one message appended at the end. */
    method AddMessage(content: string, isUser: bool)
      modifies this`transcript, this`effects
      ensures var sender := if isUser then User else Bot;
        && transcript == old(transcript) + [Message(sender, content)]
        && effects == old(effects) + [MessageAppended(sender, content)]
    {
      var sender := if isUser then User else Bot;
      transcript := transcript + [Message(sender, content)];
      effects := effects + [MessageAppended(sender, content)];
    }

    /** `showLoadingMessage()`: the placeholder appended at the end. */
    method ShowLoadingMessage()
      modifies this`transcript, this`effects
      ensures transcript == old(transcript) + [Loading]
      ensures effects == old(effects) + [LoadingShown]
    {
      transcript := transcript + [Loading];
      effects := effects + [LoadingShown];
    }

    /** `removeLoadingMessage()`: the first placeholder removed; nothing happens without one. */
    method RemoveLoadingMessage()
      modifies this`transcript, this`effects
      ensures transcript == RemoveFirstLoading(old(transcript))
      ensures effects == if LoadingCount(old(transcript)) > 0 then old(effects) + [LoadingRemoved] else old(effects)
    {
      if LoadingCount(transcript) > 0 {
        effects := effects + [LoadingRemoved];
      }
      transcript := RemoveFirstLoading(transcript);
    }

    /**
     * The steps the handler takes for a non-empty question before its
     * `await`, in this order: the question is appended as a user message,
     * the input is cleared, submit is disabled and marked loading, the
     * placeholder is appended, and the request with the question and the
     * page's session id is sent.
     */
    method Send(query: string) returns (request: Request)
      requires Valid() && inFlight == None
      modifies this
      ensures Valid()
      ensures request == Request(query, sessionId) && inFlight == Some(request)
      ensures transcript == old(transcript) + [Message(User, query), Loading]
      ensures inputValue == "" && submitDisabled && submitLoading
      ensures effects == old(effects) + SendEffects(request)
    {
      AddMessage(query, true);
      inputValue := "";
      effects := effects + [InputCleared];
      submitDisabled := true;
      submitLoading := true;
      effects := effects + [SubmitDisabled];
      ShowLoadingMessage();
      assert LoadingCount(transcript) == 1 by {
        assert transcript == old(transcript) + [Message(User, query), Loading];
        LoadingCountAppend(old(transcript), [Message(User, query), Loading]);
        assert [Message(User, query), Loading][1..] == [Loading];
        assert [Loading][1..] == [];
      }
      request := Request(query, sessionId);
      effects := effects + [RequestSent(request)];
      inFlight := Some(request);
    }

    /**
     * The submit handler up to its `await`: whitespace-only input changes
     * nothing and sends nothing; anything else is trimmed and sent.
     */
    method BeginSubmit() returns (request: Option<Request>)
      requires Valid() && inFlight == None
      modifies this
      ensures Valid()
      ensures Trim(old(inputValue)) == "" ==> request == None && unchanged(this)
      ensures Trim(old(inputValue)) != "" ==>
        var query := Trim(old(inputValue));
        && request == Some(Request(query, sessionId))
        && inFlight == request
        && transcript == old(transcript) + [Message(User, query), Loading]
        && inputValue == ""
        && submitDisabled && submitLoading
        && effects == old(effects) + SendEffects(Request(query, sessionId))
    {
      var query := Trim(inputValue);
      if query == "" {
        return None;
      }
      var sent := Send(query);
      request := Some(sent);
    }

    /**
     * The `try`/`catch` of the handler after its `await`: the placeholder is
     * removed and the bot's reply appended, whichever way the request ended.
     */
    method HandleOutcome(outcome: Outcome)
      requires LoadingCount(transcript) == 1
      modifies this`transcript, this`effects
      ensures transcript == RemoveFirstLoading(old(transcript)) + [Message(Bot, BotReply(outcome))]
      ensures effects == old(effects) + [LoadingRemoved, MessageAppended(Bot, BotReply(outcome))]
    {
      RemoveFirstLoadingCount(transcript);
      var failed := false;
      match outcome {
        case NetworkFailure =>
          failed := true;
        case Response(status, body) =>
          if !IsOk(status) {
            failed := true;
          } else {
            match body {
              case Unparsable =>
                failed := true;
              case Parsed(json) =>
                RemoveLoadingMessage();
                match json {
                  case JsonNull =>
                    failed := true; // reading `answer` of null throws
                  case JsonObject(answer) =>
                    if answer.Some? && answer.value != "" {
                      AddMessage(answer.value, false);
                    } else {
                      AddMessage(NoAnswerText, false);
                    }
                  case JsonOther =>
                    AddMessage(NoAnswerText, false);
                }
            }
          }
      }
      if failed {
        RemoveLoadingMessage();
        AddMessage(ErrorText, false);
      }
    }

    /**
     * The submit handler after its `await`: the placeholder is removed, one
     * bot message with the reply is appended, and submit is usable again,
     * whatever the outcome. Earlier messages are left as they were.
     */
    method Resolve(outcome: Outcome)
      requires Valid() && inFlight.Some?
      modifies this
      ensures Valid() && inFlight == None
      ensures !submitDisabled && !submitLoading && LoadingCount(transcript) == 0
      ensures transcript == old(transcript)[..|old(transcript)| - 1] + [Message(Bot, BotReply(outcome))]
      ensures inputValue == old(inputValue)
      ensures effects == old(effects) + SettleEffects(BotReply(outcome))
    {
      ghost var settled := transcript[..|transcript| - 1];
      ghost var reply := Message(Bot, BotReply(outcome));
      assert transcript == settled + [Loading];
      assert LoadingCount(settled) == 0 by {
        LoadingCountAppend(settled, [Loading]);
      }
      RemoveFirstLoadingAfter(settled, [Loading]);
      assert RemoveFirstLoading(transcript) == settled;

      HandleOutcome(outcome);

      submitDisabled := false;
      submitLoading := false;
      effects := effects + [SubmitEnabled];
      inFlight := None;

      assert LoadingCount(transcript) == 0 by {
        LoadingCountAppend(settled, [reply]);
      }
    }

    /**
     * The whole submit handler, with the server's outcome given: blank input
     * changes nothing; otherwise the page ends with the question and the
     * reply appended, the input cleared and submit usable again.
     */
    method Submit(outcome: Outcome) returns (request: Option<Request>)
      requires Valid() && inFlight == None
      modifies this
      ensures Valid() && inFlight == None && !submitDisabled && !submitLoading
      ensures Trim(old(inputValue)) == "" ==> request == None && unchanged(this)
      ensures Trim(old(inputValue)) != "" ==>
        var query := Trim(old(inputValue));
        var reply := BotReply(outcome);
        && request == Some(Request(query, sessionId))
        && transcript == old(transcript) + [Message(User, query), Message(Bot, reply)]
        && inputValue == ""
        && effects == old(effects) + SendEffects(Request(query, sessionId)) + SettleEffects(reply)
    {
      request := BeginSubmit();
      if request.Some? {
        ghost var sent := transcript;
        Resolve(outcome);
        assert sent[..|sent| - 1] == old(transcript) + [Message(User, Trim(old(inputValue)))];
      }
    }
  }

  // ---------------------------------------------------------------------------
  // Runs of the handler on a freshly loaded page
  // ---------------------------------------------------------------------------

  /**
   * A question typed with blanks around it and answered by the server: the
   * request carries the trimmed question and the page's session id, the page
   * shows the question and then the answer, and submit is usable again.
   */
  method AnsweredRun(sessionId: string, pre: string, question: string, post: string, answer: string)
    returns (sent: Option<Request>, shown: seq<Entry>, usable: bool)
    requires forall k :: 0 <= k < |pre| ==> IsJsWhitespace(pre[k])
    requires forall k :: 0 <= k < |post| ==> IsJsWhitespace(post[k])
    requires question != "" && !IsJsWhitespace(question[0]) && !IsJsWhitespace(question[|question| - 1])
    requires answer != ""
    ensures sent == Some(Request(question, sessionId))
    ensures shown == [Message(User, question), Message(Bot, answer)]
    ensures usable
  {
    var page := new Widget(sessionId);
    page.EditInput(pre + question + post);
    TrimPadded(pre, question, post);
    sent := page.Submit(Response(200, Parsed(JsonObject(Some(answer)))));
    shown := page.transcript;
    usable := !page.submitDisabled;
  }

  /** Input made of blanks only: nothing is sent and the page is as it was. */
  method BlankRun(sessionId: string, blank: string) returns (sent: Option<Request>, shown: seq<Entry>, input: string, usable: bool)
    requires forall k :: 0 <= k < |blank| ==> IsJsWhitespace(blank[k])
    ensures sent == None && shown == [] && input == blank && usable
  {
    var page := new Widget(sessionId);
    page.EditInput(blank);
    sent := page.Submit(NetworkFailure);
    shown := page.transcript;
    input := page.inputValue;
    usable := !page.submitDisabled;
  }

  /** Two exchanges shown one after the other. */
  lemma TwoPairs(a: Entry, b: Entry, c: Entry, d: Entry)
    ensures [a, b] + [c, d] == [a, b, c, d]
  {
  }

  /**
   * Two questions typed on one page, whatever their outcomes and however they
   * are padded: each request carries the trimmed text and the page's session
   * id, the page shows each trimmed question followed by its reply, in
   * order, and submit is usable after each.
   */
  method TwoQuestionsRun(sessionId: string, first: string, firstOutcome: Outcome, second: string, secondOutcome: Outcome)
    returns (firstSent: Option<Request>, secondSent: Option<Request>, shown: seq<Entry>, usable: bool)
    requires Trim(first) != "" && Trim(second) != ""
    ensures firstSent == Some(Request(Trim(first), sessionId)) && secondSent == Some(Request(Trim(second), sessionId))
    ensures shown == [Message(User, Trim(first)), Message(Bot, BotReply(firstOutcome)),
                      Message(User, Trim(second)), Message(Bot, BotReply(secondOutcome))]
    ensures usable
  {
    var page := new Widget(sessionId);
    page.EditInput(first);
    firstSent := page.Submit(firstOutcome);
    ghost var afterFirst := page.transcript;
    assert afterFirst == [Message(User, Trim(first)), Message(Bot, BotReply(firstOutcome))];
    TwoPairs(Message(User, Trim(first)), Message(Bot, BotReply(firstOutcome)),
             Message(User, Trim(second)), Message(Bot, BotReply(secondOutcome)));
    page.EditInput(second);
    secondSent := page.Submit(secondOutcome);
    assert page.transcript == afterFirst + [Message(User, Trim(second)), Message(Bot, BotReply(secondOutcome))];
    shown := page.transcript;
    usable := !page.submitDisabled;
  }
}
