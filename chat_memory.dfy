/**
 * Per-session conversation memory and prompt assembly of the `/query`
 * handler in app.py. Retrieval from the vector store and the call to the
 * language model are not modelled: the retrieved `context` and the model's
 * `answerText` are inputs of `Query`, and the prompt it would send is its output.
 */
module ChatMemory {
  import opened Wrappers

  /** MAX_HISTORY_MESSAGES: how many messages are kept per session. */
  const MaxHistoryMessages: nat := 5

  /** The two role strings the handler stores. */
  const UserRole: string := "user"
  const AssistantRole: string := "assistant"

  /** One stored `{"role": ..., "content": ...}` entry. */
  datatype Message = Message(role: string, content: string)

  /** Python truthiness of the optional `session_id`: both None and "" are false. */
  predicate IsTruthy(sessionId: Option<string>) {
    sessionId.Some? && sessionId.value != ""
  }

  /** Every session of the store holds at most MaxHistoryMessages messages. */
  ghost predicate Bounded(store: map<string, seq<Message>>) {
    forall sid :: sid in store ==> |store[sid]| <= MaxHistoryMessages
  }

  // ---------------------------------------------------------------------------
  // Truncation to the last MaxHistoryMessages messages
  // ---------------------------------------------------------------------------

  /** `h[-MaxHistoryMessages:]` when `h` is over the limit, `h` itself otherwise. */
  function Truncate(h: seq<Message>): (r: seq<Message>)
    ensures |r| <= MaxHistoryMessages
    ensures |r| == |h| || |r| == MaxHistoryMessages
    ensures |h| <= MaxHistoryMessages ==> r == h
  {
    if |h| > MaxHistoryMessages then h[|h| - MaxHistoryMessages..] else h
  }

  /** Truncation keeps the last messages in their original order: the result is a suffix of the input. */
  lemma TruncateIsSuffix(h: seq<Message>)
    ensures Truncate(h) == h[|h| - |Truncate(h)|..]
  {
  }

  /**
   * Truncating after every append keeps exactly what truncating the whole
   * conversation once would keep: the stored list is always the last
   * MaxHistoryMessages messages ever recorded for the session.
   */
  lemma TruncateAppend(h: seq<Message>, m: Message)
    ensures Truncate(Truncate(h) + [m]) == Truncate(h + [m])
  {
    if |h| > MaxHistoryMessages {
      var t := h[|h| - MaxHistoryMessages..];
      assert Truncate(t + [m]) == (t + [m])[1..];
      assert (t + [m])[1..] == h[|h| + 1 - MaxHistoryMessages..] + [m];
      assert (h + [m])[|h| + 1 - MaxHistoryMessages..] == h[|h| + 1 - MaxHistoryMessages..] + [m];
    }
  }

  // ---------------------------------------------------------------------------
  // Python's str.join and str.split("\n")
  // ---------------------------------------------------------------------------

  /** `sep.join(parts)`. */
  function Join(parts: seq<string>, sep: string): string
  {
    if |parts| == 0 then ""
    else if |parts| == 1 then parts[0]
    else parts[0] + sep + Join(parts[1..], sep)
  }

  /** `s.split("\n")`: the lines of `s`; the empty string has one empty line. */
  function SplitLines(s: string): (r: seq<string>)
    ensures |r| >= 1
  {
    if |s| == 0 then [""]
    else
      var rest := SplitLines(s[1..]);
      if s[0] == '\n' then [""] + rest else [[s[0]] + rest[0]] + rest[1..]
  }

  /** A string without a line break is a single line. */
  lemma {:induction false} SplitSingleLine(s: string)
    requires '\n' !in s
    ensures SplitLines(s) == [s]
  {
    if |s| > 0 {
      assert '\n' !in s[1..] by {
        forall k | 0 <= k < |s[1..]| ensures s[1..][k] != '\n' { assert s[1..][k] == s[k + 1]; }
      }
      SplitSingleLine(s[1..]);
      assert [s[0]] + s[1..] == s;
    }
  }

  /** Splitting at a line break splits the two sides independently. */
  lemma {:induction false} SplitAtBreak(a: string, b: string)
    ensures SplitLines(a + "\n" + b) == SplitLines(a) + SplitLines(b)
  {
    if |a| == 0 {
      assert a + "\n" + b == "\n" + b;
      assert ("\n" + b)[1..] == b;
    } else {
      assert (a + "\n" + b)[1..] == a[1..] + "\n" + b;
      assert (a + "\n" + b)[0] == a[0];
      SplitAtBreak(a[1..], b);
    }
  }

  /** An empty line between two texts: `a + "\n\n" + b` splits into the lines of `a`, one empty line, the lines of `b`. */
  lemma SplitAtBlankLine(a: string, b: string)
    ensures SplitLines(a + "\n\n" + b) == SplitLines(a) + [""] + SplitLines(b)
  {
    assert a + "\n\n" + b == a + "\n" + ("" + "\n" + b);
    SplitAtBreak("", b);
    SplitAtBreak(a, "" + "\n" + b);
  }

  /** The lines of each part in turn, for parts that may themselves hold line breaks. */
  function SplitEach(parts: seq<string>): (r: seq<string>)
    ensures |r| >= |parts|
  {
    if parts == [] then [] else SplitLines(parts[0]) + SplitEach(parts[1..])
  }

  /** The lines of `"\n".join(parts)` are the lines of each part in turn. */
  lemma {:induction false} SplitJoinEach(parts: seq<string>)
    requires |parts| >= 1
    ensures SplitLines(Join(parts, "\n")) == SplitEach(parts)
  {
    if |parts| == 1 {
      assert SplitEach(parts[1..]) == [];
      assert SplitLines(parts[0]) + [] == SplitLines(parts[0]);
    } else {
      SplitJoinEach(parts[1..]);
      SplitAtBreak(parts[0], Join(parts[1..], "\n"));
    }
  }

  /** Parts without a line break are one line each. */
  lemma {:induction false} SplitEachSingle(parts: seq<string>)
    requires forall i :: 0 <= i < |parts| ==> '\n' !in parts[i]
    ensures SplitEach(parts) == parts
  {
    if parts != [] {
      SplitSingleLine(parts[0]);
      SplitEachSingle(parts[1..]);
      assert [parts[0]] + parts[1..] == parts;
    }
  }

  /** Splitting undoes `"\n".join` when no part holds a line break. */
  lemma SplitJoin(lines: seq<string>)
    requires |lines| >= 1
    requires forall i :: 0 <= i < |lines| ==> '\n' !in lines[i]
    ensures SplitLines(Join(lines, "\n")) == lines
  {
    SplitJoinEach(lines);
    SplitEachSingle(lines);
  }

  /** A header line, the joined parts and an empty line, followed by `rest`. */
  lemma SplitBlock(header: string, parts: seq<string>, rest: string)
    requires '\n' !in header
    requires |parts| >= 1
    ensures SplitLines(header + "\n" + Join(parts, "\n") + "\n\n" + rest) == [header] + SplitEach(parts) + [""] + SplitLines(rest)
  {
    var body := Join(parts, "\n");
    SplitJoinEach(parts);
    SplitSingleLine(header);
    SplitAtBreak(header, body);
    SplitAtBlankLine(header + "\n" + body, rest);
  }

  /** A line break can only come from one of the two joined texts. */
  lemma NoBreakConcat(a: string, b: string)
    requires '\n' !in a && '\n' !in b
    ensures '\n' !in a + b
  {
    forall k | 0 <= k < |a + b| ensures (a + b)[k] != '\n' {
      if k >= |a| { assert (a + b)[k] == b[k - |a|]; }
    }
  }

  // ---------------------------------------------------------------------------
  // The "Previous conversation" block
  // ---------------------------------------------------------------------------

  const HistoryHeader: string := "Previous conversation:"
  const ContextHeader: string := "Context from knowledge base:"
  const QuestionLabel: string := "Question: "
  const Instruction: string := "Answer clearly and concisely:"

  /** The label a stored message gets: "User" for role "user", "Assistant" otherwise. */
  function RoleLabel(role: string): string {
    if role == UserRole then "User" else "Assistant"
  }

  /** One history line, `f"{role_label}: {msg['content']}"`. */
  function FormatLine(m: Message): string {
    RoleLabel(m.role) + ": " + m.content
  }

  /** The history lines of `h`, built front to back as the loop appends them. */
  function FormatLines(h: seq<Message>): (lines: seq<string>)
    ensures |lines| == |h|
    ensures forall i :: 0 <= i < |h| ==> lines[i] == FormatLine(h[i])
  {
    if h == [] then [] else FormatLines(h[..|h| - 1]) + [FormatLine(h[|h| - 1])]
  }

  /** The conversation-history text made from the messages stored before the question. */
  function HistoryBlock(h: seq<Message>): (block: string)
    ensures block == "" <==> h == []
  {
    if h == [] then "" else HistoryHeader + "\n" + Join(FormatLines(h), "\n") + "\n\n"
  }

  /** A history line holds a line break only where its message's content does. */
  lemma FormatLineSingle(m: Message)
    requires '\n' !in m.content
    ensures '\n' !in FormatLine(m)
  {
    var prefix := RoleLabel(m.role) + ": ";
    if m.role == UserRole {
      assert prefix == "User: ";
    } else {
      assert prefix == "Assistant: ";
    }
    NoBreakConcat(prefix, m.content);
  }

  /** The history lines hold no line break when no stored content does. */
  lemma FormatLinesSingle(h: seq<Message>)
    requires forall i :: 0 <= i < |h| ==> '\n' !in h[i].content
    ensures forall i :: 0 <= i < |h| ==> '\n' !in FormatLines(h)[i]
  {
    forall i | 0 <= i < |h| ensures '\n' !in FormatLines(h)[i] {
      FormatLineSingle(h[i]);
    }
  }

  /**
   * The block followed by `rest` reads as the header line, then the lines of
   * each stored message's history line in stored order, then an empty line.
   */
  lemma HistoryBlockLinesAll(h: seq<Message>, rest: string)
    requires h != []
    ensures SplitLines(HistoryBlock(h) + rest) == [HistoryHeader] + SplitEach(FormatLines(h)) + [""] + SplitLines(rest)
  {
    assert '\n' !in HistoryHeader;
    SplitBlock(HistoryHeader, FormatLines(h), rest);
  }

  /**
   * When no stored content holds a line break, the block followed by `rest`
   * reads as the header line, then exactly one line per stored message in
   * stored order, then an empty line: every message of `h`, and nothing
   * else, is a history line.
   */
  lemma HistoryBlockLines(h: seq<Message>, rest: string)
    requires h != []
    requires forall i :: 0 <= i < |h| ==> '\n' !in h[i].content
    ensures SplitLines(HistoryBlock(h) + rest) == [HistoryHeader] + FormatLines(h) + [""] + SplitLines(rest)
  {
    HistoryBlockLinesAll(h, rest);
    FormatLinesSingle(h);
    SplitEachSingle(FormatLines(h));
  }

  /** The history-building loop (`history_lines` and its `"\n".join`). */
  method BuildHistoryBlock(h: seq<Message>) returns (block: string)
    ensures block == HistoryBlock(h)
  {
    block := "";
    if h != [] {
      var lines: seq<string> := [];
      for i := 0 to |h|
        invariant lines == FormatLines(h[..i])
      {
        var roleLabel := if h[i].role == UserRole then "User" else "Assistant";
        lines := lines + [roleLabel + ": " + h[i].content];
        assert h[..i + 1][..i] == h[..i];
      }
      assert h[..|h|] == h;
      block := HistoryHeader + "\n" + Join(lines, "\n") + "\n\n";
    }
  }

  // ---------------------------------------------------------------------------
  // Prompt assembly
  // ---------------------------------------------------------------------------

  /** `f"Context from knowledge base:\n{context}\n\n"`. */
  function ContextSection(context: string): string {
    ContextHeader + "\n" + context + "\n\n"
  }

  /** `f"Question: {q}\n\n"`. */
  function QuestionSection(q: string): string {
    QuestionLabel + q + "\n\n"
  }

  /** The full prompt: history block (possibly empty), context section, question, instruction. */
  function Prompt(history: string, context: string, q: string): string {
    history + (ContextSection(context) + QuestionSection(q) + Instruction)
  }

  /** `"".join` of an optional first part and three more is their concatenation. */
  lemma JoinParts(first: string, a: string, b: string, c: string)
    ensures Join((if first == "" then [] else [first]) + [a, b, c], "") == first + (a + b + c)
  {
    var tail := [a, b, c];
    assert Join(tail[1..][1..], "") == c;
    assert Join(tail[1..], "") == b + "" + c == b + c;
    assert Join(tail, "") == a + "" + (b + c) == a + b + c;
    if first != "" {
      assert ([first] + tail)[1..] == tail;
      assert Join([first] + tail, "") == first + "" + (a + b + c) == first + (a + b + c);
    } else {
      assert [] + tail == tail;
      assert first + (a + b + c) == a + b + c;
    }
  }

  /** `prompt_parts` with its successive appends, then `"".join(prompt_parts)`. */
  method AssemblePrompt(history: string, context: string, q: string) returns (prompt: string)
    ensures prompt == Prompt(history, context, q)
  {
    var parts: seq<string> := [];
    if history != "" {
      parts := parts + [history];
    }
    parts := parts + [ContextSection(context)];
    parts := parts + [QuestionSection(q)];
    parts := parts + [Instruction];
    prompt := Join(parts, "");
    assert parts == (if history == "" then [] else [history]) + [ContextSection(context), QuestionSection(q), Instruction];
    JoinParts(history, ContextSection(context), QuestionSection(q), Instruction);
  }

  /** The context section, the question section and the instruction, split into lines. */
  lemma SplitSections(header: string, context: string, question: string, instruction: string)
    requires '\n' !in header && '\n' !in instruction
    ensures SplitLines((header + "\n" + context + "\n\n") + (question + "\n\n") + instruction)
      == [header] + SplitLines(context) + [""] + SplitLines(question) + ["", instruction]
  {
    SplitSingleLine(instruction);
    SplitAtBlankLine(question, instruction);
    SplitSingleLine(header);
    SplitAtBreak(header, context);
    var tail := question + "\n\n" + instruction;
    assert (header + "\n" + context + "\n\n") + (question + "\n\n") + instruction
      == header + "\n" + context + "\n\n" + tail;
    SplitAtBlankLine(header + "\n" + context, tail);
  }

  /**
   * The sections after the history read line by line: the context header,
   * the context's lines, an empty line, the lines of the question line, an
   * empty line and the instruction.
   */
  lemma SectionLinesAll(context: string, q: string)
    ensures SplitLines(ContextSection(context) + QuestionSection(q) + Instruction)
      == [ContextHeader] + SplitLines(context) + [""] + SplitLines(QuestionLabel + q) + ["", Instruction]
  {
    assert '\n' !in ContextHeader && '\n' !in Instruction;
    SplitSections(ContextHeader, context, QuestionLabel + q, Instruction);
  }

  /** With a question of one line, the sections after the history: the context header, the context's lines, the question and the instruction. */
  lemma SectionLines(context: string, q: string)
    requires '\n' !in q
    ensures SplitLines(ContextSection(context) + QuestionSection(q) + Instruction)
      == [ContextHeader] + SplitLines(context) + ["", QuestionLabel + q, "", Instruction]
  {
    SectionLinesAll(context, q);
    assert '\n' !in QuestionLabel;
    NoBreakConcat(QuestionLabel, q);
    SplitSingleLine(QuestionLabel + q);
  }

  /**
   * The prompt read line by line, whatever the texts hold: when there is
   * prior history, the header, the lines of each prior message in stored
   * order and an empty line; then the context section; the lines of the
   * current question come only after the context's, and the instruction is
   * the last line.
   */
  lemma PromptLinesAll(h: seq<Message>, context: string, q: string)
    ensures SplitLines(Prompt(HistoryBlock(h), context, q)) ==
      (if h == [] then [] else [HistoryHeader] + SplitEach(FormatLines(h)) + [""])
      + ([ContextHeader] + SplitLines(context) + [""] + SplitLines(QuestionLabel + q) + ["", Instruction])
  {
    var rest := ContextSection(context) + QuestionSection(q) + Instruction;
    var restLines := [ContextHeader] + SplitLines(context) + [""] + SplitLines(QuestionLabel + q) + ["", Instruction];
    SectionLinesAll(context, q);
    var block := HistoryBlock(h);
    if h != [] {
      HistoryBlockLinesAll(h, rest);
    } else {
      assert block + rest == rest;
      assert [] + restLines == restLines;
    }
  }

  /**
   * The prompt read line by line when neither a stored content nor the
   * question holds a line break: when there is prior history, the header,
   * one line per prior message and an empty line; then the context section,
   * the question line and the instruction as the last line. The current
   * question appears only after the context, never among the history lines.
   */
  lemma PromptLines(h: seq<Message>, context: string, q: string)
    requires forall i :: 0 <= i < |h| ==> '\n' !in h[i].content
    requires '\n' !in q
    ensures SplitLines(Prompt(HistoryBlock(h), context, q)) ==
      (if h == [] then [] else [HistoryHeader] + FormatLines(h) + [""])
      + ([ContextHeader] + SplitLines(context) + ["", QuestionLabel + q, "", Instruction])
  {
    var rest := ContextSection(context) + QuestionSection(q) + Instruction;
    var restLines := [ContextHeader] + SplitLines(context) + ["", QuestionLabel + q, "", Instruction];
    SectionLines(context, q);
    var block := HistoryBlock(h);
    if h != [] {
      HistoryBlockLines(h, rest);
    } else {
      assert block + rest == rest;
      assert [] + restLines == restLines;
    }
  }

  // ---------------------------------------------------------------------------
  // One request's effect on the store
  // ---------------------------------------------------------------------------

  /** The messages stored for `sid`, the empty list for a session not seen yet. */
  function Prior(store: map<string, seq<Message>>, sid: string): seq<Message> {
    if sid in store then store[sid] else []
  }

  /**
   * One turn appends the question and then the answer, truncating after each:
   * the result is the last MaxHistoryMessages messages of the conversation
   * extended by both, and it ends with the question followed by the answer.
   */
  lemma TurnTail(prior: seq<Message>, user: Message, assistant: Message)
    ensures Truncate(Truncate(prior + [user]) + [assistant]) == Truncate(prior + [user, assistant])
    ensures var h := Truncate(prior + [user, assistant]); |h| >= 2 && h[|h| - 2..] == [user, assistant]
  {
    TruncateAppend(prior + [user], assistant);
    assert prior + [user] + [assistant] == prior + [user, assistant];
    var whole := prior + [user, assistant];
    var h := Truncate(whole);
    TruncateIsSuffix(whole);
    assert h[|h| - 2..] == whole[|whole| - 2..];
  }

  /** Replacing one session by a list within the limit keeps every session within it. */
  lemma BoundedUpdate(store: map<string, seq<Message>>, sid: string, h: seq<Message>)
    requires |h| <= MaxHistoryMessages
    ensures Bounded(store) ==> Bounded(store[sid := h])
  {
    var updated := store[sid := h];
    if Bounded(store) {
      forall k | k in updated ensures |updated[k]| <= MaxHistoryMessages {
        if k != sid { assert updated[k] == store[k]; }
      }
    }
  }

  /**
   * The store after one request: with a truthy session id, the question and
   * then the answer are appended to that session, each followed by truncation;
   * the session now holds the last MaxHistoryMessages messages of its
   * conversation, ending with the question and the answer. Without a truthy
   * session id, nothing changes.
   */
  function AfterQuery(store: map<string, seq<Message>>, sessionId: Option<string>, q: string, answerText: string)
    : (r: map<string, seq<Message>>)
    ensures !IsTruthy(sessionId) ==> r == store
    ensures IsTruthy(sessionId) ==>
      r == store[sessionId.value := Truncate(Prior(store, sessionId.value) + [Message(UserRole, q), Message(AssistantRole, answerText)])]
    ensures IsTruthy(sessionId) ==>
      var h := r[sessionId.value];
      |h| >= 2 && h[|h| - 2..] == [Message(UserRole, q), Message(AssistantRole, answerText)]
  {
    if !IsTruthy(sessionId) then store
    else
      var sid := sessionId.value;
      var afterUser := Truncate(Prior(store, sid) + [Message(UserRole, q)]);
      TurnTail(Prior(store, sid), Message(UserRole, q), Message(AssistantRole, answerText));
      store[sid := Truncate(afterUser + [Message(AssistantRole, answerText)])]
  }

  /**
   * The store after a request whose generation step raises (`ollama.generate`
   * fails, or its reply has no "response"): with a truthy session id the
   * question has already been appended and truncated, so the session ends
   * with the question and no answer follows it. Without a truthy session id,
   * nothing changes.
   */
  function AfterQuestion(store: map<string, seq<Message>>, sessionId: Option<string>, q: string)
    : (r: map<string, seq<Message>>)
    ensures !IsTruthy(sessionId) ==> r == store
    ensures IsTruthy(sessionId) ==>
      r == store[sessionId.value := Truncate(Prior(store, sessionId.value) + [Message(UserRole, q)])]
    ensures IsTruthy(sessionId) ==>
      var h := r[sessionId.value];
      1 <= |h| <= MaxHistoryMessages && h[|h| - 1] == Message(UserRole, q)
  {
    if !IsTruthy(sessionId) then store
    else
      var sid := sessionId.value;
      var whole := Prior(store, sid) + [Message(UserRole, q)];
      var kept := Truncate(whole);
      TruncateIsSuffix(whole);
      assert kept[|kept| - 1] == whole[|whole| - 1] == Message(UserRole, q);
      store[sid := kept]
  }

  /**
   * A completed request is the unanswered one followed by recording the
   * answer: appending the answer to the session AfterQuestion leaves, and
   * truncating, gives AfterQuery.
   */
  lemma AnswerCompletesQuestion(store: map<string, seq<Message>>, sessionId: Option<string>, q: string, answerText: string)
    ensures var asked := AfterQuestion(store, sessionId, q);
      AfterQuery(store, sessionId, q, answerText)
        == if IsTruthy(sessionId)
           then asked[sessionId.value := Truncate(asked[sessionId.value] + [Message(AssistantRole, answerText)])]
           else asked
  {
    if IsTruthy(sessionId) {
      var sid := sessionId.value;
      var user, assistant := Message(UserRole, q), Message(AssistantRole, answerText);
      TurnTail(Prior(store, sid), user, assistant);
      var asked := AfterQuestion(store, sessionId, q);
      assert asked[sid] == Truncate(Prior(store, sid) + [user]);
      assert asked[sid := Truncate(asked[sid] + [assistant])] == store[sid := Truncate(Prior(store, sid) + [user, assistant])];
    }
  }

  /**
   * A request creates or changes only its own session's entry, and keeps
   * every session within MaxHistoryMessages messages.
   */
  lemma AfterQueryFrame(store: map<string, seq<Message>>, sessionId: Option<string>, q: string, answerText: string)
    ensures var r := AfterQuery(store, sessionId, q, answerText);
      && (forall sid :: sid in r <==> sid in store || (IsTruthy(sessionId) && sid == sessionId.value))
      && (forall sid :: sid in store && (IsTruthy(sessionId) ==> sid != sessionId.value) ==> r[sid] == store[sid])
      && (Bounded(store) ==> Bounded(r))
  {
    if IsTruthy(sessionId) {
      var sid := sessionId.value;
      var h := Truncate(Prior(store, sid) + [Message(UserRole, q), Message(AssistantRole, answerText)]);
      assert AfterQuery(store, sessionId, q, answerText) == store[sid := h];
      BoundedUpdate(store, sid, h);
    }
  }

  // ---------------------------------------------------------------------------
  // The module-level `chat_history` and the handler
  // ---------------------------------------------------------------------------

  /**
   * `store` keeps, for each session of `log`, the last MaxHistoryMessages
   * messages of that session's whole conversation.
   */
  ghost predicate Tracks(store: map<string, seq<Message>>, log: map<string, seq<Message>>) {
    && store.Keys == log.Keys
    && forall sid :: sid in store ==> store[sid] == Truncate(log[sid])
  }

  /** Appending one message and truncating keeps the store tracking the grown conversation. */
  lemma TracksAppend(store: map<string, seq<Message>>, log: map<string, seq<Message>>, sid: string, m: Message)
    requires Tracks(store, log) && sid in store
    ensures Tracks(store[sid := Truncate(store[sid] + [m])], log[sid := log[sid] + [m]])
  {
    TruncateAppend(log[sid], m);
  }

  /** Opening, then recording the question, is the state AfterQuestion describes. */
  lemma QuestionStore(store: map<string, seq<Message>>, log: map<string, seq<Message>>, sid: string, q: string)
    requires sid != ""
    ensures var initialised := store[sid := Prior(store, sid)];
      initialised[sid := Truncate(initialised[sid] + [Message(UserRole, q)])] == AfterQuestion(store, Some(sid), q)
    ensures var initialised := log[sid := Prior(log, sid)];
      initialised[sid := initialised[sid] + [Message(UserRole, q)]] == log[sid := Prior(log, sid) + [Message(UserRole, q)]]
  {
    var p := Prior(store, sid);
    assert IsTruthy(Some(sid));
    assert AfterQuestion(store, Some(sid), q) == store[sid := Truncate(p + [Message(UserRole, q)])];
    assert store[sid := p][sid := Truncate(p + [Message(UserRole, q)])] == store[sid := Truncate(p + [Message(UserRole, q)])];
  }

  /** Opening, then recording the question and the answer, is the state AfterQuery describes. */
  lemma TurnStore(store: map<string, seq<Message>>, log: map<string, seq<Message>>, sid: string, q: string, answerText: string)
    requires sid != ""
    ensures var initialised := store[sid := Prior(store, sid)];
      var afterUser := initialised[sid := Truncate(initialised[sid] + [Message(UserRole, q)])];
      afterUser[sid := Truncate(afterUser[sid] + [Message(AssistantRole, answerText)])]
        == AfterQuery(store, Some(sid), q, answerText)
    ensures var initialised := log[sid := Prior(log, sid)];
      var afterUser := initialised[sid := initialised[sid] + [Message(UserRole, q)]];
      afterUser[sid := afterUser[sid] + [Message(AssistantRole, answerText)]]
        == log[sid := Prior(log, sid) + [Message(UserRole, q), Message(AssistantRole, answerText)]]
  {
    var user, assistant := Message(UserRole, q), Message(AssistantRole, answerText);
    var p := Prior(store, sid);
    var t1 := Truncate(p + [user]);
    TurnTail(p, user, assistant);
    assert IsTruthy(Some(sid));
    assert AfterQuery(store, Some(sid), q, answerText) == store[sid := Truncate(p + [user, assistant])];
    assert store[sid := p][sid := t1][sid := Truncate(t1 + [assistant])] == store[sid := Truncate(t1 + [assistant])];
    assert Prior(log, sid) + [user] + [assistant] == Prior(log, sid) + [user, assistant];
  }

  /** The module-level `chat_history` dictionary of app.py. */
  class ChatHistoryStore {
    /** `chat_history`: session id to the messages kept for it. */
    var chatHistory: map<string, seq<Message>>
    /** Every message ever recorded per session, oldest first. */
    ghost var log: map<string, seq<Message>>

    /** What is kept for each session is the last MaxHistoryMessages messages of its whole conversation. */
    ghost predicate Valid()
      reads this
      ensures Valid() ==> Bounded(chatHistory)
    {
      Tracks(chatHistory, log)
    }

    constructor ()
      ensures Valid()
      ensures chatHistory == map[] && log == map[]
    {
      chatHistory := map[];
      log := map[];
    }

    /** `if session_id not in chat_history: chat_history[session_id] = []`; yields the session's stored messages. */
    method OpenSession(sid: string) returns (prior: seq<Message>)
      requires Valid()
      modifies this
      ensures Valid() && sid in chatHistory
      ensures prior == Prior(old(chatHistory), sid) && prior == chatHistory[sid]
      ensures chatHistory == old(chatHistory)[sid := prior]
      ensures log == old(log)[sid := Prior(old(log), sid)]
    {
      if sid !in chatHistory {
        chatHistory := chatHistory[sid := []];
        log := log[sid := []];
      } else {
        assert chatHistory == chatHistory[sid := chatHistory[sid]];
        assert log == log[sid := log[sid]];
      }
      prior := chatHistory[sid];
    }

    /** `chat_history[sid].append(m)` followed by the slice to the last MaxHistoryMessages. */
    method Record(sid: string, m: Message)
      requires Valid() && sid in chatHistory
      modifies this
      ensures Valid()
      ensures chatHistory == old(chatHistory)[sid := Truncate(old(chatHistory)[sid] + [m])]
      ensures log == old(log)[sid := old(log)[sid] + [m]]
    {
      TracksAppend(chatHistory, log, sid, m);
      var h := chatHistory[sid] + [m];
      chatHistory := chatHistory[sid := h];
      if |h| > MaxHistoryMessages {
        h := h[|h| - MaxHistoryMessages..];
        chatHistory := chatHistory[sid := h];
      }
      log := log[sid := log[sid] + [m]];
    }

    /**
     * The `/query` handler. Returns the prompt it would hand to the language
     * model and the answer it sends back. `generated` is the model's text, or
     * None when `ollama.generate` raises or its reply has no "response"; the
     * handler then raises too (answer None), after the question is stored.
     */
    method Query(q: string, sessionId: Option<string>, context: string, generated: Option<string>)
      returns (prompt: string, answer: Option<string>)
      requires Valid()
      modifies this
      ensures Valid()
      ensures answer == generated
      ensures prompt == Prompt(if IsTruthy(sessionId) then HistoryBlock(Prior(old(chatHistory), sessionId.value)) else "", context, q)
      ensures chatHistory == match generated
        case Some(answerText) => AfterQuery(old(chatHistory), sessionId, q, answerText)
        case None => AfterQuestion(old(chatHistory), sessionId, q)
      ensures log == if IsTruthy(sessionId)
        then old(log)[sessionId.value := Prior(old(log), sessionId.value) + [Message(UserRole, q)]
          + (if generated.Some? then [Message(AssistantRole, generated.value)] else [])]
        else old(log)
    {
      var conversationHistory := "";
      if sessionId.Some? && sessionId.value != "" {
        var prior := OpenSession(sessionId.value);
        conversationHistory := BuildHistoryBlock(prior);
        Record(sessionId.value, Message(UserRole, q));
        QuestionStore(old(chatHistory), old(log), sessionId.value, q);
      }
      prompt := AssemblePrompt(conversationHistory, context, q);
      answer := generated;
      if generated.Some? {
        var answerText := generated.value;
        if sessionId.Some? && sessionId.value != "" && sessionId.value in chatHistory {
          Record(sessionId.value, Message(AssistantRole, answerText));
          TurnStore(old(chatHistory), old(log), sessionId.value, q, answerText);
          assert Prior(old(log), sessionId.value) + [Message(UserRole, q)] + [Message(AssistantRole, answerText)]
            == Prior(old(log), sessionId.value) + [Message(UserRole, q), Message(AssistantRole, answerText)];
        }
      } else if sessionId.Some? && sessionId.value != "" {
        assert Prior(old(log), sessionId.value) + [Message(UserRole, q)] + []
          == Prior(old(log), sessionId.value) + [Message(UserRole, q)];
      }
    }
  }
}
