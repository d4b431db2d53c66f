/**
 * The conversation gateway: the rotating choice between two provider keys, the
 * system prompt built from a lesson configuration, the conversation summariser and
 * the response generator with its failure classification. The provider call itself
 * is an input: each call's outcome is given, and the model returns the requests the
 * gateway would send.
 */
module Groq {
  import opened Wrappers
  import opened Js
  import ConfigUtils

  // ---------------------------------------------------------------- key rotation

  /** The two configured keys (`""` when a key is unset) and the module-level `apiKeyIndex`. */
  datatype KeyCursor = KeyCursor(key1: string, key2: string, index: int)

  /** The index only ever holds 0 or 1. */
  predicate ValidCursor(c: KeyCursor) {
    c.index == 0 || c.index == 1
  }

  /** The key a call of `getNextApiKey` returns and the cursor it leaves behind. */
  datatype KeyPick = KeyPick(key: string, cursor: KeyCursor)

  /** `getNextApiKey()` on cursor `c`. */
  function RotateKey(c: KeyCursor): (r: KeyPick)
    requires ValidCursor(c)
    ensures ValidCursor(r.cursor) && r.cursor.key1 == c.key1 && r.cursor.key2 == c.key2
    ensures c.key2 == "" ==> r == KeyPick(c.key1, c)
    ensures c.key2 != "" ==> r.cursor.index == 1 - c.index
    ensures c.key2 != "" ==> r.key == (if r.cursor.index == 0 then c.key1 else c.key2)
  {
    if c.key2 == "" then KeyPick(c.key1, c)
    else
      var i := (c.index + 1) % 2;
      KeyPick(if i == 0 then c.key1 else c.key2, c.(index := i))
  }

  /** The keys `n` successive calls return. */
  function Rotation(c: KeyCursor, n: nat): (r: seq<string>)
    requires ValidCursor(c)
    ensures |r| == n
    decreases n
  {
    if n == 0 then [] else [RotateKey(c).key] + Rotation(RotateKey(c).cursor, n - 1)
  }

  /** The cursor after `n` successive calls. */
  function Advance(c: KeyCursor, n: nat): (r: KeyCursor)
    requires ValidCursor(c)
    ensures ValidCursor(r)
    decreases n
  {
    if n == 0 then c else Advance(RotateKey(c).cursor, n - 1)
  }

  /**
   * With a second key, the calls alternate: the `i`-th call (from 0) returns the first
   * key exactly when `index + 1 + i` is even, and the index flips on every call.
   */
  lemma {:induction false} RotationAlternates(c: KeyCursor, n: nat)
    requires ValidCursor(c) && c.key2 != ""
    ensures forall i :: 0 <= i < n ==> Rotation(c, n)[i] == (if (c.index + 1 + i) % 2 == 0 then c.key1 else c.key2)
    ensures Advance(c, n) == c.(index := (c.index + n) % 2)
    decreases n
  {
    if n > 0 {
      var next := RotateKey(c).cursor;
      RotationAlternates(next, n - 1);
      forall i | 0 <= i < n
        ensures Rotation(c, n)[i] == (if (c.index + 1 + i) % 2 == 0 then c.key1 else c.key2)
      {
        if i > 0 {
          assert Rotation(c, n)[i] == Rotation(next, n - 1)[i - 1];
          assert (next.index + 1 + (i - 1)) % 2 == (c.index + 1 + i) % 2;
        }
      }
    }
  }

  /** From the initial index 1 the calls return KEY1, KEY2, KEY1, … */
  lemma FreshRotation(key1: string, key2: string, n: nat)
    requires key2 != ""
    ensures forall i :: 0 <= i < n ==> Rotation(KeyCursor(key1, key2, 1), n)[i] == (if i % 2 == 0 then key1 else key2)
  {
    RotationAlternates(KeyCursor(key1, key2, 1), n);
    assert forall i :: (1 + 1 + i) % 2 == i % 2;
  }

  /** Without a second key every call returns the first key and the cursor never moves. */
  lemma {:induction false} SingleKeyRotation(c: KeyCursor, n: nat)
    requires ValidCursor(c) && c.key2 == ""
    ensures forall i :: 0 <= i < n ==> Rotation(c, n)[i] == c.key1
    ensures Advance(c, n) == c
    decreases n
  {
    if n > 0 {
      SingleKeyRotation(c, n - 1);
      assert Rotation(c, n) == [c.key1] + Rotation(c, n - 1);
    }
  }

  // ---------------------------------------------------------------- the provider call

  /** The settings the gateway reads from the environment; `testMode` is `NODE_ENV === 'test'`. */
  datatype GroqEnv = GroqEnv(summaryThreshold: int, maxRecentMessages: int, testMode: bool)

  /** A chat-completion request: the key it is sent with and its message list. */
  datatype GroqRequest = GroqRequest(apiKey: string, messages: seq<Message>)

  /**
   * How a request to the provider ends: a first choice with its message content, a
   * 2xx reply without a usable first choice, an HTTP error reply (with `data.error.message`
   * and `JSON.stringify(data)`), no reply at all, or a failure to set up the request.
   */
  datatype GroqOutcome =
    | Completed(content: Value)
    | Malformed
    | HttpError(status: int, errorMessage: Value, body: string)
    | NoResponse
    | SetupError

  const NoKeyError := "No valid " + "Groq API key is set" + " in environment variables"
  const MessagesRequired := "Valid messages array is required"
  const MockResponse := "This is a mock response for testing purposes."
  const AuthFailed := "Authentication failed: Invalid API key"
  const RateLimited := "Rate limit exceeded: Too many requests"
  const ServiceFailed := "Groq service error: Please try again later"
  const ApiErrorPrefix := "Groq API error: "
  const NoResponseError := "No response from " + "Groq API: Network" + " issue or service unavailable"
  const CommunicationFailed := "Failed to communicate with Groq API"

  /** `data.error?.message || JSON.stringify(data)` */
  function ErrorDetail(errorMessage: Value, body: string): string {
    if Truthy(errorMessage) then ToString(errorMessage) else body
  }

  /** The value `generateAIResponse` returns for the main request's outcome, or the message of the error it throws. */
  function Classify(outcome: GroqOutcome): (r: Result<Value, string>)
    ensures r.Ok? <==> outcome.Completed?
    ensures outcome.Completed? ==> r.value == outcome.content
    ensures outcome.HttpError? && outcome.status == 401 ==> r == Err(AuthFailed)
    ensures outcome.HttpError? && outcome.status == 429 ==> r == Err(RateLimited)
    ensures outcome.HttpError? && outcome.status >= 500 ==> r == Err(ServiceFailed)
    ensures outcome.HttpError? && outcome.status != 401 && outcome.status != 429 && outcome.status < 500 ==>
      r == Err(ApiErrorPrefix + ErrorDetail(outcome.errorMessage, outcome.body))
    ensures outcome.NoResponse? ==> r == Err(NoResponseError)
    ensures outcome.Malformed? || outcome.SetupError? ==> r == Err(CommunicationFailed)
  {
    match outcome
    case Completed(content) => Ok(content)
    case HttpError(status, errorMessage, body) =>
      if status == 401 then Err(AuthFailed)
      else if status == 429 then Err(RateLimited)
      else if status >= 500 then Err(ServiceFailed)
      else Err(ApiErrorPrefix + ErrorDetail(errorMessage, body))
    case NoResponse => Err(NoResponseError)
    case Malformed => Err(CommunicationFailed)
    case SetupError => Err(CommunicationFailed)
  }

  // ---------------------------------------------------------------- the summariser

  const SummaryInstruction: string :=
    "You are a helpful assistant. Please provide a brief, concise summary of the conversation so far. "
    + "Focus only on key points and important context. The conversation should flow in the follwoing order:"
    + "        Ask Questions, Form a Hypothesis, Investigate, Analyze Data, Draw Conclusions, and Reflect. "
    + "Finsish youre response whith what steps have been completed and what steps are next."
  const SummaryRequestText := "Please summarize our conversation so far in a concise way that retains all important context."
  const SummaryPrefix := "Summary of previous conversation: "

  /** The message list of a summary request for the older part of a conversation. */
  function SummaryPrompt(older: seq<Message>): seq<Message> {
    [Message(Str("system"), Str(SummaryInstruction))] + older + [Message(Str("user"), Str(SummaryRequestText))]
  }

  /** The one message that stands in for the older part of a conversation once it is summarised. */
  function SummaryMessage(content: Value): Message {
    Message(Str("assistant"), Str(SummaryPrefix + ToString(content)))
  }

  /** What `summarizeConversation` returns, the request it sends (if any), and the cursor it leaves. */
  datatype SummaryRun = SummaryRun(messages: seq<Message>, request: Option<GroqRequest>, cursor: KeyCursor)

  /**
   * `summarizeConversation(messages)` when the summary request ends in `outcome`: at or
   * under the threshold nothing happens; otherwise a key is taken, and only a completed
   * request replaces the older messages by one summary message; every failure returns
   * the input.
   */
  function Summarization(env: GroqEnv, cur: KeyCursor, messages: seq<Message>, outcome: GroqOutcome): (r: SummaryRun)
    requires ValidCursor(cur)
    ensures ValidCursor(r.cursor)
    ensures |messages| <= env.summaryThreshold ==> r == SummaryRun(messages, None, cur)
    ensures |messages| > env.summaryThreshold ==> r.cursor == RotateKey(cur).cursor
    ensures r.request.Some? <==> |messages| > env.summaryThreshold && RotateKey(cur).key != ""
    ensures r.request.Some? ==>
      r.request.value == GroqRequest(RotateKey(cur).key, SummaryPrompt(Slice(messages, 0, -env.maxRecentMessages)))
    ensures r.messages != messages ==> r.request.Some? && outcome.Completed?
    ensures r.request.Some? && outcome.Completed? ==>
      r.messages == [SummaryMessage(outcome.content)] + SliceFrom(messages, -env.maxRecentMessages)
  {
    if |messages| <= env.summaryThreshold then SummaryRun(messages, None, cur)
    else
      var older := Slice(messages, 0, -env.maxRecentMessages);
      var recent := SliceFrom(messages, -env.maxRecentMessages);
      var pick := RotateKey(cur);
      if pick.key == "" then SummaryRun(messages, None, pick.cursor)
      else
        var request := GroqRequest(pick.key, SummaryPrompt(older));
        match outcome
        case Completed(content) => SummaryRun([SummaryMessage(content)] + recent, Some(request), pick.cursor)
        case _ => SummaryRun(messages, Some(request), pick.cursor)
  }

  /**
   * For `k >= 1`, `slice(0, -k)` and `slice(-k)` split a list into its older part and
   * its last `min(k, n)` messages; the older part may be empty.
   */
  lemma RecentSplit(messages: seq<Message>, k: int)
    requires k >= 1
    ensures Slice(messages, 0, -k) + SliceFrom(messages, -k) == messages
    ensures var m := if k < |messages| then k else |messages|;
      SliceFrom(messages, -k) == messages[|messages| - m..] && Slice(messages, 0, -k) == messages[..|messages| - m]
  {
    var m := if k < |messages| then k else |messages|;
    assert RelativeIndex(-k, |messages|) == |messages| - m;
    assert messages[..|messages| - m] + messages[|messages| - m..] == messages;
  }

  /** A summary that succeeds leaves one summary message followed by the `min(k, n)` most recent messages. */
  lemma SummarySucceeds(env: GroqEnv, cur: KeyCursor, messages: seq<Message>, content: Value)
    requires ValidCursor(cur) && env.maxRecentMessages >= 1
    requires |messages| > env.summaryThreshold && RotateKey(cur).key != ""
    ensures var r := Summarization(env, cur, messages, Completed(content));
      var k := env.maxRecentMessages;
      var m := if k < |messages| then k else |messages|;
      && r.messages == [SummaryMessage(content)] + messages[|messages| - m..]
      && |r.messages| == 1 + m
      && r.request == Some(GroqRequest(RotateKey(cur).key, SummaryPrompt(messages[..|messages| - m])))
  {
    RecentSplit(messages, env.maxRecentMessages);
  }

  /** Every failure of the summary request, and a missing key, hand back the original list. */
  lemma SummaryFallsBack(env: GroqEnv, cur: KeyCursor, messages: seq<Message>, outcome: GroqOutcome)
    requires ValidCursor(cur)
    requires !outcome.Completed? || RotateKey(cur).key == ""
    ensures Summarization(env, cur, messages, outcome).messages == messages
  {
  }

  // ---------------------------------------------------------------- the response generator

  predicate IsSystem(m: Message) {
    StrictEquals(m.role, Str("system"))
  }

  /** `messages.find(msg => msg.role === 'system')` */
  function FirstSystem(messages: seq<Message>): (r: Option<Message>)
    ensures r.None? <==> forall i :: 0 <= i < |messages| ==> !IsSystem(messages[i])
    ensures r.Some? ==> IsSystem(r.value)
  {
    if |messages| == 0 then None
    else if IsSystem(messages[0]) then Some(messages[0])
    else
      var r := FirstSystem(messages[1..]);
      assert forall i :: 1 <= i < |messages| ==> messages[i] == messages[1..][i - 1];
      r
  }

  /** `find` returns the first system message: the one at the smallest index. */
  lemma {:induction false} FirstSystemIsFirst(messages: seq<Message>, i: nat)
    requires i < |messages| && IsSystem(messages[i])
    requires forall j :: 0 <= j < i ==> !IsSystem(messages[j])
    ensures FirstSystem(messages) == Some(messages[i])
  {
    if i > 0 {
      FirstSystemIsFirst(messages[1..], i - 1);
    }
  }

  /** `messages.filter(msg => msg.role !== 'system')` */
  function NonSystem(messages: seq<Message>): (r: seq<Message>)
    ensures |r| <= |messages|
    ensures forall i :: 0 <= i < |r| ==> !IsSystem(r[i]) && r[i] in messages
  {
    if |messages| == 0 then []
    else if IsSystem(messages[0]) then NonSystem(messages[1..])
    else [messages[0]] + NonSystem(messages[1..])
  }

  /** The filter keeps order and drops nothing else: on a concatenation it filters each part in turn. */
  lemma {:induction false} NonSystemAppend(a: seq<Message>, b: seq<Message>)
    ensures NonSystem(a + b) == NonSystem(a) + NonSystem(b)
  {
    if a == [] {
      assert a + b == b;
    } else {
      assert (a + b)[1..] == a[1..] + b;
      NonSystemAppend(a[1..], b);
    }
  }

  /** A conversation without system messages passes the filter unchanged. */
  lemma {:induction false} NonSystemKeeps(messages: seq<Message>)
    requires forall i :: 0 <= i < |messages| ==> !IsSystem(messages[i])
    ensures NonSystem(messages) == messages
  {
    if |messages| > 0 {
      assert forall i :: 0 <= i < |messages[1..]| ==> messages[1..][i] == messages[i + 1];
      NonSystemKeeps(messages[1..]);
    }
  }

  /** What `generateAIResponse` returns or throws, the requests it sends in order, and the cursor it leaves. */
  datatype AIRun = AIRun(result: Result<Value, string>, requests: seq<GroqRequest>, cursor: KeyCursor)

  /** The list sent to the provider: the first system message (if any), then the processed conversation. */
  function Reassembled(system: Option<Message>, processed: seq<Message>): seq<Message> {
    (if system.Some? then [system.value] else []) + processed
  }

  /**
   * `generateAIResponse(messages)` when the summary request ends in `summaryOutcome`
   * and the main request in `mainOutcome`. `messages` is `None` when it is missing or
   * not an array.
   */
  function Generation(env: GroqEnv, cur: KeyCursor, messages: Option<seq<Message>>,
                      summaryOutcome: GroqOutcome, mainOutcome: GroqOutcome): (r: AIRun)
    requires ValidCursor(cur)
    ensures ValidCursor(r.cursor)
  {
    var pick := RotateKey(cur);
    if pick.key == "" then AIRun(Err(NoKeyError), [], pick.cursor)
    else if messages.None? || |messages.value| == 0 then AIRun(Err(MessagesRequired), [], pick.cursor)
    else if env.testMode then AIRun(Ok(Str(MockResponse)), [], pick.cursor)
    else
      var conversation := NonSystem(messages.value);
      var summary :=
        if |conversation| > env.summaryThreshold then Summarization(env, pick.cursor, conversation, summaryOutcome)
        else SummaryRun(conversation, None, pick.cursor);
      var main := GroqRequest(pick.key, Reassembled(FirstSystem(messages.value), summary.messages));
      var sent := if summary.request.Some? then [summary.request.value, main] else [main];
      AIRun(Classify(mainOutcome), sent, summary.cursor)
  }

  /**
   * The key is taken before the input is looked at: a missing key is reported even for
   * bad input, and a rejected input still advances the rotation.
   */
  lemma KeyTakenFirst(env: GroqEnv, cur: KeyCursor, messages: Option<seq<Message>>, s: GroqOutcome, m: GroqOutcome)
    requires ValidCursor(cur)
    ensures RotateKey(cur).key == "" ==> Generation(env, cur, messages, s, m) == AIRun(Err(NoKeyError), [], RotateKey(cur).cursor)
    ensures RotateKey(cur).key != "" && (messages.None? || messages.value == []) ==>
      Generation(env, cur, messages, s, m) == AIRun(Err(MessagesRequired), [], RotateKey(cur).cursor)
  {
  }

  /** In test mode a call with a key and a non-empty conversation returns the mock reply and sends nothing. */
  lemma TestModeMocks(env: GroqEnv, cur: KeyCursor, messages: seq<Message>, s: GroqOutcome, m: GroqOutcome)
    requires ValidCursor(cur) && RotateKey(cur).key != "" && messages != [] && env.testMode
    ensures Generation(env, cur, Some(messages), s, m) == AIRun(Ok(Str(MockResponse)), [], RotateKey(cur).cursor)
  {
  }

  /**
   * The outbound list: the first system message, if there is one, followed by the
   * non-system messages in order, summarised only above the threshold; no later
   * system message survives.
   */
  lemma Assembly(env: GroqEnv, cur: KeyCursor, messages: seq<Message>, s: GroqOutcome, m: GroqOutcome)
    requires ValidCursor(cur) && RotateKey(cur).key != "" && messages != [] && !env.testMode
    ensures var r := Generation(env, cur, Some(messages), s, m);
      var conversation := NonSystem(messages);
      var main := r.requests[|r.requests| - 1];
      && r.result == Classify(m)
      && main.apiKey == RotateKey(cur).key
      && (|conversation| <= env.summaryThreshold ==> r.requests == [main] && main.messages == Reassembled(FirstSystem(messages), conversation))
      && (|conversation| > env.summaryThreshold ==>
            main.messages == Reassembled(FirstSystem(messages), Summarization(env, RotateKey(cur).cursor, conversation, s).messages))
      && (forall i :: 0 < i < |main.messages| ==> !IsSystem(main.messages[i]))
      && (FirstSystem(messages).Some? <==> |main.messages| > 0 && IsSystem(main.messages[0]))
  {
    var conversation := NonSystem(messages);
    var pick := RotateKey(cur);
    var processed :=
      if |conversation| > env.summaryThreshold then Summarization(env, pick.cursor, conversation, s).messages
      else conversation;
    if |conversation| > env.summaryThreshold {
      SummaryKeepsNonSystem(env, pick.cursor, conversation, s);
    }
    ReassembledShape(FirstSystem(messages), processed);
    var r := Generation(env, cur, Some(messages), s, m);
    assert r.requests[|r.requests| - 1] == GroqRequest(pick.key, Reassembled(FirstSystem(messages), processed));
  }

  /** A slice of a conversation without system messages has none either. */
  lemma SliceKeepsNonSystem(messages: seq<Message>, start: int, end: int)
    requires forall i :: 0 <= i < |messages| ==> !IsSystem(messages[i])
    ensures forall i :: 0 <= i < |Slice(messages, start, end)| ==> !IsSystem(Slice(messages, start, end)[i])
  {
    var from, to := RelativeIndex(start, |messages|), RelativeIndex(end, |messages|);
    if from < to {
      forall i | 0 <= i < to - from ensures !IsSystem(messages[from..to][i]) {
        assert messages[from..to][i] == messages[from + i];
      }
    }
  }

  /** Summarising a conversation without system messages adds none: the summary is an assistant message. */
  lemma SummaryKeepsNonSystem(env: GroqEnv, cur: KeyCursor, conversation: seq<Message>, s: GroqOutcome)
    requires ValidCursor(cur)
    requires forall i :: 0 <= i < |conversation| ==> !IsSystem(conversation[i])
    ensures var summary := Summarization(env, cur, conversation, s).messages;
      forall i :: 0 <= i < |summary| ==> !IsSystem(summary[i])
  {
    var summary := Summarization(env, cur, conversation, s).messages;
    if summary != conversation {
      var recent := SliceFrom(conversation, -env.maxRecentMessages);
      SliceKeepsNonSystem(conversation, -env.maxRecentMessages, |conversation|);
      assert summary == [SummaryMessage(s.content)] + recent;
      assert !IsSystem(SummaryMessage(s.content));
      forall i | 0 < i < |summary| ensures !IsSystem(summary[i]) {
        assert summary[i] == recent[i - 1];
      }
    }
  }

  /** The reassembled list has a system message at its head exactly when one was found, and nowhere else. */
  lemma ReassembledShape(system: Option<Message>, processed: seq<Message>)
    requires system.Some? ==> IsSystem(system.value)
    requires forall i :: 0 <= i < |processed| ==> !IsSystem(processed[i])
    ensures var r := Reassembled(system, processed);
      && (forall i :: 0 < i < |r| ==> !IsSystem(r[i]))
      && (system.Some? <==> |r| > 0 && IsSystem(r[0]))
  {
    var r := Reassembled(system, processed);
    if system.Some? {
      assert forall i :: 0 < i < |r| ==> r[i] == processed[i - 1];
    } else {
      assert r == processed;
    }
  }

  /**
   * With two distinct keys, a call that summarises sends the summary request and then
   * the main request, each with a different key, and moves the rotation twice.
   */
  lemma SummaryUsesOtherKey(env: GroqEnv, cur: KeyCursor, messages: seq<Message>, s: GroqOutcome, m: GroqOutcome)
    requires ValidCursor(cur) && cur.key1 != "" && cur.key2 != "" && cur.key1 != cur.key2
    requires messages != [] && !env.testMode && |NonSystem(messages)| > env.summaryThreshold
    ensures var r := Generation(env, cur, Some(messages), s, m);
      |r.requests| == 2 && r.requests[0].apiKey != r.requests[1].apiKey && r.cursor == Advance(cur, 2)
  {
    RotationAlternates(cur, 2);
    var pick := RotateKey(cur);
    assert Advance(cur, 2) == RotateKey(pick.cursor).cursor;
  }

  // ---------------------------------------------------------------- the system prompt

  const ConfigRequired := "Config object is required to create a system prompt"
  const FieldMissingPrefix := "Missing required field in config: "
  const NoAdditional := "No additional instructions."

  const ActiveIntro: string :=
    " are an AI educational socratic guide for ThinkTrove.io, an inquiry-based mystery learning platform. Support critical thinking by facilitating student discovery rather than providing answers. Act as if the student is a detective exploring a mystery.\n\nThinkTrove.io develops:\n- Critical thinking and problem-solving\n- Creativity\n- Scientific literacy\n- Multiple perspective consideration\n\nLESSON CONTEXT:"
  const ActiveGuidelines: string :=
    "\n\nINTERACTION GUIDELINES:\n1. **Use Socratic Method:**\n  - Ask open-ended questions that prompt reflection\n  - Never reveal answers or confirm hypotheses\n  - Redirect answer requests with questions\n\n2. **Guide Through Inquiry Stages:**\n  - Follow these stages in sequential order, spending as much time as needed in each stage before progressing:\n  - Stage 1: **Ask Questions** - Encourage student questions to gather context and define the core issue\n  - Stage 2: **Form a Hypothesis** - Guide students to make predictions\n  - Stage 3: **Investigate** - Help decide what data to gather\n  - Stage 4: **Analyze Data** - Present information for interpretation\n  - Stage 5: **Draw Conclusions** - Guide students toward logical conclusions\n  - Stage 6: **Reflect** - Consider implications of findings\n  - Progress when student shows readiness for next stage\n  - Subtly signal current stage in responses (e.g., \"As we continue questioning...\")\n\n3. **Provide Minimal Support:**"
  const ActiveSupport: string :=
    "\n  - Address misconceptions with questions, not corrections\n\n4. **Be Supportive:**"
  const ActiveFocus: string :=
    "\n  - Praise evidence-based reasoning without confirming correctness\n\n5. **Focus Content:**"
  const ActiveContinuity: string :=
    "\n  - Avoid providing definitive answers\n\n7. **Maintain Narrative Continuity:**\n  - Keep characters, settings, and plot elements consistent throughout all stages\n  - Reference previous discoveries and insights as the investigation progresses\n  - Develop the mystery narrative alongside the learning progression\n  - Ensure that new information builds upon previously established facts\n"
  const ActiveClosing: string :=
    "\n\nKEEP RESPONSES TO 350 WORDS OR LESS\n\nBegin with a brief mystery scenario and character who shares basic facts. Provide enough detail to engage but leave room for discovery."
  /** The pieces of the active prompt template, between its leading newline and its closing `\n  `. */
  function PromptPieces(config: Object): seq<string> {
    [
      /*  0 */ "You",
      /*  1 */ ActiveIntro,
      /*  2 */ "\n- Title: ",
      /*  3 */ FieldText(config, "lessonTitle"),
      /*  4 */ "\n- Subject: ",
      /*  5 */ FieldText(config, "subject"),
      /*  6 */ "\n- Grade Level: ",
      /*  7 */ FieldText(config, "gradeLevel"),
      /*  8 */ "\n- Learning Objective: ",
      /*  9 */ FieldText(config, "learningObjective"),
      /* 10 */ ActiveGuidelines,
      /* 11 */ "\n  - Offer up to ",
      /* 12 */ FieldText(config, "hintLimit"),
      /* 13 */ " subtle hints when needed",
      /* 14 */ ActiveSupport,
      /* 15 */ "\n  - Maintain a ",
      /* 16 */ ToString(Or(Get(config, "tone"), Str("neutral"))),
      /* 17 */ ", encouraging tone",
      /* 18 */ ActiveFocus,
      /* 19 */ "\n  - Explore: ",
      /* 20 */ FieldText(config, "validHypotheses"),
      /* 21 */ "\n  - Consider: ",
      /* 22 */ FieldText(config, "correctConcepts"),
      /* 23 */ "\n\n6. **End With Reflection:**",
      /* 24 */ "\n  - Conclude with: ",
      /* 25 */ FieldText(config, "reflectionPrompt"),
      /* 26 */ ActiveContinuity,
      /* 27 */ "\nADDITIONAL: ",
      /* 28 */ ToString(Or(Get(config, "additionalInstructions"), Str(NoAdditional))),
      /* 29 */ ActiveClosing
    ]
  }

  /** The text `createSystemPrompt` returns for a configuration that passes its field check. */
  function PromptText(config: Object): string {
    Trim("\n" + Concat(PromptPieces(config)) + "\n  ")
  }

  /** `createSystemPrompt(config)`: the prompt, or the message of the error it throws; `None` is a missing config. */
  function SystemPromptFor(config: Option<Object>): (r: Result<string, string>)
    ensures config.None? ==> r == Err(ConfigRequired)
    ensures config.Some? ==> (r.Ok? <==> ConfigUtils.HasAllFields(config.value, ConfigUtils.RequiredFields))
    ensures config.Some? && r.Err? ==>
      r.error == FieldMissingPrefix + ConfigUtils.FirstMissingField(config.value, ConfigUtils.RequiredFields).value
  {
    if config.None? then Err(ConfigRequired)
    else
      match ConfigUtils.FirstMissingField(config.value, ConfigUtils.RequiredFields)
      case Some(field) => Err(FieldMissingPrefix + field)
      case None => Ok(PromptText(config.value))
  }

  /** `createSystemPrompt`: the field check is a loop that throws at the first falsy field. */
  method CreateSystemPrompt(config: Option<Object>) returns (r: Result<string, string>)
    ensures r == SystemPromptFor(config)
  {
    if config.None? {
      return Err(ConfigRequired);
    }
    var c := config.value;
    var fields := ConfigUtils.RequiredFields;
    for i := 0 to |fields|
      invariant ConfigUtils.HasAllFields(c, fields[..i])
    {
      if !Truthy(Get(c, fields[i])) {
        ConfigUtils.FirstMissingFieldFrom(c, fields, i);
        return Err(FieldMissingPrefix + fields[i]);
      }
      assert fields[..i + 1] == fields[..i] + [fields[i]];
    }
    assert fields[..|fields|] == fields;
    return Ok(PromptText(c));
  }

  /** An empty `phases` array passes the field check, since every array is truthy. */
  lemma EmptyPhasesPass(config: Object)
    requires ConfigUtils.HasAllFields(config, ConfigUtils.RequiredFields)
    ensures SystemPromptFor(Some(config["phases" := Arr([])])).Ok?
  {
    var c := config["phases" := Arr([])];
    var fs := ConfigUtils.RequiredFields;
    forall i | 0 <= i < |fs| ensures Truthy(Get(c, fs[i])) {
      if fs[i] != "phases" { assert Get(c, fs[i]) == Get(config, fs[i]); }
    }
  }

  /** `trim` takes off exactly the template's layout whitespace. */
  lemma PromptUntrimmed(config: Object)
    ensures PromptText(config) == Concat(PromptPieces(config))
  {
    var p := PromptPieces(config);
    assert p[0][0] == 'Y';
    assert p[29][|p[29]| - 1] == '.';
    TemplateExact("\n", p, "\n  ");
  }

  // Each labelled line appears in the untrimmed text.
  lemma HasTitleLine(config: Object)
    ensures Includes(Concat(PromptPieces(config)), "\n- Title: " + FieldText(config, "lessonTitle"))
  {
    ConcatIncludesPair(PromptPieces(config), 2, "\n- Title: ", FieldText(config, "lessonTitle"));
  }

  lemma HasSubjectLine(config: Object)
    ensures Includes(Concat(PromptPieces(config)), "\n- Subject: " + FieldText(config, "subject"))
  {
    ConcatIncludesPair(PromptPieces(config), 4, "\n- Subject: ", FieldText(config, "subject"));
  }

  lemma HasGradeLine(config: Object)
    ensures Includes(Concat(PromptPieces(config)), "\n- Grade Level: " + FieldText(config, "gradeLevel"))
  {
    ConcatIncludesPair(PromptPieces(config), 6, "\n- Grade Level: ", FieldText(config, "gradeLevel"));
  }

  lemma HasObjectiveLine(config: Object)
    ensures Includes(Concat(PromptPieces(config)), "\n- Learning Objective: " + FieldText(config, "learningObjective"))
  {
    ConcatIncludesPair(PromptPieces(config), 8, "\n- Learning Objective: ", FieldText(config, "learningObjective"));
  }

  lemma HasHintLine(config: Object)
    ensures Includes(Concat(PromptPieces(config)), "\n  - Offer up to " + FieldText(config, "hintLimit"))
  {
    ConcatIncludesPair(PromptPieces(config), 11, "\n  - Offer up to ", FieldText(config, "hintLimit"));
  }

  lemma HasToneLine(config: Object)
    ensures Includes(Concat(PromptPieces(config)), "\n  - Maintain a " + ToString(Or(Get(config, "tone"), Str("neutral"))))
  {
    ConcatIncludesPair(PromptPieces(config), 15, "\n  - Maintain a ", ToString(Or(Get(config, "tone"), Str("neutral"))));
  }

  lemma HasExploreLine(config: Object)
    ensures Includes(Concat(PromptPieces(config)), "\n  - Explore: " + FieldText(config, "validHypotheses"))
  {
    ConcatIncludesPair(PromptPieces(config), 19, "\n  - Explore: ", FieldText(config, "validHypotheses"));
  }

  lemma HasConsiderLine(config: Object)
    ensures Includes(Concat(PromptPieces(config)), "\n  - Consider: " + FieldText(config, "correctConcepts"))
  {
    ConcatIncludesPair(PromptPieces(config), 21, "\n  - Consider: ", FieldText(config, "correctConcepts"));
  }

  lemma HasConcludeLine(config: Object)
    ensures Includes(Concat(PromptPieces(config)), "\n  - Conclude with: " + FieldText(config, "reflectionPrompt"))
  {
    ConcatIncludesPair(PromptPieces(config), 24, "\n  - Conclude with: ", FieldText(config, "reflectionPrompt"));
  }

  lemma HasAdditionalLine(config: Object)
    ensures Includes(Concat(PromptPieces(config)), "\nADDITIONAL: " + ToString(Or(Get(config, "additionalInstructions"), Str(NoAdditional))))
  {
    ConcatIncludesPair(PromptPieces(config), 27, "\nADDITIONAL: ", ToString(Or(Get(config, "additionalInstructions"), Str(NoAdditional))));
  }

  /** The prompt names the lesson's title, subject, grade level and objective, each on its labelled line. */
  lemma PromptNamesLesson(config: Object)
    ensures Includes(PromptText(config), "\n- Title: " + FieldText(config, "lessonTitle"))
    ensures Includes(PromptText(config), "\n- Subject: " + FieldText(config, "subject"))
    ensures Includes(PromptText(config), "\n- Grade Level: " + FieldText(config, "gradeLevel"))
    ensures Includes(PromptText(config), "\n- Learning Objective: " + FieldText(config, "learningObjective"))
  {
    PromptUntrimmed(config);
    HasTitleLine(config);
    HasSubjectLine(config);
    HasGradeLine(config);
    HasObjectiveLine(config);
  }

  /** The prompt carries the valid hypotheses, the correct concepts and the reflection prompt verbatim. */
  lemma PromptNamesContent(config: Object)
    ensures Includes(PromptText(config), "\n  - Explore: " + FieldText(config, "validHypotheses"))
    ensures Includes(PromptText(config), "\n  - Consider: " + FieldText(config, "correctConcepts"))
    ensures Includes(PromptText(config), "\n  - Conclude with: " + FieldText(config, "reflectionPrompt"))
  {
    PromptUntrimmed(config);
    HasExploreLine(config);
    HasConsiderLine(config);
    HasConcludeLine(config);
  }

  /**
   * The hint count comes from `hintLimit`; the tone falls back to `neutral` and the
   * additional instructions to `No additional instructions.`.
   */
  lemma PromptDefaults(config: Object)
    ensures Includes(PromptText(config), "\n  - Offer up to " + FieldText(config, "hintLimit"))
    ensures Includes(PromptText(config), "\n  - Maintain a " + ToString(Or(Get(config, "tone"), Str("neutral"))))
    ensures Includes(PromptText(config), "\nADDITIONAL: " + ToString(Or(Get(config, "additionalInstructions"), Str(NoAdditional))))
  {
    PromptUntrimmed(config);
    HasHintLine(config);
    HasToneLine(config);
    HasAdditionalLine(config);
  }

  lemma HasNeutralTone(config: Object)
    requires !Truthy(Get(config, "tone"))
    ensures Includes(Concat(PromptPieces(config)), "\n  - Maintain a " + "neutral")
  {
    HasToneLine(config);
    IncludesRewrite(Concat(PromptPieces(config)), "\n  - Maintain a ", ToString(Or(Get(config, "tone"), Str("neutral"))), "neutral");
  }

  lemma HasNoAdditional(config: Object)
    requires !Truthy(Get(config, "additionalInstructions"))
    ensures Includes(Concat(PromptPieces(config)), "\nADDITIONAL: " + NoAdditional)
  {
    HasAdditionalLine(config);
    IncludesRewrite(Concat(PromptPieces(config)), "\nADDITIONAL: ",
                    ToString(Or(Get(config, "additionalInstructions"), Str(NoAdditional))), NoAdditional);
  }

  /** With the tone or the additional instructions falsy, the prompt shows the fallback text. */
  lemma PromptFallbacks(config: Object)
    ensures !Truthy(Get(config, "tone")) ==> Includes(PromptText(config), "\n  - Maintain a " + "neutral")
    ensures !Truthy(Get(config, "additionalInstructions")) ==> Includes(PromptText(config), "\nADDITIONAL: " + NoAdditional)
  {
    PromptUntrimmed(config);
    if !Truthy(Get(config, "tone")) {
      HasNeutralTone(config);
    }
    if !Truthy(Get(config, "additionalInstructions")) {
      HasNoAdditional(config);
    }
  }

  /** The prompt does not depend on `phases`, `misconceptions` or `maxHints`: none of them is interpolated. */
  lemma PromptIgnores(config: Object, phases: Value, misconceptions: Value, maxHints: Value)
    ensures PromptText(config["phases" := phases]["misconceptions" := misconceptions]["maxHints" := maxHints])
         == PromptText(config)
  {
    PromptPiecesIgnore(config, phases, misconceptions, maxHints);
  }

  lemma PromptPiecesIgnore(config: Object, phases: Value, misconceptions: Value, maxHints: Value)
    ensures PromptPieces(config["phases" := phases]["misconceptions" := misconceptions]["maxHints" := maxHints])
         == PromptPieces(config)
  {
    var c := config["phases" := phases]["misconceptions" := misconceptions]["maxHints" := maxHints];
    assert Get(c, "lessonTitle") == Get(config, "lessonTitle");
    assert Get(c, "subject") == Get(config, "subject");
    assert Get(c, "gradeLevel") == Get(config, "gradeLevel");
    assert Get(c, "learningObjective") == Get(config, "learningObjective");
    assert Get(c, "hintLimit") == Get(config, "hintLimit");
    assert Get(c, "tone") == Get(config, "tone");
    assert Get(c, "validHypotheses") == Get(config, "validHypotheses");
    assert Get(c, "correctConcepts") == Get(config, "correctConcepts");
    assert Get(c, "reflectionPrompt") == Get(config, "reflectionPrompt");
    assert Get(c, "additionalInstructions") == Get(config, "additionalInstructions");
  }

  // ---------------------------------------------------------------- the module state

  /**
   * The gateway module: its environment settings and keys, read once at load time,
   * and the rotation index `apiKeyIndex`, which every call of `getNextApiKey` updates.
   */
  class GroqService {
    const key1: string
    const key2: string
    const env: GroqEnv
    var apiKeyIndex: int

    ghost predicate Valid()
      reads this
    {
      ValidCursor(Cursor())
    }

    function Cursor(): KeyCursor
      reads this
    {
      KeyCursor(key1, key2, apiKeyIndex)
    }

    /** Module load: the index starts at 1, so the first call returns the first key. */
    constructor (key1: string, key2: string, env: GroqEnv)
      ensures this.key1 == key1 && this.key2 == key2 && this.env == env
      ensures apiKeyIndex == 1 && Valid()
    {
      this.key1 := key1;
      this.key2 := key2;
      this.env := env;
      apiKeyIndex := 1;
    }

    /** `getNextApiKey()` */
    method GetNextApiKey() returns (key: string)
      requires Valid()
      modifies this
      ensures Valid()
      ensures KeyPick(key, Cursor()) == RotateKey(old(Cursor()))
    {
      if key2 == "" {
        return key1;
      }
      apiKeyIndex := (apiKeyIndex + 1) % 2;
      key := if apiKeyIndex == 0 then key1 else key2;
    }

    /** `summarizeConversation(messages)`, whose summary request ends in `outcome`. */
    method SummarizeConversation(messages: seq<Message>, outcome: GroqOutcome)
      returns (result: seq<Message>, request: Option<GroqRequest>)
      requires Valid()
      modifies this
      ensures Valid()
      ensures SummaryRun(result, request, Cursor()) == Summarization(env, old(Cursor()), messages, outcome)
    {
      if |messages| <= env.summaryThreshold {
        return messages, None;
      }
      var older := Slice(messages, 0, -env.maxRecentMessages);
      var recent := SliceFrom(messages, -env.maxRecentMessages);
      var key := GetNextApiKey();
      if key == "" {
        return messages, None;
      }
      request := Some(GroqRequest(key, SummaryPrompt(older)));
      if outcome.Completed? {
        result := [SummaryMessage(outcome.content)] + recent;
      } else {
        result := messages;
      }
    }

    /** `generateAIResponse(messages)`, whose summary and main requests end in the given outcomes. */
    method GenerateAIResponse(messages: Option<seq<Message>>, summaryOutcome: GroqOutcome, mainOutcome: GroqOutcome)
      returns (result: Result<Value, string>, requests: seq<GroqRequest>)
      requires Valid()
      modifies this
      ensures Valid()
      ensures AIRun(result, requests, Cursor()) == Generation(env, old(Cursor()), messages, summaryOutcome, mainOutcome)
    {
      var key := GetNextApiKey();
      if key == "" {
        return Err(NoKeyError), [];
      }
      if messages.None? || |messages.value| == 0 {
        return Err(MessagesRequired), [];
      }
      if env.testMode {
        return Ok(Str(MockResponse)), [];
      }
      var system := FirstSystem(messages.value);
      var conversation := NonSystem(messages.value);
      var processed := conversation;
      var summaryRequest: Option<GroqRequest> := None;
      if |conversation| > env.summaryThreshold {
        processed, summaryRequest := SummarizeConversation(conversation, summaryOutcome);
      }
      var main := GroqRequest(key, Reassembled(system, processed));
      requests := if summaryRequest.Some? then [summaryRequest.value, main] else [main];
      result := Classify(mainOutcome);
    }
  }
}
