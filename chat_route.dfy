/**
 * `server/src/routes/chat.js`: `POST /api/chat`. It validates the body, looks the lesson
 * up, builds its system prompt, asks the gateway for a reply and maps the gateway's
 * error messages to HTTP errors by the substrings they contain.
 */
module ChatRoute {
  import opened Wrappers
  import opened Js
  import opened Errors
  import opened Http
  import ConfigUtils
  import opened Groq

  const ConfigNotFound := "Configuration not found"
  const AuthReply := "API authentication failed"
  const RateReply := "Rate limit exceeded, please try again later"
  const GatewayReply := "AI service temporarily unavailable"
  const ChatFailed := "Failed to process chat message"

  /**
   * One request: the list handed to `generateAIResponse` (`None` when it is not called),
   * the provider requests that call makes, the answer, and the key rotation afterwards.
   */
  datatype ChatRun = ChatRun(prompted: Option<seq<Message>>, requests: seq<GroqRequest>, reply: Reply, cursor: KeyCursor)

  /** The inner `catch`: the error for a failed prompt or gateway call, chosen by the first marker its message contains. */
  function RouteError(message: string): (e: ApiError)
    ensures Includes(message, "Authentication failed") ==> e == Unauthorized(Some(AuthReply))
    ensures !Includes(message, "Authentication failed") && Includes(message, "Rate limit") ==>
              e == TooManyRequests(Some(RateReply))
    ensures (!Includes(message, "Authentication failed") && !Includes(message, "Rate limit")
             && Includes(message, "Groq service error")) ==> e == BadGateway(Some(GatewayReply))
    ensures (!Includes(message, "Authentication failed") && !Includes(message, "Rate limit")
             && !Includes(message, "Groq service error")) ==> e == ServerError(Some(ChatFailed))
  {
    if Contains(message, "Authentication failed") then Unauthorized(Some(AuthReply))
    else if Contains(message, "Rate limit") then TooManyRequests(Some(RateReply))
    else if Contains(message, "Groq service error") then BadGateway(Some(GatewayReply))
    else ServerError(Some(ChatFailed))
  }

  /** The system message that leads the list sent to the gateway. */
  function PromptMessage(prompt: string): Message {
    Message(Str("system"), Str(prompt))
  }

  /**
   * The handler for `body` when `readConfigurations()` yields `configs` (`None`: it throws)
   * and the gateway's two provider requests end in `summaryOutcome` and `mainOutcome`.
   */
  function ChatPost(body: ConfigUtils.ChatBody, configs: Option<seq<Object>>, env: GroqEnv, cur: KeyCursor,
                    summaryOutcome: GroqOutcome, mainOutcome: GroqOutcome): (r: ChatRun)
    requires ValidCursor(cur)
    ensures ValidCursor(r.cursor)
    ensures r.prompted.None? ==> r.requests == [] && r.cursor == cur
    ensures ConfigUtils.ValidateChatRequest(body).Err? ==>
              r == ChatRun(None, [], Forward(BadRequest(Some(ConfigUtils.ValidateChatRequest(body).error))), cur)
    ensures ConfigUtils.ValidateChatRequest(body).Ok? && configs.None? ==>
              r == ChatRun(None, [], Forward(ServerError(Some(ChatFailed))), cur)
    ensures ConfigUtils.ValidateChatRequest(body).Ok? && configs.Some? && FindById(configs.value, body.configId).None? ==>
              r == ChatRun(None, [], Forward(NotFound(Some(ConfigNotFound))), cur)
    ensures r.prompted.Some? <==>
              && ConfigUtils.ValidateChatRequest(body).Ok? && configs.Some?
              && FindById(configs.value, body.configId).Some?
              && SystemPromptFor(FindById(configs.value, body.configId)).Ok?
    ensures r.prompted.Some? ==>
              var prompt := SystemPromptFor(FindById(configs.value, body.configId)).value;
              var run := Generation(env, cur, r.prompted, summaryOutcome, mainOutcome);
              && r.prompted.value == [PromptMessage(prompt)] + body.messages.value
              && r.requests == run.requests && r.cursor == run.cursor
              && (run.result.Ok? ==> r.reply == Respond(200, One(map["response" := run.result.value])))
              && (run.result.Err? ==> r.reply == Forward(RouteError(run.result.error)))
  {
    match ConfigUtils.ValidateChatRequest(body)
    case Err(message) => ChatRun(None, [], Forward(BadRequest(Some(message))), cur)
    case Ok(_) =>
      if configs.None? then ChatRun(None, [], Forward(ServerError(Some(ChatFailed))), cur)
      else
        var config := FindById(configs.value, body.configId);
        if config.None? then ChatRun(None, [], Forward(NotFound(Some(ConfigNotFound))), cur)
        else
          match SystemPromptFor(config)
          case Err(message) => ChatRun(None, [], Forward(RouteError(message)), cur)
          case Ok(prompt) =>
            var formatted := [PromptMessage(prompt)] + body.messages.value;
            var run := Generation(env, cur, Some(formatted), summaryOutcome, mainOutcome);
            var reply := match run.result
              case Ok(response) => Respond(200, One(map["response" := response]))
              case Err(message) => Forward(RouteError(message));
            ChatRun(Some(formatted), run.requests, reply, run.cursor)
  }

  /** The lesson used is the first stored configuration whose `id` is strictly equal to the request's. */
  lemma FirstMatchUsed(configs: seq<Object>, id: Value, i: nat)
    requires i < |configs| && StrictEquals(Get(configs[i], "id"), id)
    requires forall j :: 0 <= j < i ==> !StrictEquals(Get(configs[j], "id"), id)
    ensures FindById(configs, id) == Some(configs[i])
  {
    var k := FindIndexById(configs, id);
  }

  // The gateway's error messages and the markers they contain, one fact per lemma.

  lemma AuthFailedMarked()
    ensures Includes(AuthFailed, "Authentication failed")
  {
    assert AuthFailed == "Authentication failed" + ": Invalid API key";
    IncludesPrefix("Authentication failed", ": Invalid API key");
  }

  lemma RateLimitedUnauthenticated()
    ensures !Includes(RateLimited, "Authentication failed")
  {
    MissingCharExcludes(RateLimited, "Authentication failed", 'A');
  }

  lemma RateLimitedMarked()
    ensures Includes(RateLimited, "Rate limit")
  {
    assert RateLimited == "Rate limit" + " exceeded: Too many requests";
    IncludesPrefix("Rate limit", " exceeded: Too many requests");
  }

  lemma ServiceFailedUnauthenticated()
    ensures !Includes(ServiceFailed, "Authentication failed")
  {
    MissingCharExcludes(ServiceFailed, "Authentication failed", 'A');
  }

  lemma ServiceFailedUnlimited()
    ensures !Includes(ServiceFailed, "Rate limit")
  {
    MissingCharExcludes(ServiceFailed, "Rate limit", 'R');
  }

  lemma ServiceFailedMarked()
    ensures Includes(ServiceFailed, "Groq service error")
  {
    assert ServiceFailed == "Groq service error" + ": Please try again later";
    IncludesPrefix("Groq service error", ": Please try again later");
  }

  lemma NoResponseUnauthenticated()
    ensures !Includes(NoResponseError, "Authentication failed")
  {
    var p, q, w := "No response from ", "Groq API: Network", " issue or service unavailable";
    assert 'h' !in p + q && 'h' !in w;
    MissingCharExcludesConcat(p + q, w, "Authentication failed", 'h');
  }

  lemma NoResponseUnlimited()
    ensures !Includes(NoResponseError, "Rate limit")
  {
    var p, q, w := "No response from ", "Groq API: Network", " issue or service unavailable";
    assert 'R' !in p + q && 'R' !in w;
    MissingCharExcludesConcat(p + q, w, "Rate limit", 'R');
  }

  lemma NoResponseUnserviced()
    ensures !Includes(NoResponseError, "Groq service error")
  {
    AnchorExcludes("No response from ", "Groq API: Network", " issue or service unavailable", "Groq service error", 5);
  }

  lemma CommunicationFailedUnauthenticated()
    ensures !Includes(CommunicationFailed, "Authentication failed")
  {
    assert CommunicationFailed == "Failed to communicate with Groq " + "API" + "";
    AnchorExcludes("Failed to communicate with Groq ", "API", "", "Authentication failed", 1);
  }

  lemma CommunicationFailedUnlimited()
    ensures !Includes(CommunicationFailed, "Rate limit")
  {
    MissingCharExcludes(CommunicationFailed, "Rate limit", 'R');
  }

  lemma CommunicationFailedUnserviced()
    ensures !Includes(CommunicationFailed, "Groq service error")
  {
    assert CommunicationFailed == "Failed to communicate with " + "Groq API" + "";
    AnchorExcludes("Failed to communicate with ", "Groq API", "", "Groq service error", 5);
  }

  lemma NoKeyUnauthenticated()
    ensures !Includes(NoKeyError, "Authentication failed")
  {
    var p, q, w := "No valid ", "Groq API key is set", " in environment variables";
    assert 'f' !in p + q && 'f' !in w;
    MissingCharExcludesConcat(p + q, w, "Authentication failed", 'f');
  }

  lemma NoKeyUnlimited()
    ensures !Includes(NoKeyError, "Rate limit")
  {
    var p, q, w := "No valid ", "Groq API key is set", " in environment variables";
    assert 'R' !in p + q && 'R' !in w;
    MissingCharExcludesConcat(p + q, w, "Rate limit", 'R');
  }

  lemma NoKeyUnserviced()
    ensures !Includes(NoKeyError, "Groq service error")
  {
    AnchorExcludes("No valid ", "Groq API key is set", " in environment variables", "Groq service error", 5);
  }

  /**
   * What the client is told for each way the provider call can fail: a rejected key is
   * a 401, a rate limit a 429, a provider failure (5xx) a 502, and a lost connection,
   * a malformed reply or a missing key a 500.
   */
  lemma ProviderErrorMapping(m: GroqOutcome)
    ensures m.HttpError? && m.status == 401 ==> RouteError(Classify(m).error) == Unauthorized(Some(AuthReply))
    ensures m.HttpError? && m.status == 429 ==> RouteError(Classify(m).error) == TooManyRequests(Some(RateReply))
    ensures m.HttpError? && m.status >= 500 ==> RouteError(Classify(m).error) == BadGateway(Some(GatewayReply))
    ensures m.NoResponse? || m.Malformed? || m.SetupError? ==> RouteError(Classify(m).error) == ServerError(Some(ChatFailed))
    ensures RouteError(NoKeyError) == ServerError(Some(ChatFailed))
  {
    if m.HttpError? && m.status == 401 {
      AuthFailedMarked();
    } else if m.HttpError? && m.status == 429 {
      RateLimitedUnauthenticated();
      RateLimitedMarked();
    } else if m.HttpError? && m.status >= 500 {
      ServiceFailedUnauthenticated();
      ServiceFailedUnlimited();
      ServiceFailedMarked();
    } else if m.NoResponse? {
      NoResponseUnauthenticated();
      NoResponseUnlimited();
      NoResponseUnserviced();
    } else if m.Malformed? || m.SetupError? {
      CommunicationFailedUnauthenticated();
      CommunicationFailedUnlimited();
      CommunicationFailedUnserviced();
    }
    NoKeyUnauthenticated();
    NoKeyUnlimited();
    NoKeyUnserviced();
  }

  /** Any other provider error is classified by its detail text: a 400 that mentions `Rate limit` becomes a 429. */
  lemma DetailDecides(status: int, body: string)
    requires status != 401 && status != 429 && status < 500
    ensures RouteError(Classify(HttpError(status, Str("Rate limit reached"), body)).error) == TooManyRequests(Some(RateReply))
  {
    assert Classify(HttpError(status, Str("Rate limit reached"), body)).error == ApiErrorPrefix + "Rate limit reached";
    RateDetailMarked();
  }

  lemma RateDetailMarked()
    ensures Includes(ApiErrorPrefix + "Rate limit reached", "Rate limit")
    ensures !Includes(ApiErrorPrefix + "Rate limit reached", "Authentication failed")
  {
    var message := ApiErrorPrefix + "Rate limit reached";
    assert message == "Groq API error: " + "Rate limit" + " reached";
    IncludesMiddle("Groq API error: ", "Rate limit", " reached");
    MissingCharExcludes(message, "Authentication failed", 'u');
  }

  /** `s` lacks the capitals that begin the three markers. */
  predicate LacksMarkerCapitals(s: string) {
    'A' !in s && 'R' !in s && 'G' !in s
  }

  lemma FieldNamesLowerCaseA()
    ensures LacksMarkerCapitals("lessonTitle") && LacksMarkerCapitals("gradeLevel") && LacksMarkerCapitals("subject")
  {
  }

  lemma FieldNamesLowerCaseB()
    ensures LacksMarkerCapitals("learningObjective") && LacksMarkerCapitals("phases") && LacksMarkerCapitals("validHypotheses")
  {
  }

  lemma FieldNamesLowerCaseC()
    ensures LacksMarkerCapitals("misconceptions") && LacksMarkerCapitals("correctConcepts")
    ensures LacksMarkerCapitals("reflectionPrompt")
  {
  }

  /** No required field name has a capital `A`, `R` or `G`. */
  lemma FieldNamesLowerCase(field: string)
    requires field in ConfigUtils.RequiredFields
    ensures LacksMarkerCapitals(field)
  {
    FieldNamesLowerCaseA();
    FieldNamesLowerCaseB();
    FieldNamesLowerCaseC();
    assert forall i :: 0 <= i < |ConfigUtils.RequiredFields| ==> LacksMarkerCapitals(ConfigUtils.RequiredFields[i]);
  }

  lemma MissingFieldUnauthenticated(field: string)
    requires 'A' !in field
    ensures !Includes(FieldMissingPrefix + field, "Authentication failed")
  {
    MissingCharExcludesConcat(FieldMissingPrefix, field, "Authentication failed", 'A');
  }

  lemma MissingFieldUnlimited(field: string)
    requires 'R' !in field
    ensures !Includes(FieldMissingPrefix + field, "Rate limit")
  {
    MissingCharExcludesConcat(FieldMissingPrefix, field, "Rate limit", 'R');
  }

  lemma MissingFieldUnserviced(field: string)
    requires 'G' !in field
    ensures !Includes(FieldMissingPrefix + field, "Groq service error")
  {
    MissingCharExcludesConcat(FieldMissingPrefix, field, "Groq service error", 'G');
  }

  /** The field check's message contains none of the markers, so an incomplete lesson is a 500. */
  lemma MissingFieldIsServerError(field: string)
    requires field in ConfigUtils.RequiredFields
    ensures RouteError(FieldMissingPrefix + field) == ServerError(Some(ChatFailed))
  {
    FieldNamesLowerCase(field);
    MissingFieldUnauthenticated(field);
    MissingFieldUnlimited(field);
    MissingFieldUnserviced(field);
  }

  /** A stored lesson that lacks a required field never reaches the gateway and is reported as a 500. */
  lemma IncompleteLessonRejected(body: ConfigUtils.ChatBody, configs: seq<Object>, env: GroqEnv, cur: KeyCursor,
                                 s: GroqOutcome, m: GroqOutcome)
    requires ValidCursor(cur) && ConfigUtils.ValidateChatRequest(body).Ok?
    requires FindById(configs, body.configId).Some?
    requires !ConfigUtils.HasAllFields(FindById(configs, body.configId).value, ConfigUtils.RequiredFields)
    ensures ChatPost(body, Some(configs), env, cur, s, m) == ChatRun(None, [], Forward(ServerError(Some(ChatFailed))), cur)
  {
    var config := FindById(configs, body.configId).value;
    var field := ConfigUtils.FirstMissingField(config, ConfigUtils.RequiredFields).value;
    MissingFieldIsServerError(field);
  }

  /**
   * With a key and outside test mode, the lesson's prompt leads the list the provider
   * receives, and none of the client's own system messages gets through.
   */
  lemma PromptLeads(body: ConfigUtils.ChatBody, configs: seq<Object>, env: GroqEnv, cur: KeyCursor,
                    s: GroqOutcome, m: GroqOutcome)
    requires ValidCursor(cur) && RotateKey(cur).key != "" && !env.testMode
    requires ChatPost(body, Some(configs), env, cur, s, m).prompted.Some?
    ensures var r := ChatPost(body, Some(configs), env, cur, s, m);
            var main := r.requests[|r.requests| - 1].messages;
            && main[0] == r.prompted.value[0]
            && (forall i :: 0 < i < |main| ==> !IsSystem(main[i]))
  {
    var r := ChatPost(body, Some(configs), env, cur, s, m);
    var list := r.prompted.value;
    assert FirstSystem(list) == Some(list[0]);
    Assembly(env, cur, list, s, m);
  }

  /** A completed provider call answers 200 with the first choice's content as `response`. */
  lemma AnswerReturned(body: ConfigUtils.ChatBody, configs: seq<Object>, env: GroqEnv, cur: KeyCursor,
                       s: GroqOutcome, content: Value)
    requires ValidCursor(cur) && RotateKey(cur).key != "" && !env.testMode
    requires ChatPost(body, Some(configs), env, cur, s, Completed(content)).prompted.Some?
    ensures ChatPost(body, Some(configs), env, cur, s, Completed(content)).reply
         == Respond(200, One(map["response" := content]))
  {
    var r := ChatPost(body, Some(configs), env, cur, s, Completed(content));
    assert |r.prompted.value| > 0;
  }
}
