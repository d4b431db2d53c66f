/**
 * The two request validators of the server's configuration utilities: the
 * required-field check on a lesson configuration and the shape check on a chat
 * request. A validator either accepts or throws an `Error` whose message the
 * routes pass on.
 */
module ConfigUtils {
  import opened Wrappers
  import opened Js

  /** The fields every lesson configuration must carry with a truthy value, in the order they are checked. */
  const RequiredFields: seq<string> := [
    "lessonTitle", "gradeLevel", "subject", "learningObjective",
    "phases", "validHypotheses", "misconceptions", "correctConcepts",
    "reflectionPrompt"
  ]

  /** Every one of `fields` is truthy in the configuration. */
  predicate HasAllFields(config: Object, fields: seq<string>) {
    forall i :: 0 <= i < |fields| ==> Truthy(Get(config, fields[i]))
  }

  /** `fields.filter(field => !config[field])` */
  function MissingFields(config: Object, fields: seq<string>): (r: seq<string>)
    ensures |r| <= |fields|
    ensures forall f :: f in r <==> f in fields && !Truthy(Get(config, f))
  {
    if |fields| == 0 then []
    else
      var rest := MissingFields(config, fields[1..]);
      if Truthy(Get(config, fields[0])) then rest else [fields[0]] + rest
  }

  /** The filter keeps list order: the missing fields of a concatenation are those of each part, in turn. */
  lemma {:induction false} MissingFieldsAppend(config: Object, a: seq<string>, b: seq<string>)
    ensures MissingFields(config, a + b) == MissingFields(config, a) + MissingFields(config, b)
  {
    if a == [] {
      assert a + b == b;
    } else {
      assert (a + b)[1..] == a[1..] + b;
      MissingFieldsAppend(config, a[1..], b);
    }
  }

  /** The first field in list order whose value is falsy: the one the prompt builder's loop stops at. */
  function FirstMissingField(config: Object, fields: seq<string>): (r: Option<string>)
    ensures r.None? <==> HasAllFields(config, fields)
    ensures r.Some? ==> r.value in fields && !Truthy(Get(config, r.value))
    ensures r.Some? ==> exists k :: 0 <= k < |fields| && fields[k] == r.value && HasAllFields(config, fields[..k])
  {
    if |fields| == 0 then None
    else if !Truthy(Get(config, fields[0])) then Some(fields[0])
    else
      var r := FirstMissingField(config, fields[1..]);
      assert HasAllFields(config, fields[1..]) ==> HasAllFields(config, fields) by {
        if HasAllFields(config, fields[1..]) {
          forall i | 0 <= i < |fields| ensures Truthy(Get(config, fields[i])) {
            if i > 0 { assert fields[i] == fields[1..][i - 1]; }
          }
        }
      }
      assert r.Some? ==> exists k :: 0 <= k < |fields| && fields[k] == r.value && HasAllFields(config, fields[..k]) by {
        if r.Some? {
          var k :| 0 <= k < |fields[1..]| && fields[1..][k] == r.value && HasAllFields(config, fields[1..][..k]);
          assert fields[k + 1] == r.value;
          var before := fields[..k + 1];
          forall i | 0 <= i < |before| ensures Truthy(Get(config, before[i])) {
            if i > 0 { assert before[i] == fields[1..][..k][i - 1]; }
          }
        }
      }
      r
  }

  /** Once a prefix of the list is known to be present, the first missing field lies in the rest. */
  lemma {:induction false} FirstMissingFieldFrom(config: Object, fields: seq<string>, i: nat)
    requires i <= |fields| && HasAllFields(config, fields[..i])
    ensures FirstMissingField(config, fields) == FirstMissingField(config, fields[i..])
  {
    if i > 0 {
      assert fields[..i][0] == fields[0];
      assert fields[1..][..i - 1] == fields[..i][1..];
      assert fields[1..][i - 1..] == fields[i..];
      FirstMissingFieldFrom(config, fields[1..], i - 1);
    }
  }

  /**
   * The filter and the early-exit loop agree: nothing is missing exactly when the loop
   * finds no falsy field, and otherwise the loop reports the first missing field.
   */
  lemma {:induction false} MissingFieldsFirst(config: Object, fields: seq<string>)
    ensures MissingFields(config, fields) == [] <==> FirstMissingField(config, fields).None?
    ensures MissingFields(config, fields) != [] ==>
      MissingFields(config, fields)[0] == FirstMissingField(config, fields).value
  {
    if |fields| > 0 {
      MissingFieldsFirst(config, fields[1..]);
    }
  }

  /** `validateConfig(config)`: `Ok(true)`, or the error it throws. */
  function ValidateConfig(config: Object): (r: Result<bool, string>)
    ensures r.Ok? <==> HasAllFields(config, RequiredFields)
    ensures r.Ok? ==> r.value
  {
    var missing := MissingFields(config, RequiredFields);
    MissingFieldsFirst(config, RequiredFields);
    if |missing| > 0 then Err("Missing required fields: " + JoinStrings(missing, ", "))
    else Ok(true)
  }

  /**
   * A missing field makes the check fail with a message that lists, after its fixed
   * opening, all missing fields in list order joined by `", "`, so it names this one.
   */
  lemma ValidateConfigNamesMissing(config: Object, f: string)
    requires f in RequiredFields && !Truthy(Get(config, f))
    ensures ValidateConfig(config).Err?
    ensures ValidateConfig(config).error ==
      "Missing required fields: " + JoinStrings(MissingFields(config, RequiredFields), ", ")
    ensures Includes(ValidateConfig(config).error, f)
  {
    var missing := MissingFields(config, RequiredFields);
    var i :| 0 <= i < |missing| && missing[i] == f;
    JoinStringsIncludes(missing, ", ", i);
    IncludesWithin("Missing required fields: ", JoinStrings(missing, ", "), "", f);
    assert "Missing required fields: " + JoinStrings(missing, ", ") + "" ==
      "Missing required fields: " + JoinStrings(missing, ", ");
  }

  /** The body fields `validateChatRequest` reads; `messages` is `None` when it is not an array. */
  datatype ChatBody = ChatBody(configId: Value, messages: Option<seq<Message>>)

  /** A message object passes when both its role and its content are truthy. */
  predicate WellFormed(m: Message) {
    Truthy(m.role) && Truthy(m.content)
  }

  /** `validateChatRequest(body)`: the three checks in order; the first that fails chooses the error. */
  function ValidateChatRequest(body: ChatBody): (r: Result<bool, string>)
    ensures r.Ok? <==> Truthy(body.configId) && body.messages.Some?
                       && forall i :: 0 <= i < |body.messages.value| ==> WellFormed(body.messages.value[i])
    ensures r.Ok? ==> r.value
    ensures !Truthy(body.configId) ==> r == Err("Configuration ID is required")
    ensures Truthy(body.configId) && body.messages.None? ==> r == Err("Valid message array is required")
    ensures Truthy(body.configId) && body.messages.Some? && r.Err? ==>
      r.error == "Each message must have role and content properties"
  {
    if !Truthy(body.configId) then Err("Configuration ID is required")
    else if body.messages.None? then Err("Valid message array is required")
    else if exists i :: 0 <= i < |body.messages.value| && !WellFormed(body.messages.value[i]) then
      Err("Each message must have role and content properties")
    else Ok(true)
  }

  /** An empty message array passes: only the id and the array shape are checked then. */
  lemma EmptyConversationAccepted(configId: Value)
    requires Truthy(configId)
    ensures ValidateChatRequest(ChatBody(configId, Some([]))) == Ok(true)
  {
  }

  /** `validateConfig` accepts exactly the configurations the prompt builder's field loop lets through. */
  lemma ValidatorsAgree(config: Object)
    ensures ValidateConfig(config).Ok? <==> FirstMissingField(config, RequiredFields).None?
  {
  }
}
