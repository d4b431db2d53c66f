/**
 * `server/src/services/systemPrompt.js`: three prompt templates and `generateSystemPrompt`,
 * which uses the newest of them. They are separate from the prompt that `createSystemPrompt`
 * in the Groq gateway builds, and nothing in the chat route calls them.
 */
module SystemPrompt {
  import opened Wrappers
  import opened Js
  import opened Groq

  /** `generateSystemPrompt(config)`: it returns `promptV2(config)`, which throws when `phases` is not an array. */
  function GenerateSystemPrompt(config: Object): (r: Option<string>)
    ensures r.Some? <==> Get(config, "phases").Arr?
    ensures r.Some? ==> r == PromptV2(config)
  {
    PromptV2(config)
  }

  // ---------------------------------------------------------------- promptV0

  const NudgeOn: string :=
    "When students stray from the evidence, gently prompt them with questions that guide their thinking without disclosing the correct answer."
  const NudgeOff: string :=
    "Allow students to explore their ideas with minimal corrections."
  const ReinforceOn: string :=
    "Acknowledge and praise good reasoning without confirming that it is the final correct answer."
  const ReinforceOff: string :=
    "Focus on encouraging deeper inquiry rather than commenting on correctness."
  const HintsTail: string :=
    " hints if students are stuck, but ensure that each hint only leads them one step further without giving away the solution."
  const HintsOff: string :=
    "Allow students the space to work through the problem on their own."
  const AdditionalLabel := "Additional Instructions: "

  /** The hint sentence, which names the hint budget `maxHints`. */
  function HintsOn(maxHints: Value): string {
    "Provide up to " + ToString(maxHints) + HintsTail
  }

  /** `Array.isArray(phases) ? phases.join(', ') : phases`, as it is interpolated. */
  function PhasesText(phases: Value): (r: string)
    ensures phases.Arr? ==> r == Join(phases.items, ", ")
    ensures !phases.Arr? ==> r == ToString(phases)
  {
    match phases
    case Arr(items) => Join(items, ", ")
    case _ => ToString(phases)
  }

  /** The closing line: the additional instructions when they are truthy, otherwise nothing. */
  function AdditionalLine(additional: Value): (r: string)
    ensures Truthy(additional) ==> r == AdditionalLabel + ToString(additional)
    ensures !Truthy(additional) ==> r == ""
  {
    if Truthy(additional) then AdditionalLabel + ToString(additional) else ""
  }

  const V0Guidance: string :=
    "\n\n  GUIDANCE APPROACH:\n  - Use thoughtful, Socratic questioning to prompt students to think critically without revealing the final answer."
  const V0Inquiry: string :=
    " tone that is supportive and instructive.\n  - Walk students through the following phases of the scientific inquiry process: "
  const V0Knowledge: string :=
    " level.\n\n  SUBJECT KNOWLEDGE:\n  - Ensure that the discussion centers on exploring valid hypotheses such as: "
  const V0Misconceptions: string :=
    ".\n  - When common misconceptions arise, ask probing questions to help students recognize them without confirming error.\n  - Emphasize correct concepts and evidence-based reasoning, but do not explicitly state the full correct answer; instead, ask questions that encourage further investigation."
  const V0Conclusion: string :=
    " the investigation phase is complete, guide the student with a final reflective question without summarizing or providing the final conclusion: "

  /** The pieces of the `promptV0` template, between its leading `\n  ` and its closing `\n  `. */
  function V0Pieces(config: Object): seq<string> {
    [
      /*  0 */ "You are an AI educational guide for a ",
      /*  1 */ FieldText(config, "gradeLevel"),
      /*  2 */ " ",
      /*  3 */ FieldText(config, "subject"),
      /*  4 */ " mystery lesson titled \"",
      /*  5 */ FieldText(config, "lessonTitle"),
      /*  6 */ "\".",
      /*  7 */ "\n\n  LESSON OBJECTIVE: ",
      /*  8 */ FieldText(config, "learningObjective"),
      /*  9 */ V0Guidance,
      /* 10 */ "\n  - Maintain a ",
      /* 11 */ ToString(Or(Get(config, "tone"), Str("neutral"))),
      /* 12 */ V0Inquiry,
      /* 13 */ PhasesText(Get(config, "phases")),
      /* 14 */ ".\n  - ",
      /* 15 */ if Truthy(Get(config, "nudgeOnWrongAnswers")) then NudgeOn else NudgeOff,
      /* 16 */ "\n  - ",
      /* 17 */ if Truthy(Get(config, "reinforceGoodReasoning")) then ReinforceOn else ReinforceOff,
      /* 18 */ "\n  - ",
      /* 19 */ if Truthy(Get(config, "offerHintsIfStuck")) then HintsOn(Get(config, "maxHints")) else HintsOff,
      /* 20 */ "\n  - Provide scaffolding at a ",
      /* 21 */ ToString(Or(Get(config, "scaffoldingLevel"), Str("moderate"))),
      /* 22 */ V0Knowledge,
      /* 23 */ FieldText(config, "validHypotheses"),
      /* 24 */ V0Misconceptions,
      /* 25 */ "\n\n  When",
      /* 26 */ V0Conclusion,
      /* 27 */ FieldText(config, "reflectionPrompt"),
      /* 28 */ "\n\n  ",
      /* 29 */ AdditionalLine(Get(config, "additionalInstructions"))
    ]
  }

  /** `promptV0(config)`. */
  function PromptV0(config: Object): string {
    Trim("\n  " + Concat(V0Pieces(config)) + "\n  ")
  }

  // Each labelled line survives the trim, since a visible character follows it.
  lemma V0HasObjectiveLine(config: Object)
    ensures Includes(PromptV0(config), "\n\n  LESSON OBJECTIVE: " + FieldText(config, "learningObjective"))
  {
    TemplateKeepsPair("\n  ", V0Pieces(config), "\n  ", 7, 25, 4, "\n\n  LESSON OBJECTIVE: ", FieldText(config, "learningObjective"));
  }

  lemma V0HasToneLine(config: Object)
    ensures Includes(PromptV0(config), "\n  - Maintain a " + ToString(Or(Get(config, "tone"), Str("neutral"))))
  {
    TemplateKeepsPair("\n  ", V0Pieces(config), "\n  ", 10, 25, 4, "\n  - Maintain a ", ToString(Or(Get(config, "tone"), Str("neutral"))));
  }

  lemma V0HasPhasesLine(config: Object)
    ensures Includes(PromptV0(config), V0Inquiry + PhasesText(Get(config, "phases")))
  {
    TemplateKeepsPair("\n  ", V0Pieces(config), "\n  ", 12, 25, 4, V0Inquiry, PhasesText(Get(config, "phases")));
  }

  lemma V0HasNudgeLine(config: Object)
    ensures Includes(PromptV0(config), ".\n  - " + if Truthy(Get(config, "nudgeOnWrongAnswers")) then NudgeOn else NudgeOff)
  {
    TemplateKeepsPair("\n  ", V0Pieces(config), "\n  ", 14, 25, 4, ".\n  - ", if Truthy(Get(config, "nudgeOnWrongAnswers")) then NudgeOn else NudgeOff);
  }

  lemma V0HasReinforceLine(config: Object)
    ensures Includes(PromptV0(config), "\n  - " + if Truthy(Get(config, "reinforceGoodReasoning")) then ReinforceOn else ReinforceOff)
  {
    TemplateKeepsPair("\n  ", V0Pieces(config), "\n  ", 16, 25, 4, "\n  - ", if Truthy(Get(config, "reinforceGoodReasoning")) then ReinforceOn else ReinforceOff);
  }

  lemma V0HasHintsLine(config: Object)
    ensures Includes(PromptV0(config), "\n  - " + if Truthy(Get(config, "offerHintsIfStuck")) then HintsOn(Get(config, "maxHints")) else HintsOff)
  {
    TemplateKeepsPair("\n  ", V0Pieces(config), "\n  ", 18, 25, 4, "\n  - ", if Truthy(Get(config, "offerHintsIfStuck")) then HintsOn(Get(config, "maxHints")) else HintsOff);
  }

  lemma V0HasScaffoldingLine(config: Object)
    ensures Includes(PromptV0(config), "\n  - Provide scaffolding at a " + ToString(Or(Get(config, "scaffoldingLevel"), Str("moderate"))))
  {
    TemplateKeepsPair("\n  ", V0Pieces(config), "\n  ", 20, 25, 4, "\n  - Provide scaffolding at a ", ToString(Or(Get(config, "scaffoldingLevel"), Str("moderate"))));
  }

  lemma V0HasHypothesesLine(config: Object)
    ensures Includes(PromptV0(config), V0Knowledge + FieldText(config, "validHypotheses"))
  {
    TemplateKeepsPair("\n  ", V0Pieces(config), "\n  ", 22, 25, 4, V0Knowledge, FieldText(config, "validHypotheses"));
  }

  lemma V0HasReflectionLine(config: Object)
    requires Truthy(Get(config, "additionalInstructions"))
    ensures Includes(PromptV0(config), V0Conclusion + FieldText(config, "reflectionPrompt"))
  {
    TemplateKeepsPair("\n  ", V0Pieces(config), "\n  ", 26, 29, 0, V0Conclusion, FieldText(config, "reflectionPrompt"));
  }


  /** The opening sentence names the grade level and the subject, then the lesson title. */
  lemma V0HasGradeSubject(config: Object)
    ensures Includes(PromptV0(config), FieldText(config, "gradeLevel") + " " + FieldText(config, "subject"))
  {
    TemplateKeepsTriple("\n  ", V0Pieces(config), "\n  ", 1, 25, 4,
                        FieldText(config, "gradeLevel"), " ", FieldText(config, "subject"));
  }

  lemma V0HasTitle(config: Object)
    ensures Includes(PromptV0(config), " mystery lesson titled \"" + FieldText(config, "lessonTitle") + "\".")
  {
    TemplateKeepsTriple("\n  ", V0Pieces(config), "\n  ", 4, 25, 4,
                        " mystery lesson titled \"", FieldText(config, "lessonTitle"), "\".");
  }

  /** Each of the three behaviour flags chooses between its two sentences. */
  lemma V0FlagSentences(config: Object)
    ensures Truthy(Get(config, "nudgeOnWrongAnswers")) ==> Includes(PromptV0(config), ".\n  - " + NudgeOn)
    ensures !Truthy(Get(config, "nudgeOnWrongAnswers")) ==> Includes(PromptV0(config), ".\n  - " + NudgeOff)
    ensures Truthy(Get(config, "reinforceGoodReasoning")) ==> Includes(PromptV0(config), "\n  - " + ReinforceOn)
    ensures !Truthy(Get(config, "reinforceGoodReasoning")) ==> Includes(PromptV0(config), "\n  - " + ReinforceOff)
    ensures Truthy(Get(config, "offerHintsIfStuck")) ==> Includes(PromptV0(config), "\n  - " + HintsOn(Get(config, "maxHints")))
    ensures !Truthy(Get(config, "offerHintsIfStuck")) ==> Includes(PromptV0(config), "\n  - " + HintsOff)
  {
    var s := PromptV0(config);
    V0HasNudgeLine(config);
    V0HasReinforceLine(config);
    V0HasHintsLine(config);
    var n := if Truthy(Get(config, "nudgeOnWrongAnswers")) then NudgeOn else NudgeOff;
    var g := if Truthy(Get(config, "reinforceGoodReasoning")) then ReinforceOn else ReinforceOff;
    var h := if Truthy(Get(config, "offerHintsIfStuck")) then HintsOn(Get(config, "maxHints")) else HintsOff;
    IncludesRewrite(s, ".\n  - ", n, n);
    IncludesRewrite(s, "\n  - ", g, g);
    IncludesRewrite(s, "\n  - ", h, h);
  }

  /** A falsy tone reads `neutral` and a falsy scaffolding level reads `moderate`. */
  lemma V0Fallbacks(config: Object)
    ensures !Truthy(Get(config, "tone")) ==> Includes(PromptV0(config), "\n  - Maintain a " + "neutral")
    ensures !Truthy(Get(config, "scaffoldingLevel")) ==> Includes(PromptV0(config), "\n  - Provide scaffolding at a " + "moderate")
  {
    V0HasToneLine(config);
    V0HasScaffoldingLine(config);
    if !Truthy(Get(config, "tone")) {
      IncludesRewrite(PromptV0(config), "\n  - Maintain a ", ToString(Or(Get(config, "tone"), Str("neutral"))), "neutral");
    }
    if !Truthy(Get(config, "scaffoldingLevel")) {
      IncludesRewrite(PromptV0(config), "\n  - Provide scaffolding at a ",
                      ToString(Or(Get(config, "scaffoldingLevel"), Str("moderate"))), "moderate");
    }
  }

  /** An array of phases is listed joined by `, `; any other value is written as it is. */
  lemma V0Phases(config: Object)
    ensures Get(config, "phases").Arr? ==> Includes(PromptV0(config), V0Inquiry + Join(Get(config, "phases").items, ", "))
    ensures !Get(config, "phases").Arr? ==> Includes(PromptV0(config), V0Inquiry + FieldText(config, "phases"))
  {
    V0HasPhasesLine(config);
  }

  /** The hint budget only matters when hints are offered. */
  lemma V0HintBudgetUnused(config: Object, maxHints: Value)
    requires !Truthy(Get(config, "offerHintsIfStuck"))
    ensures PromptV0(config["maxHints" := maxHints]) == PromptV0(config)
  {
    V0PiecesHintBudgetUnused(config, maxHints);
  }

  lemma V0PiecesHintBudgetUnused(config: Object, maxHints: Value)
    requires !Truthy(Get(config, "offerHintsIfStuck"))
    ensures V0Pieces(config["maxHints" := maxHints]) == V0Pieces(config)
  {    var c := config["maxHints" := maxHints];
    assert Get(c, "gradeLevel") == Get(config, "gradeLevel");
    assert Get(c, "subject") == Get(config, "subject");
    assert Get(c, "lessonTitle") == Get(config, "lessonTitle");
    assert Get(c, "learningObjective") == Get(config, "learningObjective");
    assert Get(c, "tone") == Get(config, "tone");
    assert Get(c, "phases") == Get(config, "phases");
    assert Get(c, "nudgeOnWrongAnswers") == Get(config, "nudgeOnWrongAnswers");
    assert Get(c, "reinforceGoodReasoning") == Get(config, "reinforceGoodReasoning");
    assert Get(c, "offerHintsIfStuck") == Get(config, "offerHintsIfStuck");
    assert Get(c, "scaffoldingLevel") == Get(config, "scaffoldingLevel");
    assert Get(c, "validHypotheses") == Get(config, "validHypotheses");
    assert Get(c, "reflectionPrompt") == Get(config, "reflectionPrompt");
    assert Get(c, "additionalInstructions") == Get(config, "additionalInstructions");
  }

  /** Every falsy value of `additionalInstructions` gives the same prompt, with no closing line. */
  lemma V0FalsyAdditional(config: Object, additional: Value)
    requires !Truthy(Get(config, "additionalInstructions")) && !Truthy(additional)
    ensures PromptV0(config["additionalInstructions" := additional]) == PromptV0(config)
  {
    V0PiecesFalsyAdditional(config, additional);
  }

  lemma V0PiecesFalsyAdditional(config: Object, additional: Value)
    requires !Truthy(Get(config, "additionalInstructions")) && !Truthy(additional)
    ensures V0Pieces(config["additionalInstructions" := additional]) == V0Pieces(config)
  {
    var c := config["additionalInstructions" := additional];
    assert Get(c, "gradeLevel") == Get(config, "gradeLevel");
    assert Get(c, "subject") == Get(config, "subject");
    assert Get(c, "lessonTitle") == Get(config, "lessonTitle");
    assert Get(c, "learningObjective") == Get(config, "learningObjective");
    assert Get(c, "tone") == Get(config, "tone");
    assert Get(c, "phases") == Get(config, "phases");
    assert Get(c, "nudgeOnWrongAnswers") == Get(config, "nudgeOnWrongAnswers");
    assert Get(c, "reinforceGoodReasoning") == Get(config, "reinforceGoodReasoning");
    assert Get(c, "offerHintsIfStuck") == Get(config, "offerHintsIfStuck");
    assert Get(c, "maxHints") == Get(config, "maxHints");
    assert Get(c, "scaffoldingLevel") == Get(config, "scaffoldingLevel");
    assert Get(c, "validHypotheses") == Get(config, "validHypotheses");
    assert Get(c, "reflectionPrompt") == Get(config, "reflectionPrompt");
  }

  /** Truthy additional instructions end the prompt, when they end in a visible character. */
  lemma V0EndsWithAdditional(config: Object)
    requires Truthy(Get(config, "additionalInstructions"))
    requires var t := FieldText(config, "additionalInstructions"); t != [] && !IsWhitespace(t[|t| - 1])
    ensures Includes(PromptV0(config), "\n\n  " + AdditionalLabel + FieldText(config, "additionalInstructions"))
  {
    V0TrimsToPieces(config);
    var p := V0Pieces(config);
    var t := FieldText(config, "additionalInstructions");
    assert p[28] == "\n\n  " && p[29] == AdditionalLabel + t;
    ConcatIncludesPair(p, 28, "\n\n  ", AdditionalLabel + t);
    assert "\n\n  " + (AdditionalLabel + t) == "\n\n  " + AdditionalLabel + t;
  }

  /** With a closing line that ends in a visible character, the trim takes off only the template's own layout. */
  lemma V0TrimsToPieces(config: Object)
    requires Truthy(Get(config, "additionalInstructions"))
    requires var t := FieldText(config, "additionalInstructions"); t != [] && !IsWhitespace(t[|t| - 1])
    ensures PromptV0(config) == Concat(V0Pieces(config))
  {
    var p := V0Pieces(config);
    assert p[0][0] == 'Y';
    var t := FieldText(config, "additionalInstructions");
    assert p[29] == AdditionalLabel + t;
    assert p[29][|p[29]| - 1] == t[|t| - 1];
    TemplateExact("\n  ", p, "\n  ");
  }

  /** The configuration fields `promptV0` reads. */
  predicate V0Reads(key: string) {
    key == "gradeLevel" || key == "subject" || key == "lessonTitle" || key == "learningObjective" ||
    key == "tone" || key == "phases" || key == "nudgeOnWrongAnswers" || key == "reinforceGoodReasoning" ||
    key == "offerHintsIfStuck" || key == "maxHints" || key == "scaffoldingLevel" ||
    key == "validHypotheses" || key == "reflectionPrompt" || key == "additionalInstructions"
  }

  /** `promptV0` depends on no field but those: changing any other leaves the prompt as it was. */
  lemma V0ReadsOnly(config: Object, key: string, v: Value)
    requires !V0Reads(key)
    ensures PromptV0(config[key := v]) == PromptV0(config)
  {
    V0PiecesReadsOnly(config, key, v);
  }

  lemma V0PiecesReadsOnly(config: Object, key: string, v: Value)
    requires !V0Reads(key)
    ensures V0Pieces(config[key := v]) == V0Pieces(config)
  {
  }

  /** In particular `promptV0` uses neither `hintLimit`, `misconceptions` nor `correctConcepts`. */
  lemma V0Ignores(config: Object, key: string, v: Value)
    requires key == "hintLimit" || key == "misconceptions" || key == "correctConcepts"
    ensures PromptV0(config[key := v]) == PromptV0(config)
  {
    V0ReadsOnly(config, key, v);
  }

  // ---------------------------------------------------------------- promptV1

  const V1Guidelines: string :=
    "\n\nINTERACTION GUIDELINES:\n1. **Use Socratic Method:**\n  - Ask open-ended questions that prompt reflection\n  - Never reveal answers or confirm hypotheses\n  - Redirect answer requests with questions\n\n2. **Guide Through Inquiry Stages:**\n  - Follow these stages in sequential order, spending as much time as needed in each stage before progressing:\n  - Stage 1: **Ask Questions** - Encourage student questions to gather context and define the core issue\n  - Stage 2: **Form a Hypothesis** - Guide students to make predictions\n  - Stage 3: **Investigate** - Help decide what data to gather\n  - Stage 4: **Analyze Data** - Present information for interpretation\n  - Stage 5: **Draw Conclusions** - Guide students toward logical conclusions\n  - Stage 6: **Reflect** - Consider implications of findings\n  Progress when student shows readiness for next stage\n  Phase Closure Rule: After 2\U{2013}3 rounds of questioning on the same line of inquiry highlight support or conflicts, and guide the student toward a tentative conclusion or next phase.\n  Transition naturally to the next phase.\n  - Subtly signal current stage in responses (e.g., \"As we continue questioning...\")\n\n3. **Provide Minimal Support:**"

  /**
   * The pieces of the `promptV1` template, between its leading newline and its end. Apart
   * from the guidelines block it matches the prompt of `createSystemPrompt`, whose texts it shares.
   */
  function V1Pieces(config: Object): seq<string> {
    [
      /*  0 */ "You",
      /*  1 */ ActiveIntro,
      /*  2 */ "\n- Title: ",
      /*  3 */ FieldText(config, "lessonTitle"),
      /*  4 */ "\n- Subject: ",
      /*  5 */ FieldText(config, "subject"),
      /*  6 */ "\n- Grade Level: ",
      /*  7 */ FieldText(config, "gradeLevel"),
      /*  8 */ "\n- Learning Objective: ",
      /*  9 */ FieldText(config, "learningObjective"),
      /* 10 */ V1Guidelines,
      /* 11 */ "\n  - Offer up to ",
      /* 12 */ FieldText(config, "hintLimit"),
      /* 13 */ " subtle hints when needed",
      /* 14 */ ActiveSupport,
      /* 15 */ "\n  - Maintain a ",
      /* 16 */ ToString(Or(Get(config, "tone"), Str("neutral"))),
      /* 17 */ ", encouraging tone",
      /* 18 */ ActiveFocus,
      /* 19 */ "\n  - Explore: ",
      /* 20 */ FieldText(config, "validHypotheses"),
      /* 21 */ "\n  - Consider: ",
      /* 22 */ FieldText(config, "correctConcepts"),
      /* 23 */ "\n\n6. **End With Reflection:**",
      /* 24 */ "\n  - Conclude with: ",
      /* 25 */ FieldText(config, "reflectionPrompt"),
      /* 26 */ ActiveContinuity,
      /* 27 */ "\nADDITIONAL: ",
      /* 28 */ ToString(Or(Get(config, "additionalInstructions"), Str(NoAdditional))),
      /* 29 */ ActiveClosing
    ]
  }

  /** `promptV1(config)`. */
  function PromptV1(config: Object): string {
    Trim("\n" + Concat(V1Pieces(config)))
  }

  /** `trim` takes off only the leading newline. */
  lemma V1Untrimmed(config: Object)
    ensures PromptV1(config) == Concat(V1Pieces(config))
  {
    var p := V1Pieces(config);
    assert p[0][0] == 'Y';
    assert p[29][|p[29]| - 1] == '.';
    TemplateExact("\n", p, "");
    assert "\n" + Concat(p) + "" == "\n" + Concat(p);
  }

  /** `promptV1` is the prompt of `createSystemPrompt` with another guidelines block. */
  lemma V1Differs(config: Object)
    ensures V1Pieces(config) == Groq.PromptPieces(config)[10 := V1Guidelines]
  {
  }

  lemma V1HasTitleLine(config: Object)
    ensures Includes(Concat(V1Pieces(config)), "\n- Title: " + FieldText(config, "lessonTitle"))
  {
    ConcatIncludesPair(V1Pieces(config), 2, "\n- Title: ", FieldText(config, "lessonTitle"));
  }

  lemma V1HasSubjectLine(config: Object)
    ensures Includes(Concat(V1Pieces(config)), "\n- Subject: " + FieldText(config, "subject"))
  {
    ConcatIncludesPair(V1Pieces(config), 4, "\n- Subject: ", FieldText(config, "subject"));
  }

  lemma V1HasGradeLine(config: Object)
    ensures Includes(Concat(V1Pieces(config)), "\n- Grade Level: " + FieldText(config, "gradeLevel"))
  {
    ConcatIncludesPair(V1Pieces(config), 6, "\n- Grade Level: ", FieldText(config, "gradeLevel"));
  }

  lemma V1HasObjectiveLine(config: Object)
    ensures Includes(Concat(V1Pieces(config)), "\n- Learning Objective: " + FieldText(config, "learningObjective"))
  {
    ConcatIncludesPair(V1Pieces(config), 8, "\n- Learning Objective: ", FieldText(config, "learningObjective"));
  }

  lemma V1HasHintLine(config: Object)
    ensures Includes(Concat(V1Pieces(config)), "\n  - Offer up to " + FieldText(config, "hintLimit"))
  {
    ConcatIncludesPair(V1Pieces(config), 11, "\n  - Offer up to ", FieldText(config, "hintLimit"));
  }

  lemma V1HasToneLine(config: Object)
    ensures Includes(Concat(V1Pieces(config)), "\n  - Maintain a " + ToString(Or(Get(config, "tone"), Str("neutral"))))
  {
    ConcatIncludesPair(V1Pieces(config), 15, "\n  - Maintain a ", ToString(Or(Get(config, "tone"), Str("neutral"))));
  }

  lemma V1HasExploreLine(config: Object)
    ensures Includes(Concat(V1Pieces(config)), "\n  - Explore: " + FieldText(config, "validHypotheses"))
  {
    ConcatIncludesPair(V1Pieces(config), 19, "\n  - Explore: ", FieldText(config, "validHypotheses"));
  }

  lemma V1HasConsiderLine(config: Object)
    ensures Includes(Concat(V1Pieces(config)), "\n  - Consider: " + FieldText(config, "correctConcepts"))
  {
    ConcatIncludesPair(V1Pieces(config), 21, "\n  - Consider: ", FieldText(config, "correctConcepts"));
  }

  lemma V1HasConcludeLine(config: Object)
    ensures Includes(Concat(V1Pieces(config)), "\n  - Conclude with: " + FieldText(config, "reflectionPrompt"))
  {
    ConcatIncludesPair(V1Pieces(config), 24, "\n  - Conclude with: ", FieldText(config, "reflectionPrompt"));
  }

  lemma V1HasAdditionalLine(config: Object)
    ensures Includes(Concat(V1Pieces(config)), "\nADDITIONAL: " + ToString(Or(Get(config, "additionalInstructions"), Str(NoAdditional))))
  {
    ConcatIncludesPair(V1Pieces(config), 27, "\nADDITIONAL: ", ToString(Or(Get(config, "additionalInstructions"), Str(NoAdditional))));
  }


  /** The prompt names the lesson's title, subject, grade level and objective, each on its labelled line. */
  lemma V1NamesLesson(config: Object)
    ensures Includes(PromptV1(config), "\n- Title: " + FieldText(config, "lessonTitle"))
    ensures Includes(PromptV1(config), "\n- Subject: " + FieldText(config, "subject"))
    ensures Includes(PromptV1(config), "\n- Grade Level: " + FieldText(config, "gradeLevel"))
    ensures Includes(PromptV1(config), "\n- Learning Objective: " + FieldText(config, "learningObjective"))
  {
    V1Untrimmed(config);
    V1HasTitleLine(config);
    V1HasSubjectLine(config);
    V1HasGradeLine(config);
    V1HasObjectiveLine(config);
  }

  /** The valid hypotheses, the correct concepts and the reflection prompt appear verbatim. */
  lemma V1NamesContent(config: Object)
    ensures Includes(PromptV1(config), "\n  - Explore: " + FieldText(config, "validHypotheses"))
    ensures Includes(PromptV1(config), "\n  - Consider: " + FieldText(config, "correctConcepts"))
    ensures Includes(PromptV1(config), "\n  - Conclude with: " + FieldText(config, "reflectionPrompt"))
  {
    V1Untrimmed(config);
    V1HasExploreLine(config);
    V1HasConsiderLine(config);
    V1HasConcludeLine(config);
  }

  /** The hint count is `hintLimit`; a falsy tone reads `neutral`, falsy additional instructions the default sentence. */
  lemma V1Defaults(config: Object)
    ensures Includes(PromptV1(config), "\n  - Offer up to " + FieldText(config, "hintLimit"))
    ensures !Truthy(Get(config, "tone")) ==> Includes(PromptV1(config), "\n  - Maintain a " + "neutral")
    ensures Truthy(Get(config, "tone")) ==> Includes(PromptV1(config), "\n  - Maintain a " + FieldText(config, "tone"))
    ensures !Truthy(Get(config, "additionalInstructions")) ==> Includes(PromptV1(config), "\nADDITIONAL: " + NoAdditional)
    ensures Truthy(Get(config, "additionalInstructions")) ==>
              Includes(PromptV1(config), "\nADDITIONAL: " + FieldText(config, "additionalInstructions"))
  {
    var s := PromptV1(config);
    V1Untrimmed(config);
    V1HasHintLine(config);
    V1HasToneLine(config);
    V1HasAdditionalLine(config);
    var tone := ToString(Or(Get(config, "tone"), Str("neutral")));
    var more := ToString(Or(Get(config, "additionalInstructions"), Str(NoAdditional)));
    if !Truthy(Get(config, "tone")) {
      IncludesRewrite(s, "\n  - Maintain a ", tone, "neutral");
    } else {
      IncludesRewrite(s, "\n  - Maintain a ", tone, FieldText(config, "tone"));
    }
    if !Truthy(Get(config, "additionalInstructions")) {
      IncludesRewrite(s, "\nADDITIONAL: ", more, NoAdditional);
    } else {
      IncludesRewrite(s, "\nADDITIONAL: ", more, FieldText(config, "additionalInstructions"));
    }
  }

  /** The configuration fields `promptV1` reads. */
  predicate V1Reads(key: string) {
    key == "lessonTitle" || key == "subject" || key == "gradeLevel" || key == "learningObjective" ||
    key == "hintLimit" || key == "tone" || key == "validHypotheses" || key == "correctConcepts" ||
    key == "reflectionPrompt" || key == "additionalInstructions"
  }

  /** `promptV1` depends on no field but those. */
  lemma V1ReadsOnly(config: Object, key: string, v: Value)
    requires !V1Reads(key)
    ensures PromptV1(config[key := v]) == PromptV1(config)
  {
    V1PiecesReadsOnly(config, key, v);
  }

  lemma V1PiecesReadsOnly(config: Object, key: string, v: Value)
    requires !V1Reads(key)
    ensures V1Pieces(config[key := v]) == V1Pieces(config)
  {
  }

  /** In particular `promptV1` uses neither `phases`, `misconceptions` nor `maxHints`. */
  lemma V1Ignores(config: Object, key: string, v: Value)
    requires key == "phases" || key == "misconceptions" || key == "maxHints"
    ensures PromptV1(config[key := v]) == PromptV1(config)
  {
    V1ReadsOnly(config, key, v);
  }

  // ---------------------------------------------------------------- promptV2

  const V2Intro: string :=
    " are an AI for ThinkThrove.io guiding a student who is the detective in the mystery through a scenario-based investigative learning experience. \nAct as a Socratic, interactive instructor who facilitates reasoning, scaffolds critical thinking, \nand adapts dynamically to the student\U{2019}s inquiries. Emulate a Dungeon Master\U{2013}style facilitator.\n\n--- Configuration ---"
  const V2Rules: string :=
    "\n\n--- Behavior Rules ---\n1. Role & Tone: Use the configured tone. Act as a knowledgeable professional relevant to the scenario, encouraging reasoning and exploration.\n2. Use socratic questioning: When prompting the student to investigate: never list multiple explicit questions or possible clues. Instead, encourage the student to decide what details to look into next. You may hint gently if they seem stuck. \n3. Each scene should include a Brief narration of what the detective notices and/or Dialogue from characters where appropriate. This should be followed by A short italicized Socratic reflection at the end, guiding what kind of reasoning or next step the student should take."
  const V2ClosingText: string :=
    ":\n   - Question: 2\U{2013}3 initial inquiries before hypotheses.\n   - Hypothesis: Student generates plausible hypotheses; check against validHypotheses and misconceptions.\n   - Investigation: Offer actions; reveal evidence dynamically.\n   - Data/Analysis: Summarize observations; guide interpretation.\n   - Conclusion/Reflection: Use reflectionPrompt to prompt meta-cognition.\n  Subtly signal current stage in responses\n5. Evidence & Hinting: Reinforce good reasoning, nudge weak reasoning, offer hints up to maxHints if configured. IMPORTANT: NEVER DIRECTLY SUGGEST THE CORRECT HYPOTHESIS OR CONFIRM/REJECT IT PREMATURELY.\n6. Accuracy: Use correctConcepts to guide learning; address misconceptions; adapt to student choices.\n7. Response: Provide dialogue, notes, test results, or logs; avoid direct answers; leave next steps to student.\n8. Dynamic Simulation: Branch based on student actions; track evidence; evaluate reasoning quality, not correctness.\n9. Phase closure rule: After 2\U{2013}3 rounds of questioning on the same line of inquiry, summarize what has been discovered, highlight what evidence supports or challenges the current hypothesis, and guide the student toward drawing a tentative conclusion or deciding the next step. Avoid endless question loops\U{2014}each investigation should move toward synthesis or transition to a new phase.\n10. Additional Instructions: Incorporate additionalInstructions; maintain engagement and realism.\n\nKEEP RESPONSES TO 350 WORDS and 1-3 paragraphs OR LESS\n\n--- Scenario Start ---\nThe AI plays the role of supporting in-scenario characters (such as a teacher, scientist, or witness) who guides the student, who is the detective. As well as gives meta guidance on the inquiry process.\nBegin with character who introduces themselves, greets the user as a detective, and shares basic facts about the case to the user. Provide enough detail to engage but leave room for discovery"
  const V2Closing := V2ClosingText + "."

  /** The first twenty pieces of the `promptV2` template: the introduction and the lesson settings. */
  function V2Head(config: Object): seq<string> {
    [
      /*  0 */ "You",
      /*  1 */ V2Intro,
      /*  2 */ "\nLesson Title: ",
      /*  3 */ FieldText(config, "lessonTitle"),
      /*  4 */ "\nGrade Level: ",
      /*  5 */ FieldText(config, "gradeLevel"),
      /*  6 */ "\nSubject: ",
      /*  7 */ FieldText(config, "subject"),
      /*  8 */ "\nEstimated Time: ",
      /*  9 */ FieldText(config, "estimatedTime"),
      /* 10 */ "\nLearning Objective: ",
      /* 11 */ FieldText(config, "learningObjective"),
      /* 12 */ "\nTags: ",
      /* 13 */ FieldText(config, "tags"),
      /* 14 */ "\nTone: ",
      /* 15 */ FieldText(config, "tone"),
      /* 16 */ "\nScaffolding Level: ",
      /* 17 */ FieldText(config, "scaffoldingLevel"),
      /* 18 */ "\nMax Hints: ",
      /* 19 */ FieldText(config, "maxHints")
    ]
  }

  /** The remaining pieces: the lesson content, the behaviour rules and the phase order. */
  function V2Tail(config: Object, phases: seq<Value>): seq<string> {
    [
      /*  0 */ "\n\nPhases: ",
      /*  1 */ Join(phases, ", "),
      /*  2 */ "\nValid Hypotheses: ",
      /*  3 */ FieldText(config, "validHypotheses"),
      /*  4 */ "\nMisconceptions: ",
      /*  5 */ FieldText(config, "misconceptions"),
      /*  6 */ "\nCorrect Concepts: ",
      /*  7 */ FieldText(config, "correctConcepts"),
      /*  8 */ "\nReflection Prompt: ",
      /*  9 */ FieldText(config, "reflectionPrompt"),
      /* 10 */ "\nAdditional Instructions: ",
      /* 11 */ ToString(Or(Get(config, "additionalInstructions"), Str("None"))),
      /* 12 */ V2Rules,
      /* 13 */ "\n4. Phases: Follow ",
      /* 14 */ Join(phases, " \U{2192} "),
      /* 15 */ V2Closing
    ]
  }

  /** The text of `promptV2` for a configuration whose `phases` is the array `phases`. */
  function V2Text(config: Object, phases: seq<Value>): string {
    Trim("\n" + Concat(V2Head(config)) + Concat(V2Tail(config, phases)))
  }

  /** `promptV2(config)`: `None` is the `TypeError` that `phases.join` throws when `phases` is not an array. */
  function PromptV2(config: Object): (r: Option<string>)
    ensures r.Some? <==> Get(config, "phases").Arr?
    ensures r.Some? ==> r.value == V2Text(config, Get(config, "phases").items)
  {
    match Get(config, "phases")
    case Arr(phases) => Some(V2Text(config, phases))
    case _ => None
  }

  /**
   * `trim` takes off only the leading newline: the template opens at "You" and closes
   * with the full stop of its last sentence.
   */
  lemma V2Untrimmed(config: Object, phases: seq<Value>)
    ensures V2Text(config, phases) == Concat(V2Head(config)) + Concat(V2Tail(config, phases))
    ensures |V2Text(config, phases)| > 2 && V2Text(config, phases)[..3] == "You"
  {
    var h, w := Concat(V2Head(config)), Concat(V2Tail(config, phases));
    V2HeadOpens(config);
    V2TailCloses(config, phases);
    TrimLeading("\n", h, w);
    PrefixOfJoin("You", Concat(V2Head(config)[1..]), w);
  }

  lemma V2HeadOpens(config: Object)
    ensures Concat(V2Head(config)) == "You" + Concat(V2Head(config)[1..])
  {
  }

  lemma V2TailCloses(config: Object, phases: seq<Value>)
    ensures var w := Concat(V2Tail(config, phases)); w != [] && w[|w| - 1] == '.'
  {
    var q := V2Tail(config, phases);
    assert q[|q| - 1] == V2ClosingText + ".";
    ConcatEndsWith(q);
    LastOfAppend(V2ClosingText, ".");
  }

  lemma V2HeadLifts(config: Object, phases: seq<Value>, t: string)
    requires Includes(Concat(V2Head(config)), t)
    ensures Includes(V2Text(config, phases), t)
  {
    V2Untrimmed(config, phases);
    IncludesLeft(Concat(V2Head(config)), Concat(V2Tail(config, phases)), t);
  }

  lemma V2TailLifts(config: Object, phases: seq<Value>, t: string)
    requires Includes(Concat(V2Tail(config, phases)), t)
    ensures Includes(V2Text(config, phases), t)
  {
    var h, w := Concat(V2Head(config)), Concat(V2Tail(config, phases));
    V2Untrimmed(config, phases);
    IncludesWithin(h, w, "", t);
    assert h + w + "" == h + w;
  }

  lemma V2HasTitleLine(config: Object)
    ensures Includes(Concat(V2Head(config)), "\nLesson Title: " + FieldText(config, "lessonTitle"))
  {
    ConcatIncludesPair(V2Head(config), 2, "\nLesson Title: ", FieldText(config, "lessonTitle"));
  }

  lemma V2HasGradeLine(config: Object)
    ensures Includes(Concat(V2Head(config)), "\nGrade Level: " + FieldText(config, "gradeLevel"))
  {
    ConcatIncludesPair(V2Head(config), 4, "\nGrade Level: ", FieldText(config, "gradeLevel"));
  }

  lemma V2HasSubjectLine(config: Object)
    ensures Includes(Concat(V2Head(config)), "\nSubject: " + FieldText(config, "subject"))
  {
    ConcatIncludesPair(V2Head(config), 6, "\nSubject: ", FieldText(config, "subject"));
  }

  lemma V2HasTimeLine(config: Object)
    ensures Includes(Concat(V2Head(config)), "\nEstimated Time: " + FieldText(config, "estimatedTime"))
  {
    ConcatIncludesPair(V2Head(config), 8, "\nEstimated Time: ", FieldText(config, "estimatedTime"));
  }

  lemma V2HasObjectiveLine(config: Object)
    ensures Includes(Concat(V2Head(config)), "\nLearning Objective: " + FieldText(config, "learningObjective"))
  {
    ConcatIncludesPair(V2Head(config), 10, "\nLearning Objective: ", FieldText(config, "learningObjective"));
  }

  lemma V2HasTagsLine(config: Object)
    ensures Includes(Concat(V2Head(config)), "\nTags: " + FieldText(config, "tags"))
  {
    ConcatIncludesPair(V2Head(config), 12, "\nTags: ", FieldText(config, "tags"));
  }

  lemma V2HasToneLine(config: Object)
    ensures Includes(Concat(V2Head(config)), "\nTone: " + FieldText(config, "tone"))
  {
    ConcatIncludesPair(V2Head(config), 14, "\nTone: ", FieldText(config, "tone"));
  }

  lemma V2HasScaffoldingLine(config: Object)
    ensures Includes(Concat(V2Head(config)), "\nScaffolding Level: " + FieldText(config, "scaffoldingLevel"))
  {
    ConcatIncludesPair(V2Head(config), 16, "\nScaffolding Level: ", FieldText(config, "scaffoldingLevel"));
  }

  lemma V2HasMaxHintsLine(config: Object)
    ensures Includes(Concat(V2Head(config)), "\nMax Hints: " + FieldText(config, "maxHints"))
  {
    ConcatIncludesPair(V2Head(config), 18, "\nMax Hints: ", FieldText(config, "maxHints"));
  }

  lemma V2HasPhasesLine(config: Object, phases: seq<Value>)
    ensures Includes(Concat(V2Tail(config, phases)), "\n\nPhases: " + Join(phases, ", "))
  {
    ConcatIncludesPair(V2Tail(config, phases), 0, "\n\nPhases: ", Join(phases, ", "));
  }

  lemma V2HasHypothesesLine(config: Object, phases: seq<Value>)
    ensures Includes(Concat(V2Tail(config, phases)), "\nValid Hypotheses: " + FieldText(config, "validHypotheses"))
  {
    ConcatIncludesPair(V2Tail(config, phases), 2, "\nValid Hypotheses: ", FieldText(config, "validHypotheses"));
  }

  lemma V2HasMisconceptionsLine(config: Object, phases: seq<Value>)
    ensures Includes(Concat(V2Tail(config, phases)), "\nMisconceptions: " + FieldText(config, "misconceptions"))
  {
    ConcatIncludesPair(V2Tail(config, phases), 4, "\nMisconceptions: ", FieldText(config, "misconceptions"));
  }

  lemma V2HasConceptsLine(config: Object, phases: seq<Value>)
    ensures Includes(Concat(V2Tail(config, phases)), "\nCorrect Concepts: " + FieldText(config, "correctConcepts"))
  {
    ConcatIncludesPair(V2Tail(config, phases), 6, "\nCorrect Concepts: ", FieldText(config, "correctConcepts"));
  }

  lemma V2HasReflectionLine(config: Object, phases: seq<Value>)
    ensures Includes(Concat(V2Tail(config, phases)), "\nReflection Prompt: " + FieldText(config, "reflectionPrompt"))
  {
    ConcatIncludesPair(V2Tail(config, phases), 8, "\nReflection Prompt: ", FieldText(config, "reflectionPrompt"));
  }

  lemma V2HasAdditionalLine(config: Object, phases: seq<Value>)
    ensures Includes(Concat(V2Tail(config, phases)), "\nAdditional Instructions: " + ToString(Or(Get(config, "additionalInstructions"), Str("None"))))
  {
    ConcatIncludesPair(V2Tail(config, phases), 10, "\nAdditional Instructions: ", ToString(Or(Get(config, "additionalInstructions"), Str("None"))));
  }

  lemma V2HasPhaseOrderLine(config: Object, phases: seq<Value>)
    ensures Includes(Concat(V2Tail(config, phases)), "\n4. Phases: Follow " + Join(phases, " \U{2192} "))
  {
    ConcatIncludesPair(V2Tail(config, phases), 13, "\n4. Phases: Follow ", Join(phases, " \U{2192} "));
  }


  /** The configuration block lists the lesson's settings, each on its labelled line. */
  lemma V2NamesSettings(config: Object, phases: seq<Value>)
    ensures Includes(V2Text(config, phases), "\nLesson Title: " + FieldText(config, "lessonTitle"))
    ensures Includes(V2Text(config, phases), "\nGrade Level: " + FieldText(config, "gradeLevel"))
    ensures Includes(V2Text(config, phases), "\nSubject: " + FieldText(config, "subject"))
    ensures Includes(V2Text(config, phases), "\nEstimated Time: " + FieldText(config, "estimatedTime"))
    ensures Includes(V2Text(config, phases), "\nLearning Objective: " + FieldText(config, "learningObjective"))
    ensures Includes(V2Text(config, phases), "\nTags: " + FieldText(config, "tags"))
    ensures Includes(V2Text(config, phases), "\nTone: " + FieldText(config, "tone"))
    ensures Includes(V2Text(config, phases), "\nScaffolding Level: " + FieldText(config, "scaffoldingLevel"))
    ensures Includes(V2Text(config, phases), "\nMax Hints: " + FieldText(config, "maxHints"))
  {
    V2HasTitleLine(config);
    V2HeadLifts(config, phases, "\nLesson Title: " + FieldText(config, "lessonTitle"));
    V2HasGradeLine(config);
    V2HeadLifts(config, phases, "\nGrade Level: " + FieldText(config, "gradeLevel"));
    V2HasSubjectLine(config);
    V2HeadLifts(config, phases, "\nSubject: " + FieldText(config, "subject"));
    V2HasTimeLine(config);
    V2HeadLifts(config, phases, "\nEstimated Time: " + FieldText(config, "estimatedTime"));
    V2HasObjectiveLine(config);
    V2HeadLifts(config, phases, "\nLearning Objective: " + FieldText(config, "learningObjective"));
    V2HasTagsLine(config);
    V2HeadLifts(config, phases, "\nTags: " + FieldText(config, "tags"));
    V2HasToneLine(config);
    V2HeadLifts(config, phases, "\nTone: " + FieldText(config, "tone"));
    V2HasScaffoldingLine(config);
    V2HeadLifts(config, phases, "\nScaffolding Level: " + FieldText(config, "scaffoldingLevel"));
    V2HasMaxHintsLine(config);
    V2HeadLifts(config, phases, "\nMax Hints: " + FieldText(config, "maxHints"));
  }

  /** The lesson content appears verbatim, each item on its labelled line. */
  lemma V2NamesContent(config: Object, phases: seq<Value>)
    ensures Includes(V2Text(config, phases), "\nValid Hypotheses: " + FieldText(config, "validHypotheses"))
    ensures Includes(V2Text(config, phases), "\nMisconceptions: " + FieldText(config, "misconceptions"))
    ensures Includes(V2Text(config, phases), "\nCorrect Concepts: " + FieldText(config, "correctConcepts"))
    ensures Includes(V2Text(config, phases), "\nReflection Prompt: " + FieldText(config, "reflectionPrompt"))
  {
    V2HasHypothesesLine(config, phases);
    V2TailLifts(config, phases, "\nValid Hypotheses: " + FieldText(config, "validHypotheses"));
    V2HasMisconceptionsLine(config, phases);
    V2TailLifts(config, phases, "\nMisconceptions: " + FieldText(config, "misconceptions"));
    V2HasConceptsLine(config, phases);
    V2TailLifts(config, phases, "\nCorrect Concepts: " + FieldText(config, "correctConcepts"));
    V2HasReflectionLine(config, phases);
    V2TailLifts(config, phases, "\nReflection Prompt: " + FieldText(config, "reflectionPrompt"));
  }

  /** The phases are listed twice: joined by `, ` in the settings and by ` → ` in the phase rule. */
  lemma V2ListsPhases(config: Object, phases: seq<Value>)
    ensures Includes(V2Text(config, phases), "\n\nPhases: " + Join(phases, ", "))
    ensures Includes(V2Text(config, phases), "\n4. Phases: Follow " + Join(phases, " \U{2192} "))
  {
    V2HasPhasesLine(config, phases);
    V2TailLifts(config, phases, "\n\nPhases: " + Join(phases, ", "));
    V2HasPhaseOrderLine(config, phases);
    V2TailLifts(config, phases, "\n4. Phases: Follow " + Join(phases, " \U{2192} "));
  }

  /** Falsy additional instructions read `None`. */
  lemma V2Additional(config: Object, phases: seq<Value>)
    ensures Truthy(Get(config, "additionalInstructions")) ==>
              Includes(V2Text(config, phases), "\nAdditional Instructions: " + FieldText(config, "additionalInstructions"))
    ensures !Truthy(Get(config, "additionalInstructions")) ==>
              Includes(V2Text(config, phases), "\nAdditional Instructions: " + "None")
  {
    var more := ToString(Or(Get(config, "additionalInstructions"), Str("None")));
    V2HasAdditionalLine(config, phases);
    V2TailLifts(config, phases, "\nAdditional Instructions: " + more);
    if Truthy(Get(config, "additionalInstructions")) {
      IncludesRewrite(V2Text(config, phases), "\nAdditional Instructions: ", more, FieldText(config, "additionalInstructions"));
    } else {
      IncludesRewrite(V2Text(config, phases), "\nAdditional Instructions: ", more, "None");
    }
  }

  /** The configuration fields `promptV2` reads. */
  predicate V2Reads(key: string) {
    key == "lessonTitle" || key == "gradeLevel" || key == "subject" || key == "estimatedTime" ||
    key == "learningObjective" || key == "tags" || key == "tone" || key == "scaffoldingLevel" ||
    key == "maxHints" || key == "phases" || key == "validHypotheses" || key == "misconceptions" ||
    key == "correctConcepts" || key == "reflectionPrompt" || key == "additionalInstructions"
  }

  /** `promptV2` depends on no field but those. */
  lemma V2ReadsOnly(config: Object, key: string, v: Value)
    requires !V2Reads(key)
    ensures PromptV2(config[key := v]) == PromptV2(config)
  {
    var c := config[key := v];
    assert Get(c, "phases") == Get(config, "phases");
    V2HeadReadsOnly(config, key, v);
    if Get(config, "phases").Arr? {
      V2TailReadsOnly(config, key, v, Get(config, "phases").items);
    }
  }

  lemma V2HeadReadsOnly(config: Object, key: string, v: Value)
    requires !V2Reads(key)
    ensures V2Head(config[key := v]) == V2Head(config)
  {
  }

  lemma V2TailReadsOnly(config: Object, key: string, v: Value, phases: seq<Value>)
    requires !V2Reads(key)
    ensures V2Tail(config[key := v], phases) == V2Tail(config, phases)
  {
  }

  /** In particular `promptV2` uses neither `hintLimit` nor any of the three behaviour flags. */
  lemma V2Ignores(config: Object, key: string, v: Value)
    requires key == "hintLimit" || key == "nudgeOnWrongAnswers" || key == "reinforceGoodReasoning" || key == "offerHintsIfStuck"
    ensures PromptV2(config[key := v]) == PromptV2(config)
  {
    V2ReadsOnly(config, key, v);
  }
}
