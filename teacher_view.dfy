/**
 * `client/src/components/teacher/TeacherView.jsx`: the lesson form and the view's mode,
 * with the state changes that its event handlers make. Each handler is a function from
 * the state before to the state after; the answer of a request to the server is a
 * parameter.
 */
module TeacherView {
  import opened Wrappers
  import opened Js

  /** `mode`: 'create', 'edit' or 'manage'. */
  datatype Mode = Create | Edit | Manage

  /** The view's `useState` hooks. `editingLesson` is `None` where the source holds `null`. */
  datatype TeacherState = TeacherState(
    form: Object,
    isSubmitting: bool,
    submitError: string,
    submitSuccess: string,
    mode: Mode,
    selectedLessonId: Value,
    isLoading: bool,
    editingLesson: Option<Object>)

  /** The six inquiry phases the form offers, in their order. */
  const AllPhases: seq<Value> :=
    [Str("Observation"), Str("Question"), Str("Hypothesis"), Str("Investigation"), Str("Data"), Str("Conclusion")]

  /** The form's free-text fields, which a reset empties. */
  const TextFields: seq<string> :=
    ["lessonTitle", "gradeLevel", "subject", "estimatedTime", "learningObjective", "tags",
     "validHypotheses", "misconceptions", "correctConcepts", "reflectionPrompt", "additionalInstructions"]

  /** The three behaviour switches, each `true` in a fresh form. */
  const Flags: seq<string> := ["nudgeOnWrongAnswers", "reinforceGoodReasoning", "offerHintsIfStuck"]

  const DefaultTone := "Socratic but friendly"

  /** The form a freshly mounted view shows: a sample lesson. */
  const InitialForm: Object := map[
    "lessonTitle" := Str("Mystery of the Sick Students"),
    "gradeLevel" := Str("Middle School"),
    "subject" := Str("Science / Health"),
    "estimatedTime" := Str("20-30 minutes"),
    "learningObjective" := Str("Students will apply the scientific method" + " to identify environmental causes of illness."),
    "tags" := Str("Scientific Method, Environmental Science," + " Critical Thinking"),
    "phases" := Arr(AllPhases),
    "validHypotheses" := Str("poor air quality, lack of food," + " contaminated water"),
    "misconceptions" := Str("viruses cause immediate illness," + " stress alone causes nausea"),
    "correctConcepts" := Str("chronic exposure to poor air quality can cause illness,"
                             + " environmental factors impact health"),
    "tone" := Str(DefaultTone),
    "nudgeOnWrongAnswers" := Bool(true),
    "reinforceGoodReasoning" := Bool(true),
    "offerHintsIfStuck" := Bool(true),
    "scaffoldingLevel" := Str("Moderate"),
    "maxHints" := Str("2"),
    "reflectionPrompt" := Str("What do you think caused the illness," + " and how confident are you in your conclusion?"),
    "additionalInstructions" := Str("")
  ]

  /** The form `resetForm` installs: empty text, every phase, the default settings. */
  const BlankForm: Object := map[
    "lessonTitle" := Str(""),
    "gradeLevel" := Str(""),
    "subject" := Str(""),
    "estimatedTime" := Str(""),
    "learningObjective" := Str(""),
    "tags" := Str(""),
    "phases" := Arr(AllPhases),
    "validHypotheses" := Str(""),
    "misconceptions" := Str(""),
    "correctConcepts" := Str(""),
    "tone" := Str(DefaultTone),
    "nudgeOnWrongAnswers" := Bool(true),
    "reinforceGoodReasoning" := Bool(true),
    "offerHintsIfStuck" := Bool(true),
    "scaffoldingLevel" := Str("Moderate"),
    "maxHints" := Str("2"),
    "reflectionPrompt" := Str(""),
    "additionalInstructions" := Str("")
  ]

  const Initial := TeacherState(InitialForm, false, "", "", Create, Null, false, None)

  const UpdatedMessage := "Lesson updated successfully!"
  const SavedMessage := "Lesson configuration saved successfully!"
  const SaveFailedMessage := "Failed to save configuration. Please try again."
  const DeletedMessage := "Lesson deleted successfully!"
  const DeleteFailedMessage := "Failed to delete lesson. Please try again."

  // ---------------------------------------------------------------- handleInputChange

  /**
   * `handleInputChange`: the field `name` becomes `checked` for a checkbox and `value`
   * otherwise; nothing else changes.
   */
  function InputChanged(s: TeacherState, name: string, kind: string, value: string, checked: bool): (r: TeacherState)
    ensures r == s.(form := r.form)
    ensures name in r.form && r.form[name] == (if kind == "checkbox" then Bool(checked) else Str(value))
    ensures forall k :: k != name ==> (k in r.form <==> k in s.form)
    ensures forall k :: k in s.form && k != name ==> r.form[k] == s.form[k]
  {
    s.(form := s.form[name := if kind == "checkbox" then Bool(checked) else Str(value)])
  }

  // ---------------------------------------------------------------- handlePhasesChange

  /** `phases.includes(phase)`, which agrees with `===` on the values phases hold. */
  predicate HasPhase(phases: seq<Value>, phase: Value) {
    exists j :: 0 <= j < |phases| && StrictEquals(phases[j], phase)
  }

  /** `phases.filter(p => p !== phase)` */
  function WithoutPhase(phases: seq<Value>, phase: Value): (r: seq<Value>)
    ensures |r| <= |phases|
    ensures !HasPhase(r, phase)
    ensures forall p :: p in r <==> p in phases && !StrictEquals(p, phase)
  {
    if |phases| == 0 then []
    else if StrictEquals(phases[0], phase) then WithoutPhase(phases[1..], phase)
    else [phases[0]] + WithoutPhase(phases[1..], phase)
  }

  /** Filtering commutes with concatenation, so the phases that stay keep their order. */
  lemma {:induction false} WithoutPhaseAppend(a: seq<Value>, b: seq<Value>, phase: Value)
    ensures WithoutPhase(a + b, phase) == WithoutPhase(a, phase) + WithoutPhase(b, phase)
  {
    if |a| == 0 {
      assert a + b == b;
    } else {
      assert (a + b)[1..] == a[1..] + b;
      WithoutPhaseAppend(a[1..], b, phase);
    }
  }

  /** A list without the phase passes the filter unchanged. */
  lemma {:induction false} WithoutPhaseAbsent(phases: seq<Value>, phase: Value)
    requires !HasPhase(phases, phase)
    ensures WithoutPhase(phases, phase) == phases
  {
    if |phases| > 0 {
      assert !HasPhase(phases[1..], phase) by {
        forall j | 0 <= j < |phases[1..]|
          ensures !StrictEquals(phases[1..][j], phase)
        {
          assert phases[1..][j] == phases[j + 1];
        }
      }
      WithoutPhaseAbsent(phases[1..], phase);
      assert phases == [phases[0]] + phases[1..];
    }
  }

  /** The updater's new list: without the phase if it is there, with it appended if not. */
  function TogglePhase(phases: seq<Value>, phase: Value): (r: seq<Value>)
    ensures HasPhase(phases, phase) ==> !HasPhase(r, phase) && |r| < |phases|
    ensures !HasPhase(phases, phase) ==> r == phases + [phase]
  {
    if HasPhase(phases, phase) then
      var j :| 0 <= j < |phases| && StrictEquals(phases[j], phase);
      assert phases[j] !in WithoutPhase(phases, phase);
      WithoutPhaseShorter(phases, phase, j);
      WithoutPhase(phases, phase)
    else phases + [phase]
  }

  /** Removing a phase that occurs shortens the list. */
  lemma {:induction false} WithoutPhaseShorter(phases: seq<Value>, phase: Value, j: nat)
    requires j < |phases| && StrictEquals(phases[j], phase)
    ensures |WithoutPhase(phases, phase)| < |phases|
  {
    if j > 0 {
      WithoutPhaseShorter(phases[1..], phase, j - 1);
    }
  }

  /**
   * `handlePhasesChange(phase)`. The updater reads `prev.phases` as an array; a form whose
   * `phases` is not one makes it fail, which is `None` here.
   */
  function PhasesChanged(s: TeacherState, phase: Value): (r: Option<TeacherState>)
    ensures r.Some? <==> Get(s.form, "phases").Arr?
    ensures r.Some? ==> r.value == s.(form := s.form["phases" := Arr(TogglePhase(Get(s.form, "phases").items, phase))])
  {
    match Get(s.form, "phases")
    case Arr(items) => Some(s.(form := s.form["phases" := Arr(TogglePhase(items, phase))]))
    case _ => None
  }

  /** Toggling a phase that is present removes every occurrence and keeps the rest in order. */
  lemma TogglePresent(before: seq<Value>, phase: Value, after: seq<Value>)
    requires HasPhase(before + after, phase)
    ensures TogglePhase(before + after, phase) == WithoutPhase(before, phase) + WithoutPhase(after, phase)
    ensures !HasPhase(TogglePhase(before + after, phase), phase)
  {
    WithoutPhaseAppend(before, after, phase);
  }

  /** Toggling a phase that is absent twice gives back the list it started from. */
  lemma {:induction false} ToggleTwice(phases: seq<Value>, phase: Value)
    requires !phase.Arr?
    requires !HasPhase(phases, phase)
    ensures TogglePhase(TogglePhase(phases, phase), phase) == phases
  {
    var once := phases + [phase];
    assert StrictEquals(once[|phases|], phase);
    WithoutPhaseAppend(phases, [phase], phase);
    WithoutPhaseAbsent(phases, phase);
    assert WithoutPhase([phase], phase) == [];
  }

  // ---------------------------------------------------------------- handleSubmit

  /** The request `handleSubmit` sends: an update of the selected lesson, or a new lesson. */
  datatype SaveRequest = UpdateLesson(id: Value, body: Object) | SaveLesson(body: Object)

  /** `mode === 'edit' && selectedLessonId` picks an update; anything else saves anew. */
  function SubmitRequest(s: TeacherState): (r: SaveRequest)
    ensures r.UpdateLesson? <==> s.mode == Edit && Truthy(s.selectedLessonId)
    ensures r.UpdateLesson? ==> r.id == s.selectedLessonId
    ensures r.body == s.form
  {
    if s.mode == Edit && Truthy(s.selectedLessonId) then UpdateLesson(s.selectedLessonId, s.form)
    else SaveLesson(s.form)
  }

  /** What a submission does: the request, the record passed to `onConfigSaved`, and the new state. */
  datatype Submission = Submission(request: SaveRequest, saved: Option<Object>, state: TeacherState)

  /**
   * `handleSubmit`, once the request has answered with `outcome` (`None` when it failed).
   * Both messages are cleared first; the flag `isSubmitting` is back to `false` at the end.
   */
  function Submitted(s: TeacherState, outcome: Option<Object>): (r: Submission)
    ensures r.request == SubmitRequest(s)
    ensures r.saved == outcome
    ensures !r.state.isSubmitting
    ensures r.state.form == s.form && r.state.selectedLessonId == s.selectedLessonId && r.state.isLoading == s.isLoading
    ensures outcome.Some? ==> r.state.submitError == ""
    ensures outcome.Some? && r.request.UpdateLesson? ==> r.state.submitSuccess == UpdatedMessage
    ensures outcome.Some? && r.request.SaveLesson? ==> r.state.submitSuccess == SavedMessage
    ensures outcome.Some? && s.mode == Edit ==> r.state.mode == Manage && r.state.editingLesson == None
    ensures outcome.Some? && s.mode != Edit ==> r.state.mode == s.mode && r.state.editingLesson == s.editingLesson
    ensures outcome.None? ==> && r.state.submitError == SaveFailedMessage && r.state.submitSuccess == ""
                              && r.state.mode == s.mode && r.state.editingLesson == s.editingLesson
  {
    var request := SubmitRequest(s);
    var cleared := s.(submitError := "", submitSuccess := "");
    var state :=
      match outcome
      case None => cleared.(submitError := SaveFailedMessage)
      case Some(_) =>
        var told := cleared.(submitSuccess := if request.UpdateLesson? then UpdatedMessage else SavedMessage);
        if s.mode == Edit then told.(mode := Manage, editingLesson := None) else told;
    Submission(request, outcome, state.(isSubmitting := false))
  }

  // ---------------------------------------------------------------- handleEdit, resetForm, cancelEdit

  /** `handleEdit(lesson)`: edit mode, the lesson selected and loaded into the form. */
  function Edited(s: TeacherState, lesson: Object): (r: TeacherState)
    ensures r.mode == Edit && r.selectedLessonId == Get(lesson, "id")
    ensures r.form == lesson && r.editingLesson == Some(lesson)
    ensures r.isSubmitting == s.isSubmitting && r.isLoading == s.isLoading
    ensures r.submitError == s.submitError && r.submitSuccess == s.submitSuccess
  {
    s.(mode := Edit, selectedLessonId := Get(lesson, "id"), form := lesson, editingLesson := Some(lesson))
  }

  /** `resetForm`: the blank form, create mode, nothing selected. */
  function FormReset(s: TeacherState): (r: TeacherState)
    ensures r.form == BlankForm
    ensures r.mode == Create && r.selectedLessonId == Null && r.editingLesson == None
    ensures r.isSubmitting == s.isSubmitting && r.isLoading == s.isLoading
    ensures r.submitError == s.submitError && r.submitSuccess == s.submitSuccess
  {
    s.(form := BlankForm, mode := Create, selectedLessonId := Null, editingLesson := None)
  }

  /** `cancelEdit`: manage mode, nothing selected, the form as it was. */
  function EditCancelled(s: TeacherState): (r: TeacherState)
    ensures r.mode == Manage && r.selectedLessonId == Null && r.editingLesson == None
    ensures r.form == s.form
    ensures r.isSubmitting == s.isSubmitting && r.isLoading == s.isLoading
    ensures r.submitError == s.submitError && r.submitSuccess == s.submitSuccess
  {
    s.(mode := Manage, selectedLessonId := Null, editingLesson := None)
  }

  /** The blank form empties every text field. */
  lemma BlankTextFields()
    ensures forall i :: 0 <= i < |TextFields| ==> Get(BlankForm, TextFields[i]) == Str("")
  {
  }

  /** The blank form switches every flag on. */
  lemma BlankFlags()
    ensures forall i :: 0 <= i < |Flags| ==> Get(BlankForm, Flags[i]) == Bool(true)
  {
  }

  /** The blank form offers every phase and the default tone, scaffolding and hint count. */
  lemma BlankSettings()
    ensures Get(BlankForm, "phases") == Arr(AllPhases)
    ensures Get(BlankForm, "tone") == Str(DefaultTone)
    ensures Get(BlankForm, "scaffoldingLevel") == Str("Moderate") && Get(BlankForm, "maxHints") == Str("2")
  {
  }

  /** A lesson opened for editing is what a submission updates, when it has an id. */
  lemma EditThenSubmitUpdates(s: TeacherState, lesson: Object)
    requires Truthy(Get(lesson, "id"))
    ensures SubmitRequest(Edited(s, lesson)) == UpdateLesson(Get(lesson, "id"), lesson)
  {
  }

  /**
   * A lesson without an id opened for editing is saved as a new lesson, and a successful
   * submission still leaves edit mode for manage mode.
   */
  lemma EditWithoutIdSavesNew(s: TeacherState, lesson: Object, saved: Object)
    requires !Truthy(Get(lesson, "id"))
    ensures Submitted(Edited(s, lesson), Some(saved)).request == SaveLesson(lesson)
    ensures Submitted(Edited(s, lesson), Some(saved)).state.mode == Manage
  {
  }

  /** After a reset or a cancelled edit, a submission creates a new lesson. */
  lemma ResetOrCancelSavesNew(s: TeacherState)
    ensures SubmitRequest(FormReset(s)) == SaveLesson(BlankForm)
    ensures SubmitRequest(EditCancelled(s)).SaveLesson?
  {
  }

  // ---------------------------------------------------------------- handleDelete

  /** What a deletion does: the id sent to the server, the id passed to `onConfigDeleted`, the new state. */
  datatype Deletion = Deletion(request: Option<Value>, notified: Option<Value>, state: TeacherState)

  /**
   * `handleDelete(id)`: nothing at all when the user does not confirm; otherwise the
   * request, with `ok` its success. A success notifies the parent, clears the selection if
   * it was this lesson and reports it; a failure reports that. `isLoading` ends `false`.
   */
  function Deleted(s: TeacherState, id: Value, confirmed: bool, ok: bool): (r: Deletion)
    ensures !confirmed ==> r == Deletion(None, None, s)
    ensures confirmed ==> r.request == Some(id) && !r.state.isLoading
    ensures confirmed ==> r.state.form == s.form && r.state.mode == s.mode && r.state.editingLesson == s.editingLesson
    ensures confirmed ==> r.state.isSubmitting == s.isSubmitting
    ensures confirmed && ok ==> && r.notified == Some(id) && r.state.submitSuccess == DeletedMessage
                                && r.state.submitError == s.submitError
    ensures confirmed && ok && StrictEquals(s.selectedLessonId, id) ==> r.state.selectedLessonId == Null
    ensures confirmed && ok && !StrictEquals(s.selectedLessonId, id) ==> r.state.selectedLessonId == s.selectedLessonId
    ensures confirmed && !ok ==> && r.notified == None && r.state.submitError == DeleteFailedMessage
                                 && r.state.submitSuccess == s.submitSuccess && r.state.selectedLessonId == s.selectedLessonId
  {
    if !confirmed then Deletion(None, None, s)
    else if ok then
      var selected := if StrictEquals(s.selectedLessonId, id) then Null else s.selectedLessonId;
      Deletion(Some(id), Some(id), s.(selectedLessonId := selected, submitSuccess := DeletedMessage, isLoading := false))
    else Deletion(Some(id), None, s.(submitError := DeleteFailedMessage, isLoading := false))
  }

  /** Deleting the lesson being edited leaves edit mode on while its id is cleared, so a later submission saves anew. */
  lemma DeleteEditedThenSubmitSavesNew(s: TeacherState, id: Value)
    requires s.mode == Edit && StrictEquals(s.selectedLessonId, id)
    ensures Deleted(s, id, true, true).state.mode == Edit
    ensures SubmitRequest(Deleted(s, id, true, true).state).SaveLesson?
  {
  }
}
