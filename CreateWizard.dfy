/** The card-creation wizard (src/app/create/page.tsx): the current step, the
    form data and the error map, with the step checks, the moves between
    steps and the error map a failed submission builds. */
module CreateWizard {
  import opened Wrappers
  import opened JsText
  import opened Validators

  datatype Step = OccasionStep | DetailsStep | StyleStep | ThemeStep | PreviewStep

  datatype StepInfo = StepInfo(id: Step, title: string, description: string)

  /** `STEPS`, in the order the wizard walks them. */
  const Steps: seq<StepInfo> := [
    StepInfo(OccasionStep, "Occasion", "What are we celebrating?"),
    StepInfo(DetailsStep, "Recipient Details", "Tell us about them"),
    StepInfo(StyleStep, "Music Style", "Choose the perfect genre"),
    StepInfo(ThemeStep, "Card Theme", "Pick a beautiful design"),
    StepInfo(PreviewStep, "Preview & Create", "Review and generate")]

  /** `STEPS.findIndex((s) => s.id === step)`: every step is listed, once. */
  function IndexOf(step: Step): (i: nat)
    ensures i < |Steps| && Steps[i].id == step
    ensures forall j :: 0 <= j < |Steps| && Steps[j].id == step ==> j == i
  {
    match step
    case OccasionStep => 0
    case DetailsStep => 1
    case StyleStep => 2
    case ThemeStep => 3
    case PreviewStep => 4
  }

  /** The step `handleNext` moves to once the current one validates. */
  function Forward(step: Step): (s: Step)
    ensures IndexOf(step) + 1 < |Steps| ==> IndexOf(s) == IndexOf(step) + 1
    ensures IndexOf(step) + 1 == |Steps| ==> s == step
  {
    var i := IndexOf(step) + 1;
    if i < |Steps| then Steps[i].id else step
  }

  /** The step `handleBack` moves to. */
  function Backward(step: Step): (s: Step)
    ensures IndexOf(step) > 0 ==> IndexOf(s) == IndexOf(step) - 1
    ensures IndexOf(step) == 0 ==> s == step
  {
    var i := IndexOf(step) as int - 1;
    if i >= 0 then Steps[i].id else step
  }

  /** Back undoes forward except on the last step, and forward undoes back
      except on the first. */
  lemma ForwardBackward(step: Step)
    ensures step != PreviewStep ==> Backward(Forward(step)) == step
    ensures step != OccasionStep ==> Forward(Backward(step)) == step
  {
  }

  /** Four moves forward walk from the first step to the last. */
  lemma WalkThrough()
    ensures Forward(Forward(Forward(Forward(OccasionStep)))) == PreviewStep
    ensures Forward(PreviewStep) == PreviewStep && Backward(OccasionStep) == OccasionStep
  {
  }

  /** The form: the card fields and the occasion. */
  datatype FormData = FormData(card: CardInput, occasion: Option<string>)

  const EmptyForm := FormData(CardInput(None, None, None, None, None, None, None, None, None), None)

  /** A form field `validateStep` checks. */
  datatype Field =
    | OccasionField | RecipientNameField | RelationshipField | TraitsField | InterestsField
    | SenderNameField | MusicStyleField | ThemeIdField
  {
    /** The key the error map uses. */
    function Key(): string
    {
      match this
      case OccasionField => "occasion"
      case RecipientNameField => "recipientName"
      case RelationshipField => "relationship"
      case TraitsField => "personalityTraits"
      case InterestsField => "interests"
      case SenderNameField => "senderName"
      case MusicStyleField => "musicStyle"
      case ThemeIdField => "themeId"
    }
  }

  /** A field `validateStep` requires, with the message it records when the
      field is missing. */
  datatype Requirement = Requirement(field: Field, message: string)

  /** The checks of each step, in the order `validateStep` makes them. */
  function Requirements(step: Step): seq<Requirement>
  {
    match step
    case OccasionStep => [Requirement(OccasionField, "Please select an occasion")]
    case DetailsStep => [
      Requirement(RecipientNameField, "Recipient name is required"),
      Requirement(RelationshipField, "Relationship is required"),
      Requirement(TraitsField, "Add at least one trait"),
      Requirement(InterestsField, "Add at least one interest"),
      Requirement(SenderNameField, "Your name is required")]
    case StyleStep => [Requirement(MusicStyleField, "Please select a music style")]
    case ThemeStep => [Requirement(ThemeIdField, "Please select a card theme")]
    case PreviewStep => []
  }

  predicate HasItems(v: Option<seq<string>>)
  {
    v.Some? && |v.value| > 0
  }

  /** Whether the test of `validateStep` on `field` passes: the text fields
      must be truthy, the two lists non-empty. */
  predicate Filled(d: FormData, field: Field)
  {
    match field
    case OccasionField => Truthy(d.occasion)
    case RecipientNameField => Truthy(d.card.recipientName)
    case RelationshipField => Truthy(d.card.relationship)
    case TraitsField => HasItems(d.card.personalityTraits)
    case InterestsField => HasItems(d.card.interests)
    case SenderNameField => Truthy(d.card.senderName)
    case MusicStyleField => Truthy(d.card.musicStyle)
    case ThemeIdField => Truthy(d.card.themeId)
  }

  /** One check of `validateStep`. */
  function Put(m: map<string, Message>, d: FormData, r: Requirement): map<string, Message>
  {
    if Filled(d, r.field) then m else m[r.field.Key() := Text(r.message)]
  }

  /** The checks `reqs` made in order, starting from the map `m`. */
  function ErrorsOver(m: map<string, Message>, reqs: seq<Requirement>, d: FormData): map<string, Message>
    decreases |reqs|
  {
    if reqs == [] then m else ErrorsOver(Put(m, d, reqs[0]), reqs[1..], d)
  }

  /** The error map `validateStep(step)` builds. */
  function StepErrors(step: Step, d: FormData): map<string, Message>
  {
    ErrorsOver(map[], Requirements(step), d)
  }

  /** The checks add exactly the keys of the unfilled fields, each with the
      message of its check. */
  lemma {:induction false} ErrorsOverContents(m: map<string, Message>, reqs: seq<Requirement>, d: FormData)
    requires forall i, j :: 0 <= i < j < |reqs| ==> reqs[i].field.Key() != reqs[j].field.Key()
    ensures forall i :: 0 <= i < |reqs| && !Filled(d, reqs[i].field) ==>
      reqs[i].field.Key() in ErrorsOver(m, reqs, d) && ErrorsOver(m, reqs, d)[reqs[i].field.Key()] == Text(reqs[i].message)
    ensures forall k :: k in ErrorsOver(m, reqs, d) ==>
      k in m || exists i :: 0 <= i < |reqs| && !Filled(d, reqs[i].field) && reqs[i].field.Key() == k
    ensures forall k :: k in m && (forall i :: 0 <= i < |reqs| ==> reqs[i].field.Key() != k) ==>
      k in ErrorsOver(m, reqs, d) && ErrorsOver(m, reqs, d)[k] == m[k]
    decreases |reqs|
  {
    if reqs != [] {
      var m' := Put(m, d, reqs[0]);
      var rest := reqs[1..];
      ErrorsOverContents(m', rest, d);
      forall k | k in ErrorsOver(m, reqs, d)
        ensures k in m || exists i :: 0 <= i < |reqs| && !Filled(d, reqs[i].field) && reqs[i].field.Key() == k
      {
        if k !in m' {
          var i :| 0 <= i < |rest| && !Filled(d, rest[i].field) && rest[i].field.Key() == k;
          assert reqs[i + 1] == rest[i];
        } else if k !in m {
          assert !Filled(d, reqs[0].field) && reqs[0].field.Key() == k;
        }
      }
      forall i | 0 <= i < |reqs| && !Filled(d, reqs[i].field)
        ensures reqs[i].field.Key() in ErrorsOver(m, reqs, d)
        ensures ErrorsOver(m, reqs, d)[reqs[i].field.Key()] == Text(reqs[i].message)
      {
        if i > 0 {
          assert rest[i - 1] == reqs[i];
        } else {
          assert forall j :: 0 <= j < |rest| ==> rest[j].field.Key() != reqs[0].field.Key() by {
            forall j | 0 <= j < |rest| ensures rest[j].field.Key() != reqs[0].field.Key() {
              assert rest[j] == reqs[j + 1];
            }
          }
        }
      }
      forall k | k in m && (forall i :: 0 <= i < |reqs| ==> reqs[i].field.Key() != k)
        ensures k in ErrorsOver(m, reqs, d) && ErrorsOver(m, reqs, d)[k] == m[k]
      {
        assert forall i :: 0 <= i < |rest| ==> rest[i] == reqs[i + 1];
      }
    }
  }

  /** No step checks a field twice. */
  lemma RequirementKeysDistinct(step: Step)
    ensures var reqs := Requirements(step);
      forall i, j :: 0 <= i < j < |reqs| ==> reqs[i].field.Key() != reqs[j].field.Key()
  {
  }

  /** The error map of a step holds exactly its unfilled fields, each with
      the message of its check; so a step validates exactly when all its
      fields are filled. */
  lemma StepErrorsExact(step: Step, d: FormData)
    ensures var reqs := Requirements(step);
      && (forall i :: 0 <= i < |reqs| && !Filled(d, reqs[i].field) ==>
            reqs[i].field.Key() in StepErrors(step, d) && StepErrors(step, d)[reqs[i].field.Key()] == Text(reqs[i].message))
      && (forall k :: k in StepErrors(step, d) ==>
            exists i :: 0 <= i < |reqs| && !Filled(d, reqs[i].field) && reqs[i].field.Key() == k)
    ensures StepErrors(step, d) == map[] <==> forall r :: r in Requirements(step) ==> Filled(d, r.field)
  {
    var reqs := Requirements(step);
    RequirementKeysDistinct(step);
    ErrorsOverContents(map[], reqs, d);
    if r :| r in reqs && !Filled(d, r.field) {
      var i :| 0 <= i < |reqs| && reqs[i] == r;
      assert r.field.Key() in StepErrors(step, d);
    }
  }

  /** The details step needs the two names, the relationship, a trait and
      an interest; the preview step always validates. */
  lemma DetailsAndPreview(d: FormData)
    ensures StepErrors(DetailsStep, d) == map[] <==>
      && Truthy(d.card.recipientName) && Truthy(d.card.relationship) && Truthy(d.card.senderName)
      && HasItems(d.card.personalityTraits) && HasItems(d.card.interests)
    ensures StepErrors(PreviewStep, d) == map[]
  {
    var reqs := Requirements(DetailsStep);
    StepErrorsUnfold(DetailsStep, d);
    var m1 := Put(map[], d, reqs[0]);
    var m2 := Put(m1, d, reqs[1]);
    var m3 := Put(m2, d, reqs[2]);
    var m4 := Put(m3, d, reqs[3]);
    PutEmpty(map[], d, reqs[0]);
    PutEmpty(m1, d, reqs[1]);
    PutEmpty(m2, d, reqs[2]);
    PutEmpty(m3, d, reqs[3]);
    PutEmpty(m4, d, reqs[4]);
  }

  lemma PutEmpty(m: map<string, Message>, d: FormData, r: Requirement)
    ensures Put(m, d, r) == map[] <==> m == map[] && Filled(d, r.field)
  {
    if !Filled(d, r.field) {
      assert r.field.Key() in Put(m, d, r);
    } else if m != map[] {
      var k :| k in m;
      assert k in Put(m, d, r);
    }
  }

  // ---- The error map of a failed submission ----

  /** The loop of `handleSubmit`: each issue's message under its field, a
      later issue overwriting an earlier one. */
  function LastMessages(issues: seq<Issue>): map<string, Message>
  {
    if issues == [] then map[]
    else LastMessages(issues[..|issues| - 1])[issues[|issues| - 1].field := issues[|issues| - 1].message]
  }

  /** The loop of `handleSubmit` over the issues. */
  method FieldErrors(issues: seq<Issue>) returns (fieldErrors: map<string, Message>)
    ensures fieldErrors == LastMessages(issues)
  {
    fieldErrors := map[];
    var i := 0;
    while i < |issues|
      invariant 0 <= i <= |issues|
      invariant fieldErrors == LastMessages(issues[..i])
    {
      assert issues[..i + 1][..i] == issues[..i];
      fieldErrors := fieldErrors[issues[i].field := issues[i].message];
      i := i + 1;
    }
    assert issues[..|issues|] == issues;
  }

  /** The error map holds the last message of every field the server-side
      flattening lists, and no other field. */
  lemma {:induction false} LastMessageOfEachField(issues: seq<Issue>)
    ensures LastMessages(issues).Keys == Flatten(issues).Keys
    ensures forall f :: f in Flatten(issues) ==>
      Flatten(issues)[f] != [] && LastMessages(issues)[f] == Flatten(issues)[f][|Flatten(issues)[f]| - 1]
  {
    if issues != [] {
      var init := issues[..|issues| - 1];
      var last := issues[|issues| - 1];
      LastMessageOfEachField(init);
      FlattenSnoc(init, last);
      assert init + [last] == issues;
    }
  }

  /** The occasion the preview shows. */
  function PreviewOccasion(d: FormData): (o: string)
    ensures Truthy(d.occasion) ==> o == d.occasion.value
    ensures !Truthy(d.occasion) ==> o == "birthday"
    ensures o != ""
  {
    if Truthy(d.occasion) then d.occasion.value else "birthday"
  }

  /** The checks of `validateStep`: the error map it builds for `step` on
      the form `d`. */
  method CheckStep(step: Step, d: FormData) returns (newErrors: map<string, Message>)
    ensures newErrors == StepErrors(step, d)
  {
    newErrors := map[];
    if step == OccasionStep {
      if !Truthy(d.occasion) {
        newErrors := newErrors["occasion" := Text("Please select an occasion")];
      }
      StepErrorsUnfold(step, d);
      assert newErrors == StepErrors(step, d);
    } else if step == DetailsStep {
      ghost var before0 := newErrors;
      if !Truthy(d.card.recipientName) {
        newErrors := newErrors["recipientName" := Text("Recipient name is required")];
      }
      assert newErrors == Put(before0, d, Requirement(RecipientNameField, "Recipient name is required"));
      ghost var before1 := newErrors;
      if !Truthy(d.card.relationship) {
        newErrors := newErrors["relationship" := Text("Relationship is required")];
      }
      assert newErrors == Put(before1, d, Requirement(RelationshipField, "Relationship is required"));
      ghost var before2 := newErrors;
      if !HasItems(d.card.personalityTraits) {
        newErrors := newErrors["personalityTraits" := Text("Add at least one trait")];
      }
      assert newErrors == Put(before2, d, Requirement(TraitsField, "Add at least one trait"));
      ghost var before3 := newErrors;
      if !HasItems(d.card.interests) {
        newErrors := newErrors["interests" := Text("Add at least one interest")];
      }
      assert newErrors == Put(before3, d, Requirement(InterestsField, "Add at least one interest"));
      ghost var before4 := newErrors;
      if !Truthy(d.card.senderName) {
        newErrors := newErrors["senderName" := Text("Your name is required")];
      }
      assert newErrors == Put(before4, d, Requirement(SenderNameField, "Your name is required"));
      StepErrorsUnfold(step, d);
      assert newErrors == StepErrors(step, d);
    } else if step == StyleStep {
      if !Truthy(d.card.musicStyle) {
        newErrors := newErrors["musicStyle" := Text("Please select a music style")];
      }
      StepErrorsUnfold(step, d);
      assert newErrors == StepErrors(step, d);
    } else if step == ThemeStep {
      if !Truthy(d.card.themeId) {
        newErrors := newErrors["themeId" := Text("Please select a card theme")];
      }
      StepErrorsUnfold(step, d);
      assert newErrors == StepErrors(step, d);
    } else {
      StepErrorsUnfold(step, d);
      assert newErrors == StepErrors(step, d);
    }
  }

  /** What `handleSubmit` makes of the form: `None` when the schema accepts
      it, otherwise the error map of its issues. */
  function SubmitErrors(d: FormData, isProfane: string -> bool, isEmail: string -> bool): Option<map<string, Message>>
  {
    var result := ParseCard(d.card, isProfane, isEmail);
    if result.Success? then None else Some(LastMessages(result.error))
  }

  /** The form is sent exactly when the schema accepts it; otherwise the
      error map holds the last message of each rejected field and is never
      empty. */
  lemma SubmitErrorsMeaning(d: FormData, isProfane: string -> bool, isEmail: string -> bool)
    ensures SubmitErrors(d, isProfane, isEmail).None? <==> CardAccepted(d.card, isProfane, isEmail)
    ensures SubmitErrors(d, isProfane, isEmail).Some? ==>
      var issues := CardIssues(d.card, isProfane, isEmail);
      var e := SubmitErrors(d, isProfane, isEmail).value;
      && e == LastMessages(issues) && e != map[]
      && e.Keys == Flatten(issues).Keys
  {
    var result := ParseCard(d.card, isProfane, isEmail);
    if result.Failure? {
      LastMessageOfEachField(result.error);
      FlattenKeys(result.error);
      assert result.error[0].field in Flatten(result.error);
    }
  }

  /** The schema check of `handleSubmit`, with the loop over the issues. */
  method CheckSubmit(d: FormData, isProfane: string -> bool, isEmail: string -> bool) returns (rejected: Option<map<string, Message>>)
    ensures rejected == SubmitErrors(d, isProfane, isEmail)
  {
    var result := ParseCard(d.card, isProfane, isEmail);
    if result.Failure? {
      var fieldErrors := FieldErrors(result.error);
      return Some(fieldErrors);
    }
    return None;
  }

  class Wizard {
    var currentStep: Step
    var formData: FormData
    var errors: map<string, Message>

    constructor ()
      ensures currentStep == OccasionStep && formData == EmptyForm && errors == map[]
    {
      currentStep := OccasionStep;
      formData := EmptyForm;
      errors := map[];
    }

    /** The form components' updates of the form data. */
    method SetFormData(d: FormData)
      modifies this
      ensures formData == d && currentStep == old(currentStep) && errors == old(errors)
    {
      formData := d;
    }

    /** `validateStep`: the error map is replaced by the step's errors. */
    method ValidateStep(step: Step) returns (ok: bool)
      modifies this
      ensures errors == StepErrors(step, formData)
      ensures ok <==> errors == map[]
      ensures formData == old(formData) && currentStep == old(currentStep)
    {
      var newErrors := CheckStep(step, formData);
      errors := newErrors;
      ok := |newErrors.Keys| == 0;
    }

    /** `handleNext`: validate the current step and, when it passes, move
        one step forward unless this is the last. */
    method HandleNext()
      modifies this
      ensures errors == StepErrors(old(currentStep), formData) && formData == old(formData)
      ensures errors == map[] ==> currentStep == Forward(old(currentStep))
      ensures errors != map[] ==> currentStep == old(currentStep)
    {
      var ok := ValidateStep(currentStep);
      if !ok {
        return;
      }
      var next := IndexOf(currentStep) + 1;
      if next < |Steps| {
        currentStep := Steps[next].id;
      }
    }

    /** `handleBack`: one step back, without validating, unless this is the
        first. */
    method HandleBack()
      modifies this
      ensures currentStep == Backward(old(currentStep))
      ensures errors == old(errors) && formData == old(formData)
    {
      var prev := IndexOf(currentStep) as int - 1;
      if prev >= 0 {
        currentStep := Steps[prev].id;
      }
    }

    /** The validation part of `handleSubmit`: a rejected form replaces the
        error map and sends nothing; an accepted one is sent as it is
        (`request`), the occasion included. */
    method HandleSubmit(isProfane: string -> bool, isEmail: string -> bool) returns (request: Option<FormData>)
      modifies this
      ensures formData == old(formData) && currentStep == old(currentStep)
      ensures var r := SubmitErrors(formData, isProfane, isEmail);
        && (r.Some? ==> request.None? && errors == r.value)
        && (r.None? ==> request == Some(formData) && errors == old(errors))
    {
      var rejected := CheckSubmit(formData, isProfane, isEmail);
      if rejected.Some? {
        errors := rejected.value;
        return None;
      }
      request := Some(formData);
    }
  }

  lemma ErrorsOverCons(m: map<string, Message>, r: Requirement, rest: seq<Requirement>, d: FormData)
    ensures ErrorsOver(m, [r] + rest, d) == ErrorsOver(Put(m, d, r), rest, d)
  {
    assert ([r] + rest)[1..] == rest;
  }

  /** The checks of each step one after another, as `validateStep` writes
      them. */
  lemma StepErrorsUnfold(step: Step, d: FormData)
    ensures var reqs := Requirements(step);
      && (|reqs| == 0 ==> StepErrors(step, d) == map[])
      && (|reqs| == 1 ==> StepErrors(step, d) == Put(map[], d, reqs[0]))
      && (|reqs| == 5 ==>
            StepErrors(step, d) == Put(Put(Put(Put(Put(map[], d, reqs[0]), d, reqs[1]), d, reqs[2]), d, reqs[3]), d, reqs[4]))
  {
    var reqs := Requirements(step);
    if |reqs| == 1 {
      ErrorsOverCons(map[], reqs[0], [], d);
      assert reqs == [reqs[0]] + [];
    } else if |reqs| == 5 {
      var m0: map<string, Message> := map[];
      var m1 := Put(m0, d, reqs[0]);
      var m2 := Put(m1, d, reqs[1]);
      var m3 := Put(m2, d, reqs[2]);
      var m4 := Put(m3, d, reqs[3]);
      ErrorsOverCons(m0, reqs[0], reqs[1..], d);
      ErrorsOverCons(m1, reqs[1], reqs[2..], d);
      ErrorsOverCons(m2, reqs[2], reqs[3..], d);
      ErrorsOverCons(m3, reqs[3], reqs[4..], d);
      ErrorsOverCons(m4, reqs[4], [], d);
      assert reqs == [reqs[0]] + reqs[1..];
      assert reqs[1..] == [reqs[1]] + reqs[2..];
      assert reqs[2..] == [reqs[2]] + reqs[3..];
      assert reqs[3..] == [reqs[3]] + reqs[4..];
      assert reqs[4..] == [reqs[4]] + [];
    }
  }
}
