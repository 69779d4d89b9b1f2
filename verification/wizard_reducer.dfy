/**
 * wizardReducer: every action returns a copy of the state with some fields
 * replaced. The object-URL revocations it performs on the way are browser
 * side effects with no bearing on the returned state and are not modelled.
 */
module WizardReducer {
  import opened Wrappers
  import opened Wizard
  import opened Validation

  /** The fields of WizardState, for stating what an action may change. */
  datatype Field =
    | CurrentStep | ReferenceImage | ReferencePreview | Camera | Lens | FStop | Iso
    | Genre | Artist | Notes | LightingCategory | LightingScenario | LightSpecs
    | AspectRatio | GeneratedPrompt

  /** `s` and `t` hold the same value in field `f`. */
  predicate SameField(s: WizardState, t: WizardState, f: Field) {
    match f
    case CurrentStep => s.currentStep == t.currentStep
    case ReferenceImage => s.referenceImage == t.referenceImage
    case ReferencePreview => s.referencePreview == t.referencePreview
    case Camera => s.camera == t.camera
    case Lens => s.lens == t.lens
    case FStop => s.fStop == t.fStop
    case Iso => s.iso == t.iso
    case Genre => s.genre == t.genre
    case Artist => s.artist == t.artist
    case Notes => s.notes == t.notes
    case LightingCategory => s.lightingCategory == t.lightingCategory
    case LightingScenario => s.lightingScenario == t.lightingScenario
    case LightSpecs => s.lightSpecs == t.lightSpecs
    case AspectRatio => s.aspectRatio == t.aspectRatio
    case GeneratedPrompt => s.generatedPrompt == t.generatedPrompt
  }

  /** Agreement on every field is equality. */
  lemma SameFieldsEqual(s: WizardState, t: WizardState)
    requires forall f :: SameField(s, t, f)
    ensures s == t
  {
    assert SameField(s, t, CurrentStep) && SameField(s, t, ReferenceImage) && SameField(s, t, ReferencePreview);
    assert SameField(s, t, Camera) && SameField(s, t, Lens) && SameField(s, t, FStop) && SameField(s, t, Iso);
    assert SameField(s, t, Genre) && SameField(s, t, Artist) && SameField(s, t, Notes);
    assert SameField(s, t, LightingCategory) && SameField(s, t, LightingScenario);
    assert SameField(s, t, LightSpecs) && SameField(s, t, AspectRatio) && SameField(s, t, GeneratedPrompt);
  }

  /** The fields an action is allowed to write. */
  function Writes(a: WizardAction): set<Field> {
    match a
    case SetStep(_) => {CurrentStep}
    case NextStep => {CurrentStep}
    case PrevStep => {CurrentStep}
    case SetReference(_, _) => {ReferenceImage, ReferencePreview}
    case ClearReference => {ReferenceImage, ReferencePreview}
    case SetCamera(_) => {Camera}
    case SetLens(_) => {Lens}
    case SetFStop(_) => {FStop}
    case SetIso(_) => {Iso}
    case SetGenre(_) => {Genre, Artist}
    case SetArtist(_) => {Artist}
    case SetNotes(_) => {Notes}
    case SetLightingCategory(_) => {LightingCategory, LightingScenario, LightSpecs}
    case SetLightingScenario(_) => {LightingScenario}
    case SetLightSpecs(_) => {LightSpecs}
    case SetAspectRatio(_) => {AspectRatio}
    case SetGeneratedPrompt(_) => {GeneratedPrompt}
    case Reset =>
      {CurrentStep, ReferenceImage, ReferencePreview, Camera, Lens, FStop, Iso, Genre, Artist,
       Notes, LightingCategory, LightingScenario, LightSpecs, AspectRatio, GeneratedPrompt}
  }

  function Min(a: int, b: int): int { if a <= b then a else b }
  function Max(a: int, b: int): int { if a >= b then a else b }

  /**
   * wizardReducer. Every field outside Writes(a) keeps its value, and from a
   * step within 0..4 every action but SET_STEP stays within 0..4.
   */
  function Reduce(s: WizardState, a: WizardAction): (r: WizardState)
    ensures forall f :: f !in Writes(a) ==> SameField(s, r, f)
    ensures 0 <= s.currentStep <= Output && !a.SetStep? ==> 0 <= r.currentStep <= Output
  {
    match a
    case SetStep(step) => s.(currentStep := step)
    case NextStep => s.(currentStep := Min(s.currentStep + 1, Output))
    case PrevStep => s.(currentStep := Max(s.currentStep - 1, Reference))
    case SetReference(file, preview) => s.(referenceImage := Some(file), referencePreview := Some(preview))
    case ClearReference => s.(referenceImage := None, referencePreview := None)
    case SetCamera(c) => s.(camera := Some(c))
    case SetLens(l) => s.(lens := Some(l))
    case SetFStop(f) => s.(fStop := f)
    case SetIso(i) => s.(iso := i)
    case SetGenre(g) => s.(genre := Some(g), artist := None)
    case SetArtist(ar) => s.(artist := Some(ar))
    case SetNotes(n) => s.(notes := n)
    case SetLightingCategory(c) => s.(lightingCategory := c, lightingScenario := None, lightSpecs := "")
    case SetLightingScenario(sc) => s.(lightingScenario := Some(sc))
    case SetLightSpecs(sp) => s.(lightSpecs := sp)
    case SetAspectRatio(ra) => s.(aspectRatio := ra)
    case SetGeneratedPrompt(p) => s.(generatedPrompt := Some(p))
    case Reset => InitialWizardState
  }

  /** NEXT_STEP moves one step forward, never past Output; PREV_STEP one back, never before Reference. */
  lemma StepMoves(s: WizardState)
    ensures Reduce(s, NextStep).currentStep == if s.currentStep + 1 <= Output then s.currentStep + 1 else Output
    ensures Reduce(s, PrevStep).currentStep == if s.currentStep - 1 >= Reference then s.currentStep - 1 else Reference
    ensures Reduce(s, NextStep).currentStep <= Output
    ensures Reduce(s, PrevStep).currentStep >= Reference
  {
  }

  /** At the ends of the wizard, moving past the end changes nothing at all. */
  lemma StepMovesAtEnds(s: WizardState)
    ensures s.currentStep == Output ==> Reduce(s, NextStep) == s
    ensures s.currentStep == Reference ==> Reduce(s, PrevStep) == s
  {
    if s.currentStep == Output {
      SameFieldsEqual(s, Reduce(s, NextStep));
    }
    if s.currentStep == Reference {
      SameFieldsEqual(s, Reduce(s, PrevStep));
    }
  }

  /** SET_GENRE sets the genre and clears the artist, so Art Direction is no longer complete. */
  lemma SetGenreClearsArtist(s: WizardState, g: string)
    ensures Reduce(s, SetGenre(g)).genre == Some(g)
    ensures Reduce(s, SetGenre(g)).artist.None?
    ensures !IsStepComplete(Reduce(s, SetGenre(g)), ArtDirection)
  {
  }

  /** SET_LIGHTING_CATEGORY sets the category and clears scenario and specs, so Lighting is incomplete. */
  lemma SetCategoryClearsScenario(s: WizardState, c: string)
    ensures Reduce(s, SetLightingCategory(c)).lightingCategory == c
    ensures Reduce(s, SetLightingCategory(c)).lightingScenario.None?
    ensures Reduce(s, SetLightingCategory(c)).lightSpecs == ""
    ensures !IsStepComplete(Reduce(s, SetLightingCategory(c)), Lighting)
  {
  }

  /** CLEAR_REFERENCE nulls image and preview, so Reference is incomplete. */
  lemma ClearReferenceNullsBoth(s: WizardState)
    ensures Reduce(s, ClearReference).referenceImage.None?
    ensures Reduce(s, ClearReference).referencePreview.None?
    ensures !IsStepComplete(Reduce(s, ClearReference), Reference)
  {
  }

  /** Each single-field SET_* action stores exactly its payload in its own field. */
  lemma SettersStorePayload(s: WizardState, a: WizardAction)
    ensures a.SetReference? ==> Reduce(s, a).referenceImage == Some(a.file) && Reduce(s, a).referencePreview == Some(a.preview)
    ensures a.SetCamera? ==> Reduce(s, a).camera == Some(a.camera)
    ensures a.SetLens? ==> Reduce(s, a).lens == Some(a.lens)
    ensures a.SetFStop? ==> Reduce(s, a).fStop == a.fStop
    ensures a.SetIso? ==> Reduce(s, a).iso == a.iso
    ensures a.SetArtist? ==> Reduce(s, a).artist == Some(a.artist)
    ensures a.SetNotes? ==> Reduce(s, a).notes == a.notes
    ensures a.SetLightingScenario? ==> Reduce(s, a).lightingScenario == Some(a.scenario)
    ensures a.SetLightSpecs? ==> Reduce(s, a).lightSpecs == a.specs
    ensures a.SetAspectRatio? ==> Reduce(s, a).aspectRatio == a.ratio
    ensures a.SetGeneratedPrompt? ==> Reduce(s, a).generatedPrompt == Some(a.prompt)
  {
  }

  /** RESET returns the initial state whatever came before. */
  lemma ResetIsInitial(s: WizardState)
    ensures Reduce(s, Reset) == InitialWizardState
  {
  }

  /** SET_STEP jumps to any step, whether or not the steps before it are complete. */
  lemma SetStepUnchecked(s: WizardState, step: int)
    ensures Reduce(s, SetStep(step)).currentStep == step
    ensures !CanNavigateToStep(s, step) ==> !CanNavigateToStep(Reduce(s, SetStep(step)), step)
  {
    var r := Reduce(s, SetStep(step));
    assert forall i :: IsStepComplete(r, i) == IsStepComplete(s, i);
  }
}
