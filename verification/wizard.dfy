/**
 * The wizard's vocabulary: the fixed option lists, the five steps and their
 * labels, the state record, the actions, the initial state, and the
 * serialisable BatchConfig subset shared with the batch script.
 */
module Wizard {
  import opened Wrappers

  const FStopOptions: seq<string> :=
    ["f/1.2", "f/1.4", "f/1.8", "f/2.0", "f/2.8", "f/4", "f/5.6", "f/8", "f/11", "f/16", "f/22"]

  const IsoOptions: seq<string> :=
    ["50", "100", "200", "400", "800", "1600", "3200", "6400", "Grainy"]

  const AspectRatioOptions: seq<string> := ["4:5", "16:9", "1:1", "9:16"]

  // The WizardStep enumeration: plain numbers, so a step is an `int`.
  const Reference: int := 0
  const Equipment: int := 1
  const ArtDirection: int := 2
  const Lighting: int := 3
  const Output: int := 4

  const Steps: seq<int> := [Reference, Equipment, ArtDirection, Lighting, Output]

  /** WIZARD_STEP_LABELS as a lookup; a number outside the enumeration has no label. */
  function StepLabel(step: int): (r: Option<string>)
    ensures r.Some? <==> step in Steps
  {
    if step == Reference then Some("Reference")
    else if step == Equipment then Some("Equipment")
    else if step == ArtDirection then Some("Art Direction")
    else if step == Lighting then Some("Lighting")
    else if step == Output then Some("Output")
    else None
  }

  predicate NoDuplicates<T(==)>(xs: seq<T>) {
    forall i, j :: 0 <= i < j < |xs| ==> xs[i] != xs[j]
  }

  /** The steps are the consecutive numbers 0..4, from Reference to Output. */
  lemma StepsConsecutive()
    ensures |Steps| == 5
    ensures forall i :: 0 <= i < |Steps| ==> Steps[i] == i
    ensures forall step :: step in Steps <==> 0 <= step <= 4
  {
  }

  /** Every step has a label, and the five labels are different. */
  lemma StepLabelsComplete()
    ensures forall step :: 0 <= step <= 4 ==> StepLabel(step).Some?
    ensures NoDuplicates(seq(5, i requires 0 <= i < 5 => StepLabel(i).value))
  {
  }

  /** A selected reference image (the browser's File). */
  datatype ImageFile = ImageFile(name: string, mimeType: string, bytes: seq<bv8>)

  /**
   * WizardState. `null` is `None`. fStop, iso, aspectRatio and
   * lightingCategory are typed as closed unions, but the batch script casts
   * arbitrary JSON text into them, so they are kept as text here.
   */
  datatype WizardState = WizardState(
    currentStep: int,
    referenceImage: Option<ImageFile>,
    referencePreview: Option<string>,
    camera: Option<string>,
    lens: Option<string>,
    fStop: string,
    iso: string,
    genre: Option<string>,
    artist: Option<string>,
    notes: string,
    lightingCategory: string,
    lightingScenario: Option<string>,
    lightSpecs: string,
    aspectRatio: string,
    generatedPrompt: Option<string>)

  datatype WizardAction =
    | SetStep(step: int)
    | NextStep
    | PrevStep
    | SetReference(file: ImageFile, preview: string)
    | ClearReference
    | SetCamera(camera: string)
    | SetLens(lens: string)
    | SetFStop(fStop: string)
    | SetIso(iso: string)
    | SetGenre(genre: string)
    | SetArtist(artist: string)
    | SetNotes(notes: string)
    | SetLightingCategory(category: string)
    | SetLightingScenario(scenario: string)
    | SetLightSpecs(specs: string)
    | SetAspectRatio(ratio: string)
    | SetGeneratedPrompt(prompt: string)
    | Reset

  const Studio: string := "Studio"

  const InitialWizardState: WizardState := WizardState(
    Reference, None, None, None, None, "f/2.8", "400",
    None, None, "", Studio, None, "", "4:5", None)

  /** The initial defaults are members of their option lists. */
  lemma DefaultsAreOptions()
    ensures InitialWizardState.fStop in FStopOptions
    ensures InitialWizardState.iso in IsoOptions
    ensures InitialWizardState.aspectRatio in AspectRatioOptions
  {
    assert FStopOptions[4] == "f/2.8";
    assert IsoOptions[3] == "400";
    assert AspectRatioOptions[0] == "4:5";
  }

  /** The initial state: at Reference, every nullable choice null, Studio lighting, empty texts. */
  lemma InitialStateShape()
    ensures InitialWizardState.currentStep == Reference
    ensures InitialWizardState.referenceImage.None? && InitialWizardState.referencePreview.None?
    ensures InitialWizardState.camera.None? && InitialWizardState.lens.None?
    ensures InitialWizardState.genre.None? && InitialWizardState.artist.None?
    ensures InitialWizardState.lightingScenario.None? && InitialWizardState.generatedPrompt.None?
    ensures InitialWizardState.lightingCategory == "Studio"
    ensures InitialWizardState.notes == "" && InitialWizardState.lightSpecs == ""
  {
  }

  /** No option list repeats an entry. */
  lemma OptionListsDistinct()
    ensures NoDuplicates(FStopOptions)
    ensures NoDuplicates(IsoOptions)
    ensures NoDuplicates(AspectRatioOptions)
  {
  }

  /** BatchConfig: the serialisable subset of the state, every field text. */
  datatype BatchConfig = BatchConfig(
    camera: string,
    lens: string,
    fStop: string,
    iso: string,
    genre: string,
    artist: string,
    notes: string,
    lightingCategory: string,
    lightingScenario: string,
    lightSpecs: string,
    aspectRatio: string)
}
