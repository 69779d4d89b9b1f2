/**
 * The wizard's last step: serialising the selections into a BatchConfig for
 * the batch script ("Save Config"), and the generate button, which sends the
 * prompt and the reference image to the engine and records the answer.
 */
module StepOutput {
  import opened Wrappers
  import opened Wizard
  import opened Validation
  import opened WizardReducer
  import opened PromptBuilder

  // ---------------------------------------------------------------------------
  // handleSaveConfig
  // ---------------------------------------------------------------------------

  /** `x ?? ''`: a null selection is written as the empty string. */
  function OrEmpty(x: Option<string>): (r: string)
    ensures x.None? ==> r == ""
    ensures x.Some? ==> r == x.value
  {
    x.GetOr("")
  }

  /**
   * The config object of handleSaveConfig: the five nullable selections with
   * null written as "", the six text fields copied as they are.
   */
  function SaveConfig(s: WizardState): (c: BatchConfig)
    ensures c.camera == OrEmpty(s.camera) && c.lens == OrEmpty(s.lens)
    ensures c.genre == OrEmpty(s.genre) && c.artist == OrEmpty(s.artist)
    ensures c.lightingScenario == OrEmpty(s.lightingScenario)
    ensures c.fStop == s.fStop && c.iso == s.iso && c.notes == s.notes
    ensures c.lightingCategory == s.lightingCategory && c.lightSpecs == s.lightSpecs
    ensures c.aspectRatio == s.aspectRatio
  {
    BatchConfig(
      OrEmpty(s.camera), OrEmpty(s.lens), s.fStop, s.iso,
      OrEmpty(s.genre), OrEmpty(s.artist), s.notes, s.lightingCategory,
      OrEmpty(s.lightingScenario), s.lightSpecs, s.aspectRatio)
  }

  /**
   * The saved config does not depend on the step shown, the reference image
   * and its preview, or the generated prompt: none of them is written.
   */
  lemma SaveConfigIgnoresSession(s: WizardState, step: int, image: Option<ImageFile>,
                                 preview: Option<string>, prompt: Option<string>)
    ensures SaveConfig(s.(currentStep := step, referenceImage := image,
                          referencePreview := preview, generatedPrompt := prompt)) == SaveConfig(s)
  {
  }

  /** A null selection and an empty-string selection save to the same config. */
  lemma SaveConfigMergesNullAndEmpty(s: WizardState)
    requires s.camera.None?
    ensures SaveConfig(s) == SaveConfig(s.(camera := Some("")))
    ensures s != s.(camera := Some(""))
  {
  }

  // ---------------------------------------------------------------------------
  // handleGenerate
  // ---------------------------------------------------------------------------

  /** How the awaited engine call ended: a JSON text, an Error, or some other thrown value. */
  datatype EngineOutcome = Returned(json: string) | ThrewError(message: string) | ThrewOther

  /** What handleGenerate hands to the engine: the prompt and the reference image. */
  datatype EngineRequest = EngineRequest(prompt: string, image: ImageFile)

  /** `e instanceof Error ? e.message : "Unknown error"` */
  function ErrorText(outcome: EngineOutcome): (r: string)
    requires !outcome.Returned?
    ensures outcome.ThrewError? ==> r == outcome.message
    ensures outcome.ThrewOther? ==> r == "Unknown error"
  {
    if outcome.ThrewError? then outcome.message else "Unknown error"
  }

  /**
   * Storing the engine's answer through SET_GENERATED_PROMPT completes the
   * Output step and leaves the completeness of every other step as it was.
   */
  lemma GeneratedPromptCompletesOutput(s: WizardState, json: string)
    ensures IsStepComplete(Reduce(s, SetGeneratedPrompt(json)), Output)
    ensures Reduce(s, SetGeneratedPrompt(json)).generatedPrompt == Some(json)
    ensures forall step :: step != Output ==>
      IsStepComplete(Reduce(s, SetGeneratedPrompt(json)), step) == IsStepComplete(s, step)
  {
  }

  /**
   * The output step's component state (result, loading, error) together with
   * the wizard state its dispatch updates.
   */
  class OutputPanel {
    var wizard: WizardState
    var result: Option<string>
    var loading: bool
    var error: Option<string>

    /** The step as it mounts: no result, not loading, no error. */
    constructor(state: WizardState)
      ensures wizard == state && result.None? && !loading && error.None?
    {
      wizard := state;
      result := None;
      loading := false;
      error := None;
    }

    /**
     * The part of handleGenerate before the engine is awaited: without a
     * reference image nothing happens; otherwise loading starts and the
     * previous error is cleared.
     */
    method BeginGenerate() returns (started: bool)
      modifies this
      ensures started <==> wizard.referenceImage.Some?
      ensures wizard == old(wizard) && result == old(result)
      ensures started ==> loading && error.None?
      ensures !started ==> loading == old(loading) && error == old(error)
    {
      if wizard.referenceImage.None? {
        return false;
      }
      loading := true;
      error := None;
      started := true;
    }

    /**
     * The part after the engine call: an answer is stored as the result and
     * dispatched as SET_GENERATED_PROMPT; a thrown value becomes the error
     * text; loading ends either way.
     */
    method FinishGenerate(outcome: EngineOutcome)
      modifies this
      ensures !loading
      ensures outcome.Returned? ==>
        && result == Some(outcome.json)
        && wizard == Reduce(old(wizard), SetGeneratedPrompt(outcome.json))
        && error == old(error)
      ensures !outcome.Returned? ==>
        && error == Some(ErrorText(outcome))
        && result == old(result)
        && wizard == old(wizard)
    {
      if outcome.Returned? {
        result := Some(outcome.json);
        wizard := Reduce(wizard, SetGeneratedPrompt(outcome.json));
      } else {
        error := Some(ErrorText(outcome));
      }
      loading := false;
    }

    /**
     * handleGenerate with the engine's outcome given: returns the request it
     * sends (none when there is no reference image, and then nothing changes).
     * The prompt is the one the step rendered with; a state whose prompt
     * cannot be built makes the render throw, so the button is never shown.
     */
    method Generate(lib: Library, outcome: EngineOutcome) returns (request: Option<EngineRequest>)
      requires BuildPrompt(wizard, lib).Success?
      modifies this
      ensures old(wizard.referenceImage).None? ==>
        request.None? && wizard == old(wizard) && result == old(result)
        && loading == old(loading) && error == old(error)
      ensures old(wizard.referenceImage).Some? ==>
        && request == Some(EngineRequest(BuildPrompt(old(wizard), lib).value, old(wizard.referenceImage.value)))
        && !loading
        && (outcome.Returned? ==>
              result == Some(outcome.json) && error.None?
              && wizard == Reduce(old(wizard), SetGeneratedPrompt(outcome.json))
              && IsStepComplete(wizard, Output))
        && (!outcome.Returned? ==>
              error == Some(ErrorText(outcome)) && result == old(result) && wizard == old(wizard))
    {
      var started := BeginGenerate();
      if !started {
        return None;
      }
      request := Some(EngineRequest(BuildPrompt(wizard, lib).value, wizard.referenceImage.value));
      FinishGenerate(outcome);
      if outcome.Returned? {
        GeneratedPromptCompletesOutput(old(wizard), outcome.json);
      }
    }
  }
}
