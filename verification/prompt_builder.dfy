/**
 * buildPrompt: the fixed prompt text with the wizard's selections and the
 * camera and lens library entries spliced in, exactly as a template literal
 * renders them (`null` renders as the text "null").
 */
module PromptBuilder {
  import opened Wrappers
  import opened JsText
  import opened Wizard

  datatype CameraInfo = CameraInfo(info: string, vibe: string)
  datatype LensInfo = LensInfo(info: string, character: string)

  /** The parts of the library buildPrompt reads: cameras and lenses by name. */
  datatype Library = Library(cameras: map<string, CameraInfo>, lenses: map<string, LensInfo>)

  /**
   * The members a plain object parsed from JSON inherits from Object.prototype.
   * `table[name]` with one of these names and no own entry of that name finds
   * the inherited member, whose `.info`, `.vibe` and `.character` are undefined.
   */
  const InheritedKeys: set<string> := {
    "constructor", "__proto__", "__defineGetter__", "__defineSetter__",
    "__lookupGetter__", "__lookupSetter__", "hasOwnProperty", "isPrototypeOf",
    "propertyIsEnumerable", "toString", "toLocaleString", "valueOf" }

  /** `table[name]` is not undefined: an own entry or an inherited member. */
  predicate Found<V>(name: string, table: map<string, V>) {
    name in table || name in InheritedKeys
  }

  /** An inherited member's `${m.info} | ${m.vibe}` (or `.character`). */
  const UndefinedPair: string := "undefined | undefined"

  /** Reading `.info` of undefined throws; these say which lookup did. */
  datatype PromptError = UnknownCamera(camera: string) | UnknownLens(lens: string)

  // The fixed pieces of the two template literals, in order.

  const StudioHead: string :=
    "LOCATION SWITCH: 100% EMPTY STUDIO.\n        - REMOVE the reference image background completely.\n        - Use a neutral, minimalist, empty CYCLORAMA WALL as the background.\n        - POSE OVERRIDE: If the subject is leaning against, holding, or interacting with any environmental object (wall, pole, railing, furniture, etc.), REPLACE that pose with a confident, free-standing editorial pose in the style of '"

  const StudioTail: string :=
    "' — because those objects do NOT exist in an empty cyclorama studio. Maintain the subject's attitude and energy, but the body must be fully self-supporting.\n        - Ensure the subject remains centered in the frame.\n        - HARD RULE: No lighting equipment, softboxes, stands, reflectors, or any studio gear may be visible in the frame. All equipment must be completely invisible. The image must look like a clean, final photograph — not a behind-the-scenes shot."

  const LocationKeep: string :=
    "LOCATION KEEP: Maintain the exact outdoor environment and location from the reference image."

  const PromptOpening: string :=
    "\n    ROLE: Professional Director of Photography (DP).\n    OBJECTIVE: Create a '4x4' (Dört Dörtlük) FLAWLESS and comprehensive cinematography recipe.\n\n    PHASE 1: SUBJECT RETENTION & GENDER LOCK (80% Weight)\n    - **GENDER LOCK**: You MUST maintain the exact GENDER and IDENTITY of the person in the reference image. If it's a woman, keep her as a woman. Do not change sex based on clothing style.\n    - Perform a '4x4' analysis: Describe the subject in 4 categories (Anatomy, Pose, Outfit, Identity) with 4 high-fidelity descriptors each.\n    - Recreate the subject's exact facial features, skin tone, and clothing with absolute precision.\n    - **FRAMING ANALYSIS**: Analyze the reference image and determine its framing type — \"close-up\" (face/head only), \"portrait\" (head and shoulders), \"half-body\" (waist up), or \"full-body\" (head to toe). You MUST preserve the same framing type in the output composition.\n    - "

  const BodyLabel: string :=
    "\n\n    PHASE 2: TECHNICAL OVERRIDE (Mandatory)\n    - Body: "

  const Arrow: string :=
    " -> "

  const LensLabel: string :=
    "\n    - Lens: "

  const ApertureLabel: string :=
    "\n    - Aperture: "

  const IsoLabel: string :=
    " | ISO: "

  const RatioLabel: string :=
    " | Ratio: "

  const ArtistLabel: string :=
    "\n    - Apply the specific optical character and sensor DNA of this equipment. Discard metadata from the source image.\n\n    PHASE 3: ARTISTIC DNA (20% Weight)\n    - Artist: '"

  const SetupLabel: string :=
    "'. Infuse their specific color science, film grain, and texture.\n\n    PHASE 4: LIGHTING PHYSICS\n    - Setup: "

  const SpecsLabel: string :=
    "\n    - Precise Physical Specs: "

  const NotesLabel: string :=
    "\n    - Director's Notes: "

  const PromptClosing: string :=
    "\n\n    OUTPUT: Provide ONLY raw, valid JSON using EXACTLY these keys:\n    - Root: cinematography_recipe\n    - Phase 1: phase_1_subject_retention > gender_lock, framing_type (one of: \"close-up\", \"portrait\", \"half-body\", \"full-body\" — detected from the reference image), four_by_four_analysis (anatomy/pose/outfit/identity arrays of 4), environment_override (location/background/composition). The \"composition\" field MUST include: the detected framing type preserved exactly, the pose in the style of the selected artist, zero background clutter, and zero visible equipment.\n    - Phase 2: phase_2_technical_override > camera_body, lens_specs, aperture, iso (number), aspect_ratio, optical_character\n    - Phase 3: phase_3_artistic_dna > artist_influence, visual_style (array of 4)\n    - Phase 4: phase_4_lighting_physics > setup, physical_specs (key_light/fill_light/back_light/background_light), directors_notes\n    "

  /** `${x}` for a value of type string | null. */
  function Interpolate(x: Option<string>): (r: string)
    ensures x.Some? ==> r == x.value
    ensures r == "null" <==> x.None? || x == Some("null")
  {
    if x.Some? then x.value else "null"
  }

  /** A string | null value is truthy: present and not empty. */
  predicate TruthyText(x: Option<string>) {
    x.Some? && x.value != ""
  }

  /**
   * camInfo: "" for a falsy camera, else the library entry's info and vibe; an
   * inherited member renders both as "undefined".
   */
  function CamInfo(s: WizardState, lib: Library): (r: Result<string, PromptError>)
    ensures !TruthyText(s.camera) ==> r == Success("")
    ensures TruthyText(s.camera) ==> (r.Failure? <==> !Found(s.camera.value, lib.cameras))
    ensures r.Failure? ==> r.error == UnknownCamera(s.camera.value)
    ensures TruthyText(s.camera) && s.camera.value in lib.cameras ==>
      r == Success(lib.cameras[s.camera.value].info + " | " + lib.cameras[s.camera.value].vibe)
    ensures TruthyText(s.camera) && s.camera.value !in lib.cameras && s.camera.value in InheritedKeys ==>
      r == Success(UndefinedPair)
  {
    if !TruthyText(s.camera) then Success("")
    else if s.camera.value in lib.cameras then
      Success(lib.cameras[s.camera.value].info + " | " + lib.cameras[s.camera.value].vibe)
    else if s.camera.value in InheritedKeys then Success(UndefinedPair)
    else Failure(UnknownCamera(s.camera.value))
  }

  /**
   * lensInfo: "" for a falsy lens, else the library entry's info and optical
   * character; an inherited member renders both as "undefined".
   */
  function LensInfoText(s: WizardState, lib: Library): (r: Result<string, PromptError>)
    ensures !TruthyText(s.lens) ==> r == Success("")
    ensures TruthyText(s.lens) ==> (r.Failure? <==> !Found(s.lens.value, lib.lenses))
    ensures r.Failure? ==> r.error == UnknownLens(s.lens.value)
    ensures TruthyText(s.lens) && s.lens.value in lib.lenses ==>
      r == Success(lib.lenses[s.lens.value].info + " | " + lib.lenses[s.lens.value].character)
    ensures TruthyText(s.lens) && s.lens.value !in lib.lenses && s.lens.value in InheritedKeys ==>
      r == Success(UndefinedPair)
  {
    if !TruthyText(s.lens) then Success("")
    else if s.lens.value in lib.lenses then
      Success(lib.lenses[s.lens.value].info + " | " + lib.lenses[s.lens.value].character)
    else if s.lens.value in InheritedKeys then Success(UndefinedPair)
    else Failure(UnknownLens(s.lens.value))
  }

  /** locationLogic: the empty-studio block naming the artist for Studio, the keep-location line otherwise. */
  function LocationLogic(s: WizardState): (r: string)
    ensures s.lightingCategory == Studio ==> Contains(r, Interpolate(s.artist))
    ensures s.lightingCategory != Studio ==> r == LocationKeep
  {
    if s.lightingCategory == Studio then
      ContainsMiddle(StudioHead, Interpolate(s.artist), StudioTail);
      StudioHead + Interpolate(s.artist) + StudioTail
    else LocationKeep
  }

  /** `notes || ""`: a falsy notes value renders as "". */
  function NotesOrEmpty(notes: string): (r: string)
    ensures r == notes
  {
    if notes != "" then notes else ""
  }

  /** The pieces of the returned template, in order. */
  function PromptParts(s: WizardState, camInfo: string, lensInfo: string): (r: seq<string>)
    ensures |r| == 25 && r[0] == PromptOpening && r[|r| - 1] == PromptClosing
    ensures r[1] == LocationLogic(s) && r[23] == s.notes
  {
    [ PromptOpening, LocationLogic(s),
      BodyLabel, Interpolate(s.camera), Arrow, camInfo,
      LensLabel, Interpolate(s.lens), Arrow, lensInfo,
      ApertureLabel, s.fStop, IsoLabel, s.iso, RatioLabel, s.aspectRatio,
      ArtistLabel, Interpolate(s.artist),
      SetupLabel, Interpolate(s.lightingScenario),
      SpecsLabel, s.lightSpecs,
      NotesLabel, NotesOrEmpty(s.notes),
      PromptClosing ]
  }

  /**
   * buildPrompt. It fails exactly when a truthy camera or lens names neither a
   * library entry nor an inherited member (the camera is looked up first).
   */
  function BuildPrompt(s: WizardState, lib: Library): (r: Result<string, PromptError>)
    ensures r.Success? <==>
      (TruthyText(s.camera) ==> Found(s.camera.value, lib.cameras))
      && (TruthyText(s.lens) ==> Found(s.lens.value, lib.lenses))
    ensures r.Failure? && TruthyText(s.camera) && !Found(s.camera.value, lib.cameras) ==>
      r.error == UnknownCamera(s.camera.value)
    ensures r.Failure? && !(TruthyText(s.camera) && !Found(s.camera.value, lib.cameras)) ==>
      r.error == UnknownLens(s.lens.value)
  {
    match CamInfo(s, lib)
    case Failure(e) => Failure(e)
    case Success(cam) =>
      match LensInfoText(s, lib)
      case Failure(e) => Failure(e)
      case Success(lens) => Success(Concat(PromptParts(s, cam, lens)))
  }

  /** A successful prompt is the template rendered with the two library texts. */
  lemma BuildPromptRenders(s: WizardState, lib: Library)
    requires BuildPrompt(s, lib).Success?
    ensures CamInfo(s, lib).Success? && LensInfoText(s, lib).Success?
    ensures BuildPrompt(s, lib).value == Concat(PromptParts(s, CamInfo(s, lib).value, LensInfoText(s, lib).value))
  {
  }

  /** The Body line carries the camera's name, an arrow and the camera text. */
  lemma CameraLineInPrompt(s: WizardState, lib: Library)
    requires BuildPrompt(s, lib).Success?
    ensures Contains(BuildPrompt(s, lib).value,
      BodyLabel + Interpolate(s.camera) + Arrow + CamInfo(s, lib).value)
  {
    BuildPromptRenders(s, lib);
    BodyLineInParts(s, CamInfo(s, lib).value, LensInfoText(s, lib).value);
  }

  lemma BodyLineInParts(s: WizardState, cam: string, lens: string)
    ensures Contains(Concat(PromptParts(s, cam, lens)), BodyLabel + Interpolate(s.camera) + Arrow + cam)
  {
    var parts := PromptParts(s, cam, lens);
    ContainsRun(parts, 2, 6);
    BodyPieces(s, cam, lens);
    assert parts[2..6] == [BodyLabel, Interpolate(s.camera), Arrow, cam];
    ConcatFour(BodyLabel, Interpolate(s.camera), Arrow, cam);
  }

  lemma BodyPieces(s: WizardState, cam: string, lens: string)
    ensures PromptParts(s, cam, lens)[2] == BodyLabel
    ensures PromptParts(s, cam, lens)[3] == Interpolate(s.camera)
    ensures PromptParts(s, cam, lens)[4] == Arrow
    ensures PromptParts(s, cam, lens)[5] == cam
  {
  }

  /**
   * A camera named like an Object.prototype member ("constructor", say) that
   * the library does not hold does not throw: the Body line reads
   * "<name> -> undefined | undefined".
   */
  lemma InheritedCameraRendersUndefined(s: WizardState, lib: Library)
    requires TruthyText(s.camera) && s.camera.value in InheritedKeys && s.camera.value !in lib.cameras
    requires TruthyText(s.lens) ==> Found(s.lens.value, lib.lenses)
    ensures BuildPrompt(s, lib).Success?
    ensures Contains(BuildPrompt(s, lib).value, BodyLabel + s.camera.value + Arrow + UndefinedPair)
  {
    CameraLineInPrompt(s, lib);
  }

  /** The Aperture line carries fStop, iso and aspectRatio, in that order. */
  lemma ApertureLineInPrompt(s: WizardState, lib: Library)
    requires BuildPrompt(s, lib).Success?
    ensures Contains(BuildPrompt(s, lib).value,
      ApertureLabel + s.fStop + IsoLabel + s.iso + RatioLabel + s.aspectRatio)
  {
    var parts := PromptParts(s, CamInfo(s, lib).value, LensInfoText(s, lib).value);
    ContainsRun(parts, 10, 16);
    assert parts[10..16] == [ApertureLabel, s.fStop, IsoLabel, s.iso, RatioLabel, s.aspectRatio];
    ConcatSix(ApertureLabel, s.fStop, IsoLabel, s.iso, RatioLabel, s.aspectRatio);
  }

  /** PHASE 4 carries the lighting scenario on the Setup line and the light specs after it. */
  lemma LightingInPrompt(s: WizardState, lib: Library)
    requires BuildPrompt(s, lib).Success?
    ensures Contains(BuildPrompt(s, lib).value, SetupLabel + Interpolate(s.lightingScenario))
    ensures Contains(BuildPrompt(s, lib).value, SpecsLabel + s.lightSpecs)
  {
    var parts := PromptParts(s, CamInfo(s, lib).value, LensInfoText(s, lib).value);
    ContainsRun(parts, 18, 20);
    assert parts[18..20] == [SetupLabel, Interpolate(s.lightingScenario)];
    ConcatTwo(SetupLabel, Interpolate(s.lightingScenario));
    ContainsRun(parts, 20, 22);
    assert parts[20..22] == [SpecsLabel, s.lightSpecs];
    ConcatTwo(SpecsLabel, s.lightSpecs);
  }

  /**
   * For Studio the empty-studio block, with the artist's name inside it, is in
   * the prompt; for any other category the keep-location line is.
   */
  lemma LocationInPrompt(s: WizardState, lib: Library)
    requires BuildPrompt(s, lib).Success?
    ensures s.lightingCategory == Studio ==>
      Contains(BuildPrompt(s, lib).value, StudioHead + Interpolate(s.artist) + StudioTail)
    ensures s.lightingCategory == Studio ==> Contains(BuildPrompt(s, lib).value, Interpolate(s.artist))
    ensures s.lightingCategory != Studio ==> Contains(BuildPrompt(s, lib).value, LocationKeep)
  {
    var parts := PromptParts(s, CamInfo(s, lib).value, LensInfoText(s, lib).value);
    PartInConcat(parts, 1);
    if s.lightingCategory == Studio {
      ContainsMiddle(StudioHead, Interpolate(s.artist), StudioTail);
      ContainsTransitive(BuildPrompt(s, lib).value, LocationLogic(s), Interpolate(s.artist));
    }
  }

  /**
   * The prompt reads neither the step, the reference image or preview, the
   * genre nor the generated prompt: changing them changes nothing.
   */
  lemma PromptIgnoresUnreadFields(s: WizardState, lib: Library, step: int, image: Option<ImageFile>,
                                  preview: Option<string>, genre: Option<string>, generated: Option<string>)
    ensures BuildPrompt(s, lib) == BuildPrompt(s.(currentStep := step, referenceImage := image,
      referencePreview := preview, genre := genre, generatedPrompt := generated), lib)
  {
  }

  /** The scenario is read in one place only: piece 19, the Setup line's value. */
  lemma PromptPartsScenario(s: WizardState, camInfo: string, lensInfo: string, x: Option<string>)
    ensures PromptParts(s.(lightingScenario := x), camInfo, lensInfo)
      == PromptParts(s, camInfo, lensInfo)[19 := Interpolate(x)]
  {
  }
}
