/**
 * The batch script's own logic: the strict provider resolution, rebuilding
 * a wizard state from a saved BatchConfig, and the command line. The image
 * folder and the worker pool are in module Batch.
 */
module Fabricate {
  import opened Wrappers
  import opened JsText
  import opened ProviderConfig
  import opened Wizard
  import opened Validation
  import opened PromptBuilder
  import opened StepOutput

  // ---------------------------------------------------------------------------
  // resolveProviderConfig
  // ---------------------------------------------------------------------------

  /** The error thrown when VITE_PROVIDER names a provider whose key variable is not set. */
  function MissingKeyMessage(p: ProviderId): string {
    "Provider \"" + ProviderName(p) + "\" selected via VITE_PROVIDER, but " + KeyVarRead(p)
      + " is missing.\nAdd the required key to your .env or remove VITE_PROVIDER to auto-detect."
  }

  /**
   * resolveProviderConfig: like the browser's resolveConfig, except that an
   * explicit VITE_PROVIDER without a usable key is an error instead of a
   * fall-through to auto-detection.
   */
  function ResolveProviderConfig(env: Env): (r: Result<Config, string>)
    ensures Explicit(env).Some? ==> (r.Failure? <==> !Truthy(env, KeyVarRead(Explicit(env).value)))
    ensures Explicit(env).Some? && r.Failure? ==> r.error == MissingKeyMessage(Explicit(env).value)
    ensures Explicit(env).Some? && r.Success? ==> r.value.providerId == Explicit(env).value
    ensures Explicit(env).None? ==> (r.Failure? <==> forall p :: p in AutoOrder ==> !Truthy(env, KeyVarRead(p)))
    ensures Explicit(env).None? && r.Failure? ==> r.error == NoKeyMessage
    ensures r.Success? ==>
      && Truthy(env, KeyVarRead(r.value.providerId))
      && r.value.apiKey == env[KeyVarRead(r.value.providerId)]
      && r.value.model == ModelFor(env, r.value.providerId)
  {
    match Explicit(env)
    case Some(p) =>
      if Truthy(env, KeyVarRead(p)) then Success(Config(p, ModelFor(env, p), env[KeyVarRead(p)]))
      else Failure(MissingKeyMessage(p))
    case None =>
      match Auto(env)
      case Success(d) => Success(Config(d.providerId, ModelFor(env, d.providerId), d.apiKey))
      case Failure(e) => Failure(e)
  }

  /**
   * The script and the browser resolve the same configuration except in one
   * case: VITE_PROVIDER is set and its key is not. There the script fails
   * naming the key, and the browser auto-detects.
   */
  lemma StrictDiffersOnlyOnMissingKey(env: Env)
    ensures ResolveProviderConfig(env) != ResolveConfig(env) <==>
      Explicit(env).Some? && !Truthy(env, KeyVarRead(Explicit(env).value))
  {
    if Explicit(env).Some? && !Truthy(env, KeyVarRead(Explicit(env).value)) {
      var p := Explicit(env).value;
      if ResolveConfig(env).Failure? {
        assert ResolveConfig(env).error == NoKeyMessage;
        MissingKeyMessageDiffers(p);
      }
    }
  }

  /** The missing-key message is never the no-key message: they start differently. */
  lemma MissingKeyMessageDiffers(p: ProviderId)
    ensures MissingKeyMessage(p) != NoKeyMessage
  {
    var m := MissingKeyMessage(p);
    assert m[0] == 'P';
    NoKeyMessageStart();
  }

  /** The missing-key message names the provider and the variable to set. */
  lemma MissingKeyMessageNames(p: ProviderId)
    ensures Contains(MissingKeyMessage(p), ProviderName(p))
    ensures Contains(MissingKeyMessage(p), KeyVarRead(p))
  {
    var head := "Provider \"";
    var mid := "\" selected via VITE_PROVIDER, but ";
    var tail := " is missing.\nAdd the required key to your .env or remove VITE_PROVIDER to auto-detect.";
    assert MissingKeyMessage(p) == head + ProviderName(p) + (mid + KeyVarRead(p) + tail);
    ContainsMiddle(head, ProviderName(p), mid + KeyVarRead(p) + tail);
    assert MissingKeyMessage(p) == (head + ProviderName(p) + mid) + KeyVarRead(p) + tail;
    ContainsMiddle(head + ProviderName(p) + mid, KeyVarRead(p), tail);
  }

  /** `PROVIDERS[providerConfig.providerId]`: the three listed ids have an adapter. */
  function SelectProvider(cfg: Config): (r: Result<ProviderId, string>)
    ensures r.Success? <==> Listed(cfg.providerId)
    ensures r.Success? ==> r.value == cfg.providerId
    ensures r.Failure? ==> r.error == "Unknown provider: \"" + ProviderName(cfg.providerId) + "\""
  {
    if Listed(cfg.providerId) then Success(cfg.providerId)
    else Failure("Unknown provider: \"" + ProviderName(cfg.providerId) + "\"")
  }

  /**
   * An unlisted VITE_PROVIDER never reaches a provider: it either fails for
   * want of the variable named "undefined", or resolves and is then refused
   * as an unknown provider.
   */
  lemma UnlistedProviderNeverRuns(env: Env)
    requires Explicit(env).Some? && Explicit(env).value.Unlisted?
    ensures ResolveProviderConfig(env).Failure? <==> !Truthy(env, "undefined")
    ensures ResolveProviderConfig(env).Success? ==> SelectProvider(ResolveProviderConfig(env).value).Failure?
  {
  }

  // ---------------------------------------------------------------------------
  // batchConfigToWizardState
  // ---------------------------------------------------------------------------

  /**
   * The wizard state the script builds the prompt from: step Reference, no
   * image, preview or generated prompt, and every config field, the empty
   * string included, taken as a selection.
   */
  function BatchConfigToWizardState(cfg: BatchConfig): (s: WizardState)
    ensures s.currentStep == Reference
    ensures s.referenceImage.None? && s.referencePreview.None? && s.generatedPrompt.None?
  {
    WizardState(
      Reference, None, None,
      Some(cfg.camera), Some(cfg.lens), cfg.fStop, cfg.iso,
      Some(cfg.genre), Some(cfg.artist), cfg.notes, cfg.lightingCategory,
      Some(cfg.lightingScenario), cfg.lightSpecs, cfg.aspectRatio, None)
  }

  /** Saving the state rebuilt from a config gives back that config. */
  lemma LoadThenSave(cfg: BatchConfig)
    ensures SaveConfig(BatchConfigToWizardState(cfg)) == cfg
  {
  }

  /**
   * Rebuilding from a saved state agrees with the state on every field the
   * config carries, except that a null selection comes back as "".
   */
  lemma SaveThenLoad(s: WizardState)
    ensures var t := BatchConfigToWizardState(SaveConfig(s));
      && (s.camera.Some? ==> t.camera == s.camera)
      && (s.lens.Some? ==> t.lens == s.lens)
      && (s.genre.Some? ==> t.genre == s.genre)
      && (s.artist.Some? ==> t.artist == s.artist)
      && (s.lightingScenario.Some? ==> t.lightingScenario == s.lightingScenario)
      && (s.camera.None? ==> t.camera == Some(""))
      && (s.lens.None? ==> t.lens == Some(""))
      && (s.genre.None? ==> t.genre == Some(""))
      && (s.artist.None? ==> t.artist == Some(""))
      && (s.lightingScenario.None? ==> t.lightingScenario == Some(""))
      && t.fStop == s.fStop && t.iso == s.iso && t.notes == s.notes
      && t.lightingCategory == s.lightingCategory && t.lightSpecs == s.lightSpecs
      && t.aspectRatio == s.aspectRatio
  {
  }

  /**
   * A rebuilt state has a selection for camera, lens, genre, artist and
   * scenario, so the steps Equipment to Lighting all count as complete,
   * while Reference does not (no image).
   */
  lemma RebuiltSelectionsComplete(cfg: BatchConfig)
    ensures var s := BatchConfigToWizardState(cfg);
      && !IsStepComplete(s, Reference)
      && IsStepComplete(s, Equipment) && IsStepComplete(s, ArtDirection) && IsStepComplete(s, Lighting)
      && !IsStepComplete(s, Output)
  {
  }

  /**
   * The config saved at the Output step reproduces the prompt: a state from
   * which Output can be reached has every selection the prompt reads, so the
   * script builds the same prompt the wizard showed.
   */
  lemma SavedConfigReproducesPrompt(s: WizardState, lib: Library)
    requires CanNavigateToStep(s, Output)
    ensures BuildPrompt(BatchConfigToWizardState(SaveConfig(s)), lib) == BuildPrompt(s, lib)
  {
    assert IsStepComplete(s, Equipment) && IsStepComplete(s, ArtDirection) && IsStepComplete(s, Lighting);
    var t := BatchConfigToWizardState(SaveConfig(s));
    assert t == s.(currentStep := Reference, referenceImage := None, referencePreview := None,
                   generatedPrompt := None);
    PromptIgnoresUnreadFields(s, lib, Reference, None, None, s.genre, None);
  }

  /**
   * Without the Output guard the round trip can change the prompt: with every
   * selection but the scenario made, the null scenario renders as "null" on
   * the Setup line, and the "" saved for it comes back as an empty scenario,
   * so the two prompts differ in length by four.
   */
  lemma NullScenarioChangesPrompt(s: WizardState, lib: Library)
    requires s.camera.Some? && s.lens.Some? && s.artist.Some? && s.lightingScenario.None?
    requires BuildPrompt(s, lib).Success?
    ensures BuildPrompt(BatchConfigToWizardState(SaveConfig(s)), lib).Success?
    ensures |BuildPrompt(BatchConfigToWizardState(SaveConfig(s)), lib).value|
      == |BuildPrompt(s, lib).value| - 4
  {
    RebuiltIsEmptyScenario(s, lib);
    EmptyScenarioPrompt(s, lib);
  }

  /** With every other selection made, the rebuilt state prompts as the state with scenario "". */
  lemma RebuiltIsEmptyScenario(s: WizardState, lib: Library)
    requires s.camera.Some? && s.lens.Some? && s.artist.Some? && s.lightingScenario.None?
    ensures BuildPrompt(BatchConfigToWizardState(SaveConfig(s)), lib)
      == BuildPrompt(s.(lightingScenario := Some("")), lib)
  {
    var e := s.(lightingScenario := Some(""));
    var t := BatchConfigToWizardState(SaveConfig(s));
    assert t == e.(currentStep := Reference, referenceImage := None, referencePreview := None,
                   generatedPrompt := None, genre := Some(OrEmpty(s.genre)));
    PromptIgnoresUnreadFields(e, lib, Reference, None, None, Some(OrEmpty(s.genre)), None);
  }

  /** A null scenario renders four characters ("null") longer than an empty one. */
  lemma EmptyScenarioPrompt(s: WizardState, lib: Library)
    requires s.lightingScenario.None? && BuildPrompt(s, lib).Success?
    ensures BuildPrompt(s.(lightingScenario := Some("")), lib).Success?
    ensures |BuildPrompt(s.(lightingScenario := Some("")), lib).value| == |BuildPrompt(s, lib).value| - 4
  {
    var e := s.(lightingScenario := Some(""));
    var cam := CamInfo(s, lib).value;
    var lens := LensInfoText(s, lib).value;
    assert CamInfo(e, lib) == CamInfo(s, lib) && LensInfoText(e, lib) == LensInfoText(s, lib);
    var parts := PromptParts(s, cam, lens);
    PromptPartsScenario(s, cam, lens, Some(""));
    assert parts[19] == "null";
    ConcatLengthUpdate(parts, 19, "");
  }

  /** Replacing one piece of a template changes the rendered length by the difference in that piece. */
  lemma {:induction false} ConcatLengthUpdate(parts: seq<string>, k: nat, x: string)
    requires k < |parts|
    ensures |Concat(parts[k := x])| == |Concat(parts)| - |parts[k]| + |x|
  {
    if k == 0 {
      assert parts[k := x][1..] == parts[1..];
    } else {
      assert parts[k := x][1..] == parts[1..][k - 1 := x];
      ConcatLengthUpdate(parts[1..], k - 1, x);
    }
  }

  // ---------------------------------------------------------------------------
  // parseArgs
  // ---------------------------------------------------------------------------

  /** The parsed command line, before path resolution. */
  datatype CliArgs = CliArgs(folderPath: string, configPath: string, concurrency: int)

  const DefaultConfigPath: string := "cinelab-config.json"
  const DefaultArgs: CliArgs := CliArgs("", DefaultConfigPath, 3)

  function Min(a: int, b: int): int { if a < b then a else b }
  function Max(a: int, b: int): int { if a < b then b else a }

  /** `Math.max(1, Math.min(10, parseInt(text, 10) || 3))`: NaN and 0 are falsy and give 3. */
  function ClampConcurrency(text: string): (c: int)
    ensures 1 <= c <= 10
  {
    var n := ParseInt(text);
    Max(1, Min(10, if n.None? || n.value == 0 then 3 else n.value))
  }

  /** The clamp's four cases: unreadable or zero, too small, in range, too large. */
  lemma ClampConcurrencyCases(text: string)
    ensures ParseInt(text).None? ==> ClampConcurrency(text) == 3
    ensures ParseInt(text) == Some(0) ==> ClampConcurrency(text) == 3
    ensures ParseInt(text).Some? && ParseInt(text).value < 0 ==> ClampConcurrency(text) == 1
    ensures ParseInt(text).Some? && 1 <= ParseInt(text).value <= 10 ==>
      ClampConcurrency(text) == ParseInt(text).value
    ensures ParseInt(text).Some? && ParseInt(text).value > 10 ==> ClampConcurrency(text) == 10
  {
  }

  /** `--concurrency n` for a written-out n in 1..10 gives exactly n. */
  lemma ConcurrencyOfNumber(n: int)
    requires 1 <= n <= 10
    ensures ClampConcurrency(IntToString(n)) == n
  {
    ParseIntOfIntToString(n);
  }

  /** A flag that takes the next argument as its value. */
  predicate ValueFlag(arg: string) {
    arg == "--config" || arg == "--concurrency"
  }

  /**
   * The loop of parseArgs from argument i on: a value flag with a truthy
   * next argument consumes it, any other argument not starting with "--"
   * becomes the folder, and the rest is skipped.
   */
  function Scan(args: seq<string>, i: nat, acc: CliArgs): (r: CliArgs)
    requires i <= |args|
    ensures r.folderPath == acc.folderPath || !StartsWith(r.folderPath, "--")
    decreases |args| - i
  {
    if i == |args| then acc
    else if args[i] == "--config" && i + 1 < |args| && args[i + 1] != "" then
      Scan(args, i + 2, acc.(configPath := args[i + 1]))
    else if args[i] == "--concurrency" && i + 1 < |args| && args[i + 1] != "" then
      Scan(args, i + 2, acc.(concurrency := ClampConcurrency(args[i + 1])))
    else if !StartsWith(args[i], "--") then
      Scan(args, i + 1, acc.(folderPath := args[i]))
    else
      Scan(args, i + 1, acc)
  }

  /** The parse result: the usage error (None) when no folder was given. */
  function Finish(a: CliArgs): Option<CliArgs> {
    if a.folderPath == "" then None else Some(a)
  }

  /**
   * parseArgs over `process.argv.slice(2)`: the loop, then the usage exit
   * (None) when the folder is empty.
   */
  method ParseArgs(args: seq<string>) returns (r: Option<CliArgs>)
    ensures r == Finish(Scan(args, 0, DefaultArgs))
    ensures r.None? <==> Scan(args, 0, DefaultArgs).folderPath == ""
    ensures r.Some? ==> r.value.folderPath != "" && 1 <= r.value.concurrency <= 10
  {
    var folderPath := "";
    var configPath := DefaultConfigPath;
    var concurrency := 3;
    var i := 0;
    while i < |args|
      invariant 0 <= i <= |args|
      invariant Scan(args, i, CliArgs(folderPath, configPath, concurrency)) == Scan(args, 0, DefaultArgs)
      invariant 1 <= concurrency <= 10
      decreases |args| - i
    {
      if args[i] == "--config" && i + 1 < |args| && args[i + 1] != "" {
        configPath := args[i + 1];
        i := i + 1;
      } else if args[i] == "--concurrency" && i + 1 < |args| && args[i + 1] != "" {
        concurrency := ClampConcurrency(args[i + 1]);
        i := i + 1;
      } else if !StartsWith(args[i], "--") {
        folderPath := args[i];
      }
      i := i + 1;
    }
    if folderPath == "" {
      return None;
    }
    return Some(CliArgs(folderPath, configPath, concurrency));
  }

  /** Whatever the arguments, the concurrency stays within 1..10. */
  lemma {:induction false} ScanKeepsConcurrencyRange(args: seq<string>, i: nat, acc: CliArgs)
    requires i <= |args| && 1 <= acc.concurrency <= 10
    ensures 1 <= Scan(args, i, acc).concurrency <= 10
    decreases |args| - i
  {
    if i < |args| {
      if args[i] == "--config" && i + 1 < |args| && args[i + 1] != "" {
        ScanKeepsConcurrencyRange(args, i + 2, acc.(configPath := args[i + 1]));
      } else if args[i] == "--concurrency" && i + 1 < |args| && args[i + 1] != "" {
        ScanKeepsConcurrencyRange(args, i + 2, acc.(concurrency := ClampConcurrency(args[i + 1])));
      } else if !StartsWith(args[i], "--") {
        ScanKeepsConcurrencyRange(args, i + 1, acc.(folderPath := args[i]));
      } else {
        ScanKeepsConcurrencyRange(args, i + 1, acc);
      }
    }
  }

  /** Without a --config flag the config path keeps its default. */
  lemma {:induction false} ScanConfigDefault(args: seq<string>, i: nat, acc: CliArgs)
    requires i <= |args| && "--config" !in args
    ensures Scan(args, i, acc).configPath == acc.configPath
    decreases |args| - i
  {
    if i < |args| {
      assert args[i] in args;
      if args[i] == "--concurrency" && i + 1 < |args| && args[i + 1] != "" {
        ScanConfigDefault(args, i + 2, acc.(concurrency := ClampConcurrency(args[i + 1])));
      } else if !StartsWith(args[i], "--") {
        ScanConfigDefault(args, i + 1, acc.(folderPath := args[i]));
      } else {
        ScanConfigDefault(args, i + 1, acc);
      }
    }
  }

  /** Scanning the arguments after a prefix is scanning them on their own. */
  lemma {:induction false} ScanShift(a: seq<string>, b: seq<string>, j: nat, acc: CliArgs)
    requires j <= |b|
    ensures Scan(a + b, |a| + j, acc) == Scan(b, j, acc)
    decreases |b| - j
  {
    var ab := a + b;
    if j < |b| {
      assert ab[|a| + j] == b[j];
      if j + 1 < |b| {
        assert ab[|a| + j + 1] == b[j + 1];
      }
      if b[j] == "--config" && j + 1 < |b| && b[j + 1] != "" {
        ScanShift(a, b, j + 2, acc.(configPath := b[j + 1]));
      } else if b[j] == "--concurrency" && j + 1 < |b| && b[j + 1] != "" {
        ScanShift(a, b, j + 2, acc.(concurrency := ClampConcurrency(b[j + 1])));
      } else if !StartsWith(b[j], "--") {
        ScanShift(a, b, j + 1, acc.(folderPath := b[j]));
      } else {
        ScanShift(a, b, j + 1, acc);
      }
    }
  }

  /**
   * Scanning a list whose last argument is not a value flag, then more
   * arguments, is scanning the first part and carrying on with the rest.
   */
  lemma {:induction false} ScanAppend(a: seq<string>, b: seq<string>, i: nat, acc: CliArgs)
    requires i <= |a|
    requires a != [] ==> !ValueFlag(a[|a| - 1])
    ensures Scan(a + b, i, acc) == Scan(b, 0, Scan(a, i, acc))
    decreases |a| - i
  {
    var ab := a + b;
    if i == |a| {
      ScanShift(a, b, 0, acc);
    } else {
      assert ab[i] == a[i];
      if i + 1 < |a| {
        assert ab[i + 1] == a[i + 1];
        if a[i] == "--config" && a[i + 1] != "" {
          ScanAppend(a, b, i + 2, acc.(configPath := a[i + 1]));
        } else if a[i] == "--concurrency" && a[i + 1] != "" {
          ScanAppend(a, b, i + 2, acc.(concurrency := ClampConcurrency(a[i + 1])));
        } else if !StartsWith(a[i], "--") {
          ScanAppend(a, b, i + 1, acc.(folderPath := a[i]));
        } else {
          ScanAppend(a, b, i + 1, acc);
        }
      } else {
        assert !ValueFlag(a[i]);
        if !StartsWith(a[i], "--") {
          ScanAppend(a, b, i + 1, acc.(folderPath := a[i]));
        } else {
          ScanAppend(a, b, i + 1, acc);
        }
      }
    }
  }

  /**
   * From argument i on there are only flags: value flags each followed by a
   * non-empty value (or by nothing, at the very end), and other arguments
   * starting with "--".
   */
  predicate OnlyFlags(args: seq<string>, i: nat)
    requires i <= |args|
    decreases |args| - i
  {
    if i == |args| then true
    else if ValueFlag(args[i]) then
      i + 1 == |args| || (args[i + 1] != "" && OnlyFlags(args, i + 2))
    else
      StartsWith(args[i], "--") && OnlyFlags(args, i + 1)
  }

  /** Scanning nothing but flags leaves the folder as it was. */
  lemma {:induction false} OnlyFlagsKeepFolder(args: seq<string>, i: nat, acc: CliArgs)
    requires i <= |args| && OnlyFlags(args, i)
    ensures Scan(args, i, acc).folderPath == acc.folderPath
    decreases |args| - i
  {
    if i < |args| {
      if args[i] == "--config" && i + 1 < |args| && args[i + 1] != "" {
        OnlyFlagsKeepFolder(args, i + 2, acc.(configPath := args[i + 1]));
      } else if args[i] == "--concurrency" && i + 1 < |args| && args[i + 1] != "" {
        OnlyFlagsKeepFolder(args, i + 2, acc.(concurrency := ClampConcurrency(args[i + 1])));
      } else {
        assert StartsWith(args[i], "--") by {
          if ValueFlag(args[i]) {
            assert args[i][..2] == "--";
          }
        }
        if i + 1 < |args| {
          OnlyFlagsKeepFolder(args, i + 1, acc);
        }
      }
    }
  }

  /**
   * The last positional argument is the folder: one that does not start
   * with "--" and is not a flag's value (it does not follow a value flag),
   * followed only by flags and their values, wins over every earlier one.
   */
  lemma LastPositionalIsFolder(before: seq<string>, folder: string, after: seq<string>)
    requires !StartsWith(folder, "--")
    requires before != [] ==> !ValueFlag(before[|before| - 1])
    requires OnlyFlags(after, 0)
    ensures Scan(before + [folder] + after, 0, DefaultArgs).folderPath == folder
  {
    var upTo := before + [folder];
    assert !ValueFlag(folder);
    ScanAppend(before, [folder], 0, DefaultArgs);
    ScanAppend(upTo, after, 0, DefaultArgs);
    OnlyFlagsKeepFolder(after, 0, Scan(upTo, 0, DefaultArgs));
  }

  /**
   * A value flag as the last argument consumes nothing and is skipped, as
   * long as it is not itself the value of a flag before it.
   */
  lemma DanglingFlagIgnored(a: seq<string>, flag: string, acc: CliArgs)
    requires ValueFlag(flag)
    requires a != [] ==> !ValueFlag(a[|a| - 1])
    ensures Scan(a + [flag], 0, acc) == Scan(a, 0, acc)
  {
    ScanAppend(a, [flag], 0, acc);
    assert StartsWith(flag, "--") by {
      assert flag[..2] == "--";
    }
  }

  /** A lone folder argument: default config path and concurrency. */
  lemma SingleFolder(folder: string)
    requires !StartsWith(folder, "--")
    ensures Scan([folder], 0, DefaultArgs) == CliArgs(folder, DefaultConfigPath, 3)
  {
    assert !ValueFlag(folder);
  }

  /** Flags without a folder take the usage exit, whatever their values. */
  lemma FlagsWithoutFolderIsUsage(args: seq<string>)
    requires OnlyFlags(args, 0)
    ensures Finish(Scan(args, 0, DefaultArgs)).None?
  {
    OnlyFlagsKeepFolder(args, 0, DefaultArgs);
  }

  /** `--concurrency` followed by a non-empty value sets the clamped concurrency. */
  lemma ScanConcurrencyFlag(args: seq<string>, i: nat, acc: CliArgs)
    requires i + 1 < |args| && args[i] == "--concurrency" && args[i + 1] != ""
    ensures Scan(args, i, acc) == Scan(args, i + 2, acc.(concurrency := ClampConcurrency(args[i + 1])))
  {
    assert |args[i]| != |"--config"|;
  }
}
