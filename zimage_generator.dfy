/**
 * `ZImageGenerator` of `src/generators/zimage_generator.py`: lazy loading of the
 * model components, parameter defaulting, the diffusion call (an input function),
 * archiving through `_save_image`, and cleanup.
 *
 * Python's inheritance from `ImageGenerator` is held as composition: the object
 * owns an `ImageGenerator` (`base`) created with the class name "ZImageGenerator",
 * and `super()` calls become calls on `base`.
 */
module ZImage {
  import opened Wrappers
  import opened Calendar
  import opened Storage
  import opened BaseGenerator

  const ModelName := "Z-Image-Turbo"
  const ClassName := "ZImageGenerator"
  /** The Turbo variant's step count, used when the caller gives none. */
  const DefaultSteps := 8
  /** `torch.randint(0, 2**32, ...)` draws below this bound. */
  const SeedBound := 0x1_0000_0000
  /** `torch.Generator.manual_seed` accepts seeds in this inclusive range and raises otherwise. */
  const ManualSeedMin := -0x8000_0000_0000_0000
  const ManualSeedMax := 0xffff_ffff_ffff_ffff
  /** The default of `generate_image`'s `force_reinit` argument. */
  const DefaultForceReinit := false

  /** One loaded model part (transformer, vae, text encoder, tokenizer, scheduler). */
  datatype Component = Component(name: string)

  type Components = map<string, Component>

  /** The exceptions `load_model` and `generate` let escape. */
  datatype GenError =
    | ZImageSourceMissing     // ImportError from _get_zimage_src_path
    | UtilsImportFailed       // ImportError re-raised by load_model
    | ModelNotFound           // FileNotFoundError: model_path does not exist
    | LoadFailed              // load_from_local_dir raised
    | AttentionBackendFailed  // set_attention_backend raised
    | GenerateImportFailed    // `from zimage import generate` raised
    | SeedOutOfRange          // RuntimeError from torch.Generator.manual_seed
    | BackendFailed           // zimage_generate raised
    | NoImages                // images[0] on an empty list (IndexError)
    | Storage(error: StorageError)

  predicate IsImportError(e: GenError) {
    e.ZImageSourceMissing? || e.UtilsImportFailed? || e.GenerateImportFailed?
  }

  /** The outside facts `load_model` and `generate` depend on. */
  datatype Environment = Environment(
    zimageSrcExists: bool,        // ref-repos/Z-Image/src exists
    utilsImportable: bool,        // `from utils import ...` succeeds
    modelPathExists: bool,        // self.model_path.exists()
    loaded: Option<Components>,   // what load_from_local_dir returns; None when it raises
    attentionBackendOk: bool,     // set_attention_backend returns normally
    generateImportable: bool,     // `from zimage import generate` succeeds
    randomSeed: int)              // the draw of torch.randint(0, 2**32)

  /** The arguments of `generate`. */
  datatype Request = Request(prompt: string, negativePrompt: Option<string>,
                             height: Option<int>, width: Option<int>, steps: Option<int>,
                             guidanceScale: Option<real>, seed: Option<int>)

  /** The parameters `generate` hands to the diffusion call. */
  datatype Params = Params(height: int, width: int, steps: int, guidanceScale: real, seed: int)

  datatype BackendCall = BackendCall(prompt: string, components: Components, params: Params, device: string)

  /** The generator's fixed settings. */
  datatype Settings = Settings(config: Config, modelPath: Path, attentionBackend: string,
                               compileModel: bool, device: string)

  /** The state `generate` leaves: its result or exception, the disk, and the loaded components. */
  datatype GenerateStep = GenerateStep(result: Result<GenerationResult, GenError>, disk: Disk,
                                       components: Option<Components>)

  // ---------------------------------------------------------------------------
  // Parameter defaulting

  /** Python's `x or default` for an optional integer: `None` and `0` are both falsy. */
  function OrDefault(x: Option<int>, default: int): (r: int)
    ensures (x == None || x == Some(0)) ==> r == default
    ensures x.Some? && x.value != 0 ==> r == x.value
  {
    if x.Some? && x.value != 0 then x.value else default
  }

  /** The defaulting at the top of `generate`. */
  function EffectiveParams(req: Request, config: Config, randomSeed: int): (p: Params)
    ensures p.height == OrDefault(req.height, config.imageHeight)
    ensures p.width == OrDefault(req.width, config.imageWidth)
    ensures (req.steps == None || req.steps == Some(0)) ==> p.steps == DefaultSteps
    ensures req.steps.Some? && req.steps.value != 0 ==> p.steps == req.steps.value
    ensures req.seed.Some? ==> p.seed == req.seed.value
    ensures req.seed.None? ==> p.seed == randomSeed
    ensures p.guidanceScale == 0.0
  {
    Params(OrDefault(req.height, config.imageHeight), OrDefault(req.width, config.imageWidth),
           OrDefault(req.steps, DefaultSteps),
           0.0,
           if req.seed.Some? then req.seed.value else randomSeed)
  }

  predicate SeedAccepted(seed: int) {
    ManualSeedMin <= seed <= ManualSeedMax
  }

  /** The `metadata` dictionary of a result. */
  function Metadata(s: Settings, p: Params): (m: map<string, InfoValue>)
    ensures m.Keys == {"model", "model_path", "height", "width", "steps", "guidance_scale",
                       "attention_backend", "compiled", "device"}
  {
    map["model" := Str(ModelName), "model_path" := PathValue(s.modelPath),
        "height" := Int(p.height), "width" := Int(p.width), "steps" := Int(p.steps),
        "guidance_scale" := Real(p.guidanceScale), "attention_backend" := Str(s.attentionBackend),
        "compiled" := Bool(s.compileModel), "device" := Str(s.device)]
  }

  // ---------------------------------------------------------------------------
  // Specification of load_model and generate

  /** `load_model`: its outcome and the components afterwards. The components are
      assigned only once `load_from_local_dir` returns, so every earlier failure
      keeps what was there; a failing `set_attention_backend` leaves them loaded. */
  function LoadOutcome(env: Environment, before: Option<Components>): (r: (Outcome<GenError>, Option<Components>))
    ensures r.0.Pass? ==> r.1.Some?
  {
    if !env.zimageSrcExists then (Fail(ZImageSourceMissing), before)
    else if !env.utilsImportable then (Fail(UtilsImportFailed), before)
    else if !env.modelPathExists then (Fail(ModelNotFound), before)
    else if env.loaded.None? then (Fail(LoadFailed), before)
    else if !env.attentionBackendOk then (Fail(AttentionBackendFailed), env.loaded)
    else (Pass, env.loaded)
  }

  /** `generate`, starting from the loaded components `components` (None: not loaded). */
  function GenerateOutcome(s: Settings, components: Option<Components>, req: Request, env: Environment,
                           render: BackendCall -> Option<seq<Image>>, now: DateTime,
                           md5: string -> string, fs: FsOracle, disk: Disk): (r: GenerateStep)
    requires Valid(now)
    ensures r.result.Ok? ==> r.components.Some?
    ensures r.result.Err? && !r.result.error.Storage? ==> r.disk == disk
    ensures components.Some? ==> r.components == components
  {
    var load := if components.None? then LoadOutcome(env, components) else (Pass, components);
    var comps := load.1;
    if load.0.Fail? then GenerateStep(Err(load.0.error), disk, comps)
    else if !env.zimageSrcExists then GenerateStep(Err(ZImageSourceMissing), disk, comps)
    else if !env.generateImportable then GenerateStep(Err(GenerateImportFailed), disk, comps)
    else
      var p := EffectiveParams(req, s.config, env.randomSeed);
      if !SeedAccepted(p.seed) then GenerateStep(Err(SeedOutOfRange), disk, comps)
      else
      match render(BackendCall(req.prompt, comps.value, p, s.device))
      case None => GenerateStep(Err(BackendFailed), disk, comps)
      case Some(images) =>
        if |images| == 0 then GenerateStep(Err(NoImages), disk, comps)
        else
          var saved := SaveImage(s.config.outputDir, now, images[0], req.prompt, p.seed, md5, fs, disk);
          match saved.outcome
          case Err(e) => GenerateStep(Err(Storage(e)), saved.disk, comps)
          case Ok(path) =>
            GenerateStep(Ok(GenerationResult(path, req.prompt, "zimage", p.seed, p.steps, Metadata(s, p))),
                         saved.disk, comps)
  }

  /** What `generate_image` returns: `(image_path, generation_time, "Z-Image-Turbo")`. */
  function ImageTuple(r: Result<GenerationResult, GenError>, elapsed: real): Result<(Path, real, string), GenError> {
    match r
    case Ok(res) => Ok((res.imagePath, elapsed, ModelName))
    case Err(e) => Err(e)
  }

  /** The request `generate_image` makes: the prompt alone, every other argument left to its default. */
  function PromptOnly(prompt: string): Request {
    Request(prompt, None, None, None, None, None, None)
  }

  // ---------------------------------------------------------------------------
  // Properties of generate

  /** The metadata of a result: the model name, the effective steps and guidance scale, the settings. */
  lemma MetadataEntries(s: Settings, p: Params)
    ensures Metadata(s, p).Keys == {"model", "model_path", "height", "width", "steps", "guidance_scale",
                                    "attention_backend", "compiled", "device"}
    ensures Metadata(s, p)["model"] == Str(ModelName)
    ensures Metadata(s, p)["steps"] == Int(p.steps)
    ensures Metadata(s, p)["guidance_scale"] == Real(p.guidanceScale)
    ensures Metadata(s, p)["device"] == Str(s.device)
  {
  }

  /** A successful `generate` returns the prompt unchanged, model "zimage", the effective seed and
      steps, the archive path of `_save_image`, and the metadata of the effective parameters. */
  lemma GenerateResultFields(s: Settings, components: Option<Components>, req: Request, env: Environment,
                             render: BackendCall -> Option<seq<Image>>, now: DateTime,
                             md5: string -> string, fs: FsOracle, disk: Disk)
    requires Valid(now)
    ensures var step := GenerateOutcome(s, components, req, env, render, now, md5, fs, disk);
      var p := EffectiveParams(req, s.config, env.randomSeed);
      step.result.Ok? ==>
        step.result.value == GenerationResult(ImagePath(s.config.outputDir, now, req.prompt, md5), req.prompt,
                                              "zimage", p.seed, p.steps, Metadata(s, p))
  {
  }

  /** `generate` succeeds exactly when loading (if needed), both imports, the seed's hand-over to
      `manual_seed`, the diffusion call and all three filesystem steps succeed and the call returns
      at least one image. */
  lemma GenerateSucceedsIff(s: Settings, components: Option<Components>, req: Request, env: Environment,
                            render: BackendCall -> Option<seq<Image>>, now: DateTime,
                            md5: string -> string, fs: FsOracle, disk: Disk)
    requires Valid(now)
    ensures var step := GenerateOutcome(s, components, req, env, render, now, md5, fs, disk);
      var comps := if components.None? then env.loaded else components;
      step.result.Ok? <==>
        && (components.None? ==> LoadOutcome(env, None).0.Pass?)
        && env.zimageSrcExists && env.generateImportable
        && SeedAccepted(EffectiveParams(req, s.config, env.randomSeed).seed)
        && comps.Some?
        && (var call := BackendCall(req.prompt, comps.value, EffectiveParams(req, s.config, env.randomSeed), s.device);
            render(call).Some? && |render(call).value| > 0)
        && fs.mkdirOk && fs.imageSaveOk && fs.sidecarOk
  {
    var step := GenerateOutcome(s, components, req, env, render, now, md5, fs, disk);
    var load := if components.None? then LoadOutcome(env, components) else (Pass, components);
    var p := EffectiveParams(req, s.config, env.randomSeed);
    if load.0.Pass? && env.zimageSrcExists && env.generateImportable && SeedAccepted(p.seed) {
      var call := BackendCall(req.prompt, load.1.value, p, s.device);
      if render(call).Some? && |render(call).value| > 0 {
        SaveImageOutcomes(s.config.outputDir, now, render(call).value[0], req.prompt, p.seed, md5, fs, disk);
      }
    }
  }

  /** Loading is lazy: components already loaded are used as they are, whatever the environment says
      about loading; otherwise `generate` leaves exactly what `load_model` leaves. */
  lemma GenerateLoadsLazily(s: Settings, components: Option<Components>, req: Request, env: Environment,
                            env': Environment, render: BackendCall -> Option<seq<Image>>, now: DateTime,
                            md5: string -> string, fs: FsOracle, disk: Disk)
    requires Valid(now)
    requires env'.zimageSrcExists == env.zimageSrcExists && env'.generateImportable == env.generateImportable
    requires env'.randomSeed == env.randomSeed
    ensures var step := GenerateOutcome(s, components, req, env, render, now, md5, fs, disk);
      && (components.Some? ==>
            && step.components == components
            && step == GenerateOutcome(s, components, req, env', render, now, md5, fs, disk))
      && (components.None? ==> step.components == LoadOutcome(env, None).1)
      && (components.None? && LoadOutcome(env, None).0.Fail? ==>
            step == GenerateStep(Err(LoadOutcome(env, None).0.error), disk, LoadOutcome(env, None).1))
  {
  }

  /** A sidecar failure surfaces as a storage error but the image stays on the disk. */
  lemma GenerateSidecarFailureKeepsImage(s: Settings, components: Option<Components>, req: Request,
                                         env: Environment, render: BackendCall -> Option<seq<Image>>,
                                         now: DateTime, md5: string -> string, fs: FsOracle, disk: Disk)
    requires Valid(now)
    requires fs.mkdirOk && fs.imageSaveOk && !fs.sidecarOk
    ensures var step := GenerateOutcome(s, components, req, env, render, now, md5, fs, disk);
      var img := ImagePath(s.config.outputDir, now, req.prompt, md5);
      (step.result.Err? && step.result.error.Storage?) ==>
        && step.result.error == Storage(SidecarWriteFailed)
        && img in step.disk.files && step.disk.files[img].ImageFile?
  {
    var step := GenerateOutcome(s, components, req, env, render, now, md5, fs, disk);
    var load := if components.None? then LoadOutcome(env, components) else (Pass, components);
    var p := EffectiveParams(req, s.config, env.randomSeed);
    if load.0.Pass? && env.zimageSrcExists && env.generateImportable && SeedAccepted(p.seed) {
      var call := BackendCall(req.prompt, load.1.value, p, s.device);
      if render(call).Some? && |render(call).value| > 0 {
        var saved := SaveImage(s.config.outputDir, now, render(call).value[0], req.prompt, p.seed, md5, fs, disk);
        SidecarFailureKeepsImage(s.config.outputDir, now, render(call).value[0], req.prompt, p.seed, md5, fs, disk);
        assert step == GenerateStep(Err(Storage(saved.outcome.error)), saved.disk, load.1);
      }
    }
  }

  /** The diffusion call sees the defaulted parameters: a supplied guidance scale and negative prompt
      make no difference, and neither does a height, width or step count of 0 rather than None.
      A drawn seed is always one `manual_seed` accepts. */
  lemma ParamsIgnoreGuidanceAndZeros(req: Request, config: Config, randomSeed: int, g: Option<real>,
                                     neg: Option<string>)
    ensures var req' := req.(guidanceScale := g, negativePrompt := neg);
      EffectiveParams(req', config, randomSeed) == EffectiveParams(req, config, randomSeed)
    ensures var z := req.(height := Some(0), width := Some(0), steps := Some(0));
      var n := req.(height := None, width := None, steps := None);
      EffectiveParams(z, config, randomSeed) == EffectiveParams(n, config, randomSeed)
    ensures randomSeed < SeedBound && 0 <= randomSeed && req.seed.None? ==>
      0 <= EffectiveParams(req, config, randomSeed).seed < SeedBound
      && SeedAccepted(EffectiveParams(req, config, randomSeed).seed)
  {
  }

  // ---------------------------------------------------------------------------
  // The stateful generator

  /** The dictionary `load_from_local_dir` returns; `cleanup` empties it in place. */
  class ComponentTable {
    var entries: Components

    constructor (entries: Components)
      ensures this.entries == entries
    {
      this.entries := entries;
    }

    /** `del table[key]`. */
    method Delete(key: string)
      requires key in entries
      modifies this
      ensures entries == old(entries) - {key}
    {
      entries := entries - {key};
    }
  }

  class ZImageGenerator {
    const base: ImageGenerator
    const modelPath: Path
    const attentionBackend: string
    const compileModel: bool
    var components: ComponentTable?

    /** The components as a value: None while nothing is loaded. */
    ghost function ComponentsView(): Option<Components>
      reads this, components
    {
      if components == null then None else Some(components.entries)
    }

    function GetSettings(): Settings {
      Settings(base.config, modelPath, attentionBackend, compileModel, base.device)
    }

    /** `ZImageGenerator.__init__`: the base state, the Z-Image settings, nothing loaded. */
    constructor (config: Config, hw: Hardware)
      ensures fresh(base)
      ensures base.config == config && base.className == ClassName
      ensures base.device == GetDevice(config.cpuOnly, hw) && base.pipe == None
      ensures modelPath == config.zimageModelPath && attentionBackend == config.zimageAttention
      ensures compileModel == config.zimageCompile
      ensures components == null
    {
      base := new ImageGenerator(config, ClassName, hw);
      modelPath := config.zimageModelPath;
      attentionBackend := config.zimageAttention;
      compileModel := config.zimageCompile;
      components := null;
    }

    /** `load_model`. */
    method LoadModel(env: Environment) returns (r: Outcome<GenError>)
      modifies this
      ensures (r, ComponentsView()) == LoadOutcome(env, old(ComponentsView()))
      ensures components != old(components) ==> fresh(components)
    {
      if !env.zimageSrcExists { return Fail(ZImageSourceMissing); }
      if !env.utilsImportable { return Fail(UtilsImportFailed); }
      if !env.modelPathExists { return Fail(ModelNotFound); }
      if env.loaded.None? { return Fail(LoadFailed); }
      components := new ComponentTable(env.loaded.value);
      if !env.attentionBackendOk { return Fail(AttentionBackendFailed); }
      return Pass;
    }

    /** `generate`: loads the components first when none are loaded. */
    method Generate(req: Request, env: Environment, render: BackendCall -> Option<seq<Image>>,
                    now: DateTime, md5: string -> string, fs: FsOracle, disk: Disk)
      returns (r: Result<GenerationResult, GenError>, disk': Disk)
      requires Valid(now)
      modifies this
      ensures GenerateStep(r, disk', ComponentsView())
           == GenerateOutcome(GetSettings(), old(ComponentsView()), req, env, render, now, md5, fs, disk)
      ensures components != old(components) ==> fresh(components)
    {
      disk' := disk;
      if components == null {
        var loaded := LoadModel(env);
        if loaded.Fail? {
          return Err(loaded.error), disk;
        }
      }
      if !env.zimageSrcExists { return Err(ZImageSourceMissing), disk; }
      if !env.generateImportable { return Err(GenerateImportFailed), disk; }
      var p := EffectiveParams(req, base.config, env.randomSeed);
      if !(ManualSeedMin <= p.seed <= ManualSeedMax) { return Err(SeedOutOfRange), disk; }
      var images := render(BackendCall(req.prompt, components.entries, p, base.device));
      if images.None? { return Err(BackendFailed), disk; }
      if |images.value| == 0 { return Err(NoImages), disk; }
      var saved := SaveImage(base.config.outputDir, now, images.value[0], req.prompt, p.seed, md5, fs, disk);
      disk' := saved.disk;
      if saved.outcome.Err? {
        return Err(Storage(saved.outcome.error)), disk';
      }
      r := Ok(GenerationResult(saved.outcome.value, req.prompt, "zimage", p.seed, p.steps,
                               Metadata(GetSettings(), p)));
    }

    /** `cleanup`: empties the component dictionary key by key, drops it, then runs the base cleanup. */
    method Cleanup()
      modifies this, base, components
      ensures components == null && base.pipe == None
      ensures old(components) != null ==> old(components).entries == map[]
      ensures old(components) == null && old(base.pipe) == None ==> unchanged(this, base)
    {
      if components != null {
        var table := components;
        var keys := table.entries.Keys;
        while keys != {}
          invariant table.entries.Keys == keys
          decreases keys
        {
          var key :| key in keys;
          table.Delete(key);
          keys := keys - {key};
        }
        assert table.entries == map[];
        components := null;
      }
      base.Cleanup();
    }

    /** `generate_image`: with `forceReinit` on a loaded generator, cleans up first, so the call
        reloads; the model name returned is always "Z-Image-Turbo". The two clock readings stand
        for `time.time()` before and after. */
    method GenerateImage(prompt: string, outputPath: Path, forceReinit: bool, env: Environment,
                         render: BackendCall -> Option<seq<Image>>, now: DateTime, md5: string -> string,
                         fs: FsOracle, disk: Disk, clockStart: real, clockEnd: real)
      returns (r: Result<(Path, real, string), GenError>, disk': Disk)
      requires Valid(now)
      modifies this, base, components
      ensures var step := GenerateOutcome(GetSettings(), if forceReinit then None else old(ComponentsView()),
                                          PromptOnly(prompt), env, render, now, md5, fs, disk);
        && r == ImageTuple(step.result, clockEnd - clockStart)
        && disk' == step.disk && ComponentsView() == step.components
      ensures forceReinit && old(components) != null ==> old(components).entries == map[] && base.pipe == None
      ensures !(forceReinit && old(components) != null) ==> base.pipe == old(base.pipe)
    {
      if forceReinit && components != null {
        Cleanup();
        components := null;
      }
      var result;
      result, disk' := Generate(PromptOnly(prompt), env, render, now, md5, fs, disk);
      r := ImageTuple(result, clockEnd - clockStart);
    }

    /** `get_model_info`: the base keys, with the Z-Image details added. */
    function GetModelInfo(): (info: map<string, InfoValue>)
      ensures base.GetModelInfo().Keys <= info.Keys
      ensures info.Keys == {"device", "model_type"} + ModelDetailKeys
      ensures info["device"] == Str(base.device) && info["model_type"] == Str(base.className)
      ensures info["model_name"] == Str(ModelName) && info["inference_steps"] == Int(DefaultSteps)
    {
      base.GetModelInfo() + ModelDetails(modelPath, attentionBackend, compileModel)
    }
  }

  /** The keys `get_model_info` adds to the base ones. */
  const ModelDetailKeys: set<string> :=
    {"model_name", "model_path", "parameters", "architecture", "inference_steps",
     "attention_backend", "compiled", "features"}

  /** The Z-Image details of `get_model_info`. */
  function ModelDetails(modelPath: Path, attentionBackend: string, compileModel: bool)
    : (details: map<string, InfoValue>)
    ensures details.Keys == ModelDetailKeys
    ensures "device" !in details && "model_type" !in details
    ensures details["model_name"] == Str(ModelName) && details["inference_steps"] == Int(DefaultSteps)
  {
    map[
      "model_name" := Str(ModelName),
      "model_path" := PathValue(modelPath),
      "parameters" := Str("6B"),
      "architecture" := Str("Single-Stream DiT (S3-DiT)"),
      "inference_steps" := Int(DefaultSteps),
      "attention_backend" := Str(attentionBackend),
      "compiled" := Bool(compileModel),
      "features" := StrList(["Photorealistic generation", "Bilingual text rendering (EN/ZH)",
                             "Fast inference (8 steps)", "16GB VRAM compatible"])]
  }
}
