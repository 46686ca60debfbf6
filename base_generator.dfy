/**
 * The abstract generator of `src/generators/base_generator.py`: the result
 * record, the device choice and the state every generator starts with.
 * Hardware availability (`torch.cuda.is_available()`, the MPS backend) is an input.
 */
module BaseGenerator {
  import opened Wrappers
  import opened Storage

  /** The configuration fields the generator layer reads. */
  datatype Config = Config(
    imageModel: string,          // config.model.image_model
    zimageModelPath: Path,       // config.model.zimage_model_path
    zimageAttention: string,     // config.model.zimage_attention
    zimageCompile: bool,         // config.model.zimage_compile
    imageHeight: int,            // config.image.height
    imageWidth: int,             // config.image.width
    outputDir: Path,             // config.system.output_dir
    cpuOnly: bool)               // config.system.cpu_only

  /** What torch reports about the machine. */
  datatype Hardware = Hardware(cudaAvailable: bool, hasMpsBackend: bool, mpsAvailable: bool)

  /** A value in a metadata or model-info dictionary. */
  datatype InfoValue = Str(s: string) | Int(i: int) | Real(r: real) | Bool(b: bool)
                     | PathValue(p: Path) | StrList(items: seq<string>)

  /** `GenerationResult`. */
  datatype GenerationResult = GenerationResult(imagePath: Path, prompt: string, model: string,
                                               seed: int, steps: int, metadata: map<string, InfoValue>)

  /** A loaded diffusion pipeline; only its presence matters here. */
  datatype Pipe = Pipe(id: nat)

  /** `_get_device`: "cpu" when configured CPU-only, otherwise the first of CUDA, MPS, CPU that is available. */
  function GetDevice(cpuOnly: bool, hw: Hardware): (device: string)
    ensures device == "cuda" || device == "mps" || device == "cpu"
    ensures cpuOnly ==> device == "cpu"
    ensures device == "cuda" <==> !cpuOnly && hw.cudaAvailable
    ensures device == "mps" <==> !cpuOnly && !hw.cudaAvailable && hw.hasMpsBackend && hw.mpsAvailable
  {
    if cpuOnly then "cpu"
    else if hw.cudaAvailable then "cuda"
    else if hw.hasMpsBackend && hw.mpsAvailable then "mps"
    else "cpu"
  }

  /** `ImageGenerator`. `className` stands for `self.__class__.__name__`, the
      name of the concrete generator class. */
  class ImageGenerator {
    const config: Config
    const className: string
    const device: string
    var pipe: Option<Pipe>

    /** `ImageGenerator.__init__`: no pipeline yet, device chosen once. */
    constructor (config: Config, className: string, hw: Hardware)
      ensures this.config == config && this.className == className
      ensures device == GetDevice(config.cpuOnly, hw)
      ensures pipe == None
    {
      this.config := config;
      this.className := className;
      this.device := GetDevice(config.cpuOnly, hw);
      this.pipe := None;
    }

    /** `ImageGenerator.cleanup`: drops the pipeline; on a clean generator it changes nothing. */
    method Cleanup()
      modifies this
      ensures pipe == None
      ensures old(pipe) == None ==> unchanged(this)
    {
      if pipe.Some? {
        pipe := None;
      }
    }

    /** `ImageGenerator.get_model_info`: exactly the device and the class name. */
    function GetModelInfo(): (info: map<string, InfoValue>)
      ensures info.Keys == {"device", "model_type"}
      ensures info["device"] == Str(device) && info["model_type"] == Str(className)
    {
      map["device" := Str(device), "model_type" := Str(className)]
    }
  }
}
