/**
 * `src/generators/factory.py`: choosing a generator class from the mock flag and
 * the configured model name, and listing the models whose code is present.
 * Whether each generator module imports is an input: `None` when it imports,
 * `Some(message)` when importing it raises `ImportError(message)`.
 */
module Factory {
  import opened Wrappers
  import opened Text

  datatype GeneratorKind = MockGenerator | ZImageGenerator | FluxGenerator

  datatype FactoryError = ValueError(message: string) | ImportError(message: string)

  datatype Imports = Imports(mock: Option<string>, zimage: Option<string>, flux: Option<string>)

  const ZImageUnavailable := "Z-Image not available. Clone Z-Image repo to ref-repos/Z-Image"

  function UnknownModelMessage(modelType: string): string {
    "Unknown image model type: " + modelType + ". Expected 'flux' or 'zimage', got '" + modelType + "'"
  }

  /** The default of `get_image_generator`'s `mock` argument. */
  const DefaultMock := false

  /** `get_image_generator(config, mock)`, with `imageModel` for `config.model.image_model`. */
  function GetImageGenerator(imageModel: string, mock: bool, imports: Imports): (r: Result<GeneratorKind, FactoryError>)
    ensures r.Ok? ==> (r.value == MockGenerator <==> mock)
    ensures r.Err? && r.error.ValueError? ==> !mock && r.error.message == UnknownModelMessage(Lower(imageModel))
    ensures mock ==> r.Ok? || r.error.ImportError?
  {
    if mock then
      (if imports.mock.Some? then Err(ImportError(imports.mock.value)) else Ok(MockGenerator))
    else
      var modelType := Lower(imageModel);
      if modelType == "zimage" then
        (if imports.zimage.Some? then Err(ImportError(ZImageUnavailable)) else Ok(ZImageGenerator))
      else if modelType == "flux" then
        (if imports.flux.Some? then Err(ImportError(imports.flux.value)) else Ok(FluxGenerator))
      else
        Err(ValueError(UnknownModelMessage(modelType)))
  }

  /** `get_available_models()`, given whether `ref-repos/Z-Image/src` and its `zimage` package exist. */
  function GetAvailableModels(srcExists: bool, packageExists: bool): (models: seq<string>)
    ensures 1 <= |models| <= 2 && models[0] == "flux"
    ensures "zimage" in models <==> srcExists && packageExists
    ensures forall i, j :: 0 <= i < j < |models| ==> models[i] != models[j]
    ensures forall m :: m in models ==> m == "flux" || m == "zimage"
  {
    var models := ["flux"];
    if srcExists && packageExists then models + ["zimage"] else models
  }

  // ---------------------------------------------------------------------------
  // Lemmas

  /** With `mock` set the configured model name plays no part. */
  lemma MockIgnoresModelName(a: string, b: string, imports: Imports)
    ensures GetImageGenerator(a, true, imports) == GetImageGenerator(b, true, imports)
    ensures imports.mock.None? ==> GetImageGenerator(a, true, imports) == Ok(MockGenerator)
  {
  }

  /** The name is compared after lower-casing: any capitalisation of a name selects what the
      lower-case name selects. */
  lemma CaseInsensitive(name: string, mock: bool, imports: Imports)
    ensures GetImageGenerator(name, mock, imports) == GetImageGenerator(Lower(name), mock, imports)
  {
    LowerIdempotent(name);
  }

  /** "ZImage" selects Z-Image and "FLUX" selects FLUX. */
  lemma MixedCaseNames(imports: Imports)
    requires imports.zimage.None? && imports.flux.None?
    ensures GetImageGenerator("ZImage", false, imports) == Ok(ZImageGenerator)
    ensures GetImageGenerator("FLUX", false, imports) == Ok(FluxGenerator)
  {
    LowerZImage();
    LowerFlux();
  }

  lemma LowerZImage()
    ensures Lower("ZImage") == "zimage"
  {
    assert Lower("ZImage")[0] == 'z';
  }

  lemma LowerFlux()
    ensures Lower("FLUX") == "flux"
  {
  }

  /** The three outcomes of a non-mock call: the name decides the class, an unknown name raises
      `ValueError` and never returns a generator, and an import failure on the Z-Image branch
      is an `ImportError`, never a `ValueError`. */
  lemma DispatchCases(name: string, imports: Imports)
    ensures var r := GetImageGenerator(name, false, imports);
      && (r == Ok(ZImageGenerator) <==> Lower(name) == "zimage" && imports.zimage.None?)
      && (r == Ok(FluxGenerator) <==> Lower(name) == "flux" && imports.flux.None?)
      && (r.Err? && r.error.ValueError? <==> Lower(name) != "zimage" && Lower(name) != "flux")
      && (Lower(name) == "zimage" && imports.zimage.Some? ==> r == Err(ImportError(ZImageUnavailable)))
      && r != Ok(MockGenerator)
  {
  }
}
