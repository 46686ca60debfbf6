# dreamgen generator layer and benchmark driver, in Dafny

This project models the image-generator layer of dreamgen and its benchmark script:

- **Archive layout** (`ZImageGenerator._save_image`). An image generated at time `now` from a
  prompt is stored at `<output_dir>/<year>/week_<NN>/image_<YYYYmmdd>_<HHMMSS>_<hash8>.png`.
  A sibling `.txt` file holds the prompt. `NN` is the ISO 8601 week that `date.isocalendar()`
  returns, the year directory is the calendar year, and `hash8` is the first eight hex digits of
  the MD5 of the prompt. The modules are `Calendar`, `Text` and `Storage`.
- **Z-Image generator lifecycle** (module `ZImage`). `load_model` fills the `components` field.
  `generate` loads lazily when nothing is loaded, applies the parameter defaults, calls the
  diffusion backend, archives the first image and builds the `GenerationResult`.
  `generate_image` adds the `force_reinit` clean-up. `cleanup` empties the component dictionary
  key by key and then runs the base clean-up. `get_model_info` extends the base dictionary.
- **Base generator** (module `BaseGenerator`). `_get_device` picks "cuda", "mps" or "cpu".
  `__init__` sets the initial state (no pipeline). `cleanup` drops the pipeline, and
  `get_model_info` returns the device and the class name.
- **Factory** (module `Factory`). `get_image_generator` dispatches on the mock flag and the
  lower-cased model name, with `ValueError` and `ImportError` cases. `get_available_models`
  depends on two existence facts.
- **Benchmark driver** (modules `Benchmark` and `BenchmarkFacts`). The model is imperative:
  - `run_benchmark` is a method.
  - Its model loop skips unknown names.
  - The warmup loop uses seeds 42, 43, … and breaks at the first failure.
  - The measured loop uses seeds 1000, 1001, …; it records each success with its 1-based
    iteration and drops each failure.
  - The summary loop makes one summary per model that has results.

  Each loop is proved against recursive specification functions, and `BenchmarkFacts`
  proves what those functions mean.

The environment of the code becomes explicit inputs:

- The clock reading `now`.
- The MD5 digest, as a function `md5: string -> string`.
- The success of each filesystem step (`FsOracle`).
- Whether each import succeeds and each path exists (`Environment`, `Imports`).
- What the diffusion backend returns (`render`).
- The random seed drawn.
- The hardware availability (`Hardware`).
- A benchmark function `bench` that maps each call to a measurement, or to `None` when the call
  raises.
- The sample standard deviation, as a function `stdev`.

Python's inheritance of `ZImageGenerator` from `ImageGenerator` becomes composition: the Z-Image
object owns a base `ImageGenerator` created with the class name "ZImageGenerator".

The file-name hash is an MD5 of the **prompt** (src/generators/zimage_generator.py:216), not of the
image bytes, and `generate` does not retry a failed generation. `Storage.PathIgnoresImageAndSeed`
states that the image plays no part in the path.

## Model

| member | source | states |
|---|---|---|
| Storage.ImagePathLayout | src/generators/zimage_generator.py:208-218 | The image path is the output directory followed by exactly three parts. The first is the calendar year, all digits, and it parses back to `now.year`. The second is `week_` plus two digits that parse back to the ISO week (in 1..53). The third is a file name that parses back to the second-resolution timestamp and the 8-character hash of an MD5 digest. |
| Storage.WeekDirNameParses | src/generators/zimage_generator.py:210-211 | The week directory is 7 characters and starts with `week_`. Its last two characters are digits that parse to the ISO week, which lies in 1..53. |
| Storage.WeekDirName | src/generators/zimage_generator.py:210-211 | `week_{week_num:02d}` is `week_` followed by exactly two digits. |
| Storage.WeekDir | src/generators/zimage_generator.py:209-211 | The week directory lies two levels below the output directory. The first level is all digits and reads back as the calendar year; the second is the week directory name. |
| Storage.PromptHash | src/generators/zimage_generator.py:216 | The hash is a prefix of the digest, 8 characters long when the digest has at least 8, and hex when the digest is hex. |
| Storage.ImageFileName | src/generators/zimage_generator.py:215-217 | The name has length 26 plus the hash length, starts with `image_` and ends with `.png`. |
| Storage.ImagePath | src/generators/zimage_generator.py:217-218 | The image sits directly in the week directory, three levels below the output directory, under the file name. |
| Storage.YearDirIsCalendarYear | src/generators/zimage_generator.py:209-211 | 2024-12-30 is in ISO year 2025, yet it is archived under `2024/week_01`: the year directory is the calendar year. |
| Storage.WeekDirNameOfDec30Of2024 | src/generators/zimage_generator.py:210-211 | On 2024-12-30 the week directory is `week_01`. |
| Storage.Timestamp | src/generators/zimage_generator.py:215 | `strftime("%Y%m%d_%H%M%S")` of a valid time is 15 characters. |
| Storage.TimestampFields | src/generators/zimage_generator.py:215 | Each of the six fields of the timestamp parses back to the year, month, day, hour, minute and second it was written from, and position 8 is `_`. |
| Storage.ImageFileNameRoundTrip | src/generators/zimage_generator.py:215-217 | Parsing the file name gives back exactly the second-resolution timestamp and the 8-character hash. |
| Storage.ImageFileNameInjective | src/generators/zimage_generator.py:215-217 | Two equal file names come from the same second and the same hash prefix. |
| Storage.PathIgnoresImageAndSeed | src/generators/zimage_generator.py:208-218 | Two saves with the same prompt in the same second have the same outcome and path, whatever the image, the seed or the microseconds. |
| Storage.RFind | src/generators/zimage_generator.py:224 | The result is the last index holding the character, or -1 when no index holds it. |
| Storage.SuffixStart | src/generators/zimage_generator.py:224 | A suffix starts at the name's last dot, which is neither its first nor its last character. There is no suffix (-1) exactly when the name has no dot, its only dot is its first character, or it ends with a dot. |
| Storage.WithSuffix | src/generators/zimage_generator.py:224 | `with_suffix` yields a path exactly when the path is non-empty and its last part is non-empty (Python raises otherwise). |
| Storage.WithSuffixOfPng | src/generators/zimage_generator.py:224 | For a stem without dots, replacing the suffix of `<stem>.png` gives `<stem>.txt` in the same directory. |
| Storage.SidecarPath | src/generators/zimage_generator.py:224 | The prompt file path exists exactly when the image path has a non-empty last part, and then it has the image's directory. |
| Storage.SidecarBesideImage | src/generators/zimage_generator.py:217-224 | The image path is `<week dir>/<stem>.png` and the prompt file is `<week dir>/<stem>.txt`, for a hex digest. |
| Storage.SidecarDiffers | src/generators/zimage_generator.py:221-226 | The prompt file path never equals the image path, so writing it cannot overwrite the image. |
| Storage.MakeDirs | src/generators/zimage_generator.py:212 | `mkdir(parents=True, exist_ok=True)` keeps the files. Afterwards the directories are the old ones plus the target and every non-empty ancestor of it, and no others. |
| Storage.SaveImage | src/generators/zimage_generator.py:207-228 | `_save_image` returns a path exactly when all three filesystem steps succeed, and that path is the archive path of the image. |
| Storage.SaveImageOutcomes | src/generators/zimage_generator.py:207-228 | See the list below the table. |
| Storage.SaveImageDirs | src/generators/zimage_generator.py:212 | The directories afterwards are the old ones plus ancestors of the week directory. With a successful `mkdir` that is all of them, the week directory included. With a failing one it is at most the first `mkdirMade` of them, never the week directory. |
| Storage.SaveImageFiles | src/generators/zimage_generator.py:219-226 | Every file other than the image path and the prompt file is left exactly as it was, present or absent. |
| Storage.SidecarFailureKeepsImage | src/generators/zimage_generator.py:219-226 | When only the prompt-file write fails, the save reports that error and the image just written is on the disk. |
| Calendar.IsoCalendarIsIso8601 | src/generators/zimage_generator.py:210 | CPython's `isocalendar()` arithmetic names the date in the ISO 8601 week calendar: weeks start on Monday, and week 1 holds the year's first Thursday (section 4.1.4 of ISO 8601:2004). The week lies in 1..53, and the ISO year is within one of the calendar year. |
| Calendar.IsoWeek1MondayIsIso8601 | src/generators/zimage_generator.py:210 | CPython's `_isoweek1monday` is the Monday of the week holding the first Thursday, within three days of January 1st. |
| Calendar.IsoYearLength | src/generators/zimage_generator.py:210 | Consecutive week-1 Mondays are 364 or 371 days apart (an ISO year has 52 or 53 weeks). |
| Calendar.IsoWeekInRange | src/generators/zimage_generator.py:210 | The ISO week of a valid date is in 1..53 and its ISO weekday is in 1..7. |
| Calendar.IsoYearNearCalendarYear | src/generators/zimage_generator.py:209-210 | The ISO year differs from the calendar year only for December 29th to 31st (the next year) and January 1st to 3rd (the previous year). |
| Calendar.Dec30Of2024IsWeek1Of2025 | src/generators/zimage_generator.py:210 | `date(2024, 12, 30).isocalendar()` is `(2025, 1, 1)`. |
| Calendar.YearLength | src/generators/zimage_generator.py:210 | The days before year `y + 1` are the days before year `y` plus the length of year `y`. |
| Calendar.OrdinalInYear | src/generators/zimage_generator.py:210 | The ordinal of a valid date lies between the ordinals of January 1st of its year and of the next year. |
| Text.Decimal | src/generators/zimage_generator.py:209 | `str(n)` is at least one digit, all digits, with no leading zero. |
| Text.ParseDecimalOfDecimal | src/generators/zimage_generator.py:209 | `str(n)` parses back to `n`. |
| Text.ZeroPad | src/generators/zimage_generator.py:211 | Zero padding yields digits only, of length max(width, number of digits). |
| Text.ZeroPadWidth | src/generators/zimage_generator.py:211 | A number below 10^width is padded to exactly `width` characters. |
| Text.ParseZeroPad | src/generators/zimage_generator.py:211 | A zero-padded number parses back to the number. |
| Text.Prefix | src/generators/zimage_generator.py:216 | `s[:k]` has length min(k, len(s)) and is a prefix of `s`. |
| Text.Lower | src/generators/factory.py:29 | Lower-casing keeps the length and maps every character with the ASCII lower-case rule. |
| Text.LowerIdempotent | src/generators/factory.py:29 | Lower-casing twice equals lower-casing once. |
| ZImage.OrDefault | src/generators/zimage_generator.py:132-134 | `x or default` gives the default for `None` and for 0, and `x` otherwise. |
| ZImage.EffectiveParams | src/generators/zimage_generator.py:132-138 | Height and width fall back to the config when None or 0. Steps fall back to 8 when None or 0. A given seed (0 included) is kept, otherwise the drawn seed is used. The guidance scale is always 0.0. |
| ZImage.ParamsIgnoreGuidanceAndZeros | src/generators/zimage_generator.py:132-150 | The guidance scale and negative prompt passed in make no difference. Height, width and steps of 0 act exactly like None. A drawn seed in [0, 2^32) stays in that range, and `manual_seed` accepts it. |
| ZImage.Metadata | src/generators/zimage_generator.py:173-183 | The metadata dictionary has exactly the nine keys of the source. |
| ZImage.LoadOutcome | src/generators/zimage_generator.py:54-94 | A successful load leaves components loaded. |
| ZImage.ZImageGenerator.LoadModel | src/generators/zimage_generator.py:54-94 | The method's outcome and components are those of the `load_model` specification: each failing step raises its error. The components are set only once `load_from_local_dir` returns, so a failing `set_attention_backend` leaves them loaded. |
| ZImage.GenerateOutcome | src/generators/zimage_generator.py:96-194 | A success leaves components loaded. Every failure other than a storage error leaves the disk untouched. Components that were loaded stay as they were. |
| ZImage.ZImageGenerator.Generate | src/generators/zimage_generator.py:96-194 | The method's result, disk and components are those of the `generate` specification applied to the components loaded before. |
| ZImage.GenerateSucceedsIff | src/generators/zimage_generator.py:122-194 | `generate` succeeds exactly when six conditions hold. Loading succeeds (when needed). The source directory and the `zimage` import are present. The effective seed lies in the range `manual_seed` accepts. The backend returns at least one image. All three filesystem steps succeed. |
| ZImage.GenerateLoadsLazily | src/generators/zimage_generator.py:122-123 | Loaded components are used as they are, whatever the environment says about loading. Without components, `generate` leaves what `load_model` leaves, and a load failure ends `generate` with that error and the disk unchanged. |
| ZImage.GenerateResultFields | src/generators/zimage_generator.py:167-194 | A successful result holds the `_save_image` path, the prompt unchanged, model "zimage", the effective seed and steps, and the metadata of the effective parameters. |
| ZImage.MetadataEntries | src/generators/zimage_generator.py:173-183 | The metadata has exactly the nine keys. It records model "Z-Image-Turbo", the effective steps, guidance scale 0.0 (the effective one) and the device. |
| ZImage.GenerateSidecarFailureKeepsImage | src/generators/zimage_generator.py:221-226 | When only the prompt-file write fails, `generate` raises the sidecar error and the image stays on the disk. |
| ZImage.ComponentTable.constructor | src/generators/zimage_generator.py:82-88 | The component dictionary holds what `load_from_local_dir` returned. |
| ZImage.ComponentTable.Delete | src/generators/zimage_generator.py:267-268 | `del components[key]` removes exactly that key. |
| ZImage.ZImageGenerator.constructor | src/generators/zimage_generator.py:30-40 | A new generator has the base state (config, class name "ZImageGenerator", device chosen once, no pipeline), the Z-Image settings from the config, and no components. |
| ZImage.ZImageGenerator.Cleanup | src/generators/zimage_generator.py:263-271 | Afterwards the components and the pipeline are None, and a loaded component dictionary has been emptied. On a clean generator it changes nothing, so a second call is harmless. |
| ZImage.ZImageGenerator.GenerateImage | src/generators/zimage_generator.py:230-261 | With `force_reinit` on a loaded generator, the dictionary is emptied and the pipeline dropped, and `generate` then runs from the unloaded state. Otherwise no clean-up happens and the pipeline is untouched. The result is `(image_path, end - start, "Z-Image-Turbo")`. |
| ZImage.ZImageGenerator.GetModelInfo | src/generators/zimage_generator.py:280-304 | The base keys `device` and `model_type` keep their base values. The eight Z-Image keys are added, with `model_name` "Z-Image-Turbo" and `inference_steps` 8. |
| ZImage.ModelDetails | src/generators/zimage_generator.py:287-302 | The added dictionary has exactly the eight Z-Image keys and neither base key, so the update keeps the base entries. |
| BaseGenerator.GetDevice | src/generators/base_generator.py:40-55 | The device is one of "cuda", "mps" and "cpu". `cpu_only` forces "cpu". "cuda" is chosen exactly when CUDA is available and not CPU-only. "mps" is chosen exactly when CUDA is not available and MPS is both present and available. |
| BaseGenerator.ImageGenerator.constructor | src/generators/base_generator.py:30-38 | A new generator keeps the config, has no pipeline, and has the device `_get_device` picks. |
| BaseGenerator.ImageGenerator.Cleanup | src/generators/base_generator.py:97-105 | Afterwards the pipeline is None. On a generator without a pipeline nothing changes. |
| BaseGenerator.ImageGenerator.GetModelInfo | src/generators/base_generator.py:111-122 | Exactly the keys `device` and `model_type`, holding the device and the class name. |
| Factory.GetImageGenerator | src/generators/factory.py:9-59 | The mock class is returned exactly when `mock` is set and a class is returned. A `ValueError` arises only without `mock`, with the message naming the lower-cased model type. With `mock`, the only possible error is an `ImportError`. |
| Factory.MockIgnoresModelName | src/generators/factory.py:23-27 | With `mock` set, the model name plays no part, and the result is the mock generator when its import succeeds. |
| Factory.CaseInsensitive | src/generators/factory.py:29 | A name selects what its lower-cased form selects. |
| Factory.MixedCaseNames | src/generators/factory.py:29-53 | "ZImage" selects Z-Image and "FLUX" selects FLUX. |
| Factory.DispatchCases | src/generators/factory.py:29-59 | Z-Image is returned exactly for "zimage" with a working import, and FLUX exactly for "flux" with a working import. `ValueError` is raised exactly for other names. A failing Z-Image import raises `ImportError` with the fixed message. The mock is never returned without `mock`. |
| Factory.GetAvailableModels | src/generators/factory.py:62-81 | The list starts with "flux" and has length 1 or 2. It contains "zimage" exactly when the source directory and its `zimage` package exist. It has no duplicates and no other names. |
| Benchmark.InitialResults | scripts/benchmark_models.py:148 | The dictionary has one key per listed name, each with an empty list. |
| Benchmark.ResultsUpTo | scripts/benchmark_models.py:148-194 | The main loop never adds or drops a key: the keys stay the listed names. |
| Benchmark.AfterEntry | scripts/benchmark_models.py:157-189 | One pass of the main loop keeps the keys. |
| Benchmark.Dedup | scripts/benchmark_models.py:148 | The key order of `results` holds every listed name once, and the names are in the order of their first occurrence in the list. |
| Benchmark.Times | scripts/benchmark_models.py:202 | `times` lists the generation times of the results, in order. |
| Benchmark.Vrams | scripts/benchmark_models.py:203 | `vrams` lists the VRAM peaks of the results, in order. |
| Benchmark.MinOf | scripts/benchmark_models.py:208 | `min(xs)` is one of the values and at most each of them. |
| Benchmark.MaxOf | scripts/benchmark_models.py:209-212 | `max(xs)` is one of the values and at least each of them. |
| Benchmark.RunWarmup | scripts/benchmark_models.py:166-174 | The warmup loop makes exactly the calls of the warmup specification: seeds 42 + i, stopping after the first failure. |
| Benchmark.RunIterations | scripts/benchmark_models.py:177-194 | The measured loop makes `iterations` calls with seeds 1000 + i. It appends exactly the results of the specification to `results[model]` and changes no other key. |
| Benchmark.RunEntry | scripts/benchmark_models.py:150-194 | One pass of the main loop makes no call and changes nothing for an unknown name. For a known name it makes the warmup calls, then the measured calls, and appends the measured results. |
| Benchmark.RunEntries | scripts/benchmark_models.py:148-194 | The main loop's dictionary and calls are those of the specification over the whole list, repeats included. |
| Benchmark.AddSummary | scripts/benchmark_models.py:198-214 | One pass of the summary loop extends the summaries and their key order by one key of `results`. |
| Benchmark.BuildSummaries | scripts/benchmark_models.py:196-216 | The summary loop builds the summaries and their key order of the specification. |
| Benchmark.RunBenchmark | scripts/benchmark_models.py:131-216 | The summaries, their order, the results dictionary and the calls made are those of the specification, with the default prompt when none is given. |
| BenchmarkFacts.SumBounds | scripts/benchmark_models.py:207 | The sum of values in [lo, hi] lies between n·lo and n·hi. |
| BenchmarkFacts.MeanBounds | scripts/benchmark_models.py:207 | The mean of values in [lo, hi] lies in [lo, hi]. |
| BenchmarkFacts.MeanBetweenMinAndMax | scripts/benchmark_models.py:207-209 | `min(xs) <= mean(xs) <= max(xs)`. |
| BenchmarkFacts.MeanOfOne | scripts/benchmark_models.py:207 | The mean of one value is that value. |
| BenchmarkFacts.SummarizeFacts | scripts/benchmark_models.py:202-214 | See the list below the table. |
| BenchmarkFacts.WarmupTraceFacts | scripts/benchmark_models.py:166-174 | The warmup from index i makes at most `warmup - i` calls, at least one when any are due. Call j has index i + j and seed 42 + i + j. Every call but the last succeeds, and an early stop ends on a failure. |
| BenchmarkFacts.WarmupStopsAtFirstFailure | scripts/benchmark_models.py:166-174 | The warmup makes at most `warmup` calls. Call j is warmup j with seed 42 + j. All calls before the last succeed, and fewer calls than `warmup` means the last one failed. |
| BenchmarkFacts.MeasureTraceFacts | scripts/benchmark_models.py:178-181 | Exactly n measured calls are made, call j with index j and seed 1000 + j. |
| BenchmarkFacts.MeasuredCallsDoNotDependOnWarmup | scripts/benchmark_models.py:165-181 | For a known name, all measured calls follow the warmup calls, whatever the warmup did. A warmup failure does not prevent the iterations. |
| BenchmarkFacts.EntryCalls | scripts/benchmark_models.py:157-181 | An unknown name gets no calls. Every call of an entry carries its position, a known name, the prompt and its phase's seed base plus its index. |
| BenchmarkFacts.TraceCalls | scripts/benchmark_models.py:150-181 | Every call of the first n entries belongs to one of them and follows the seed rule. |
| BenchmarkFacts.MeasureResultsSound | scripts/benchmark_models.py:178-194 | See the list below the table. |
| BenchmarkFacts.MeasureResultsComplete | scripts/benchmark_models.py:178-194 | Every successful measured call is recorded, under its 1-based iteration. |
| BenchmarkFacts.AllRecordedIffNoneFails | scripts/benchmark_models.py:178-194 | All n iterations are recorded exactly when none of them fails. |
| BenchmarkFacts.EntryResultsLength | scripts/benchmark_models.py:178-194 | One entry records at most `iterations` results. |
| BenchmarkFacts.ResultsAccumulate | scripts/benchmark_models.py:148-189 | A repeated name shares one list: its entry holds the results of all of its occurrences, in list order. |
| BenchmarkFacts.ResultsForShape | scripts/benchmark_models.py:157-189 | An unknown name's list stays empty. Every recorded result carries the name, an iteration in 1..iterations and seed 1000 + iteration − 1. |
| BenchmarkFacts.ResultsForBound | scripts/benchmark_models.py:178-189 | A name records at most (its number of occurrences) × iterations results. |
| BenchmarkFacts.SummariesFacts | scripts/benchmark_models.py:197-214 | After the first k keys, a key has a summary exactly when it is among them and has results, and that summary is of all its results. |
| BenchmarkFacts.SummaryOrderFacts | scripts/benchmark_models.py:197-205 | The summary key order lists exactly the summarised keys, each once when the keys are distinct. |
| BenchmarkFacts.RunCalls | scripts/benchmark_models.py:150-181 | Every call `run_benchmark` makes is for a listed known name, with the effective prompt and the seed rule. |
| BenchmarkFacts.RunResults | scripts/benchmark_models.py:148-194 | The results dictionary has exactly the listed names. Each name holds the results of all its occurrences, nothing for an unknown name, and at most occurrences × iterations. |
| BenchmarkFacts.RunSummaries | scripts/benchmark_models.py:196-216 | See the list below the table. |

The four longer contracts:

- **Storage.SaveImageOutcomes.** The save succeeds exactly when all three filesystem steps do.
  A `mkdir` failure reports that error, leaves the files as they were and does not create the
  week directory. After a successful `mkdir` the week directory exists. An image-save failure
  leaves the files as they were. A prompt-file failure reports that error and keeps the new
  image. If the prompt file could not be opened, nothing else changes. If it was opened, it holds
  a prefix of the prompt. A success returns the image path and adds exactly the image and a
  prompt file holding the prompt. The prompt file path is never the image path.

- **BenchmarkFacts.SummarizeFacts.** The summary keeps the model name and counts the results.
  `min <= avg <= max`, and the average VRAM is at most the peak. Every time lies in
  [min, max], and every VRAM value is at most the peak. The min, the max and the peak are each
  attained by some result. With one result, the standard deviation is 0.0 and min = avg = max
  = that time. With more results, it is `stdev(times)`.
- **BenchmarkFacts.MeasureResultsSound.** At most n results are recorded. Each result carries
  the model, an iteration in 1..n, seed 1000 + iteration − 1, and exactly the measurement of
  that call. Iterations are strictly increasing.
- **BenchmarkFacts.RunSummaries.** A name has a summary exactly when it is listed and has
  results, and such a name is "flux" or "zimage". The summary is of all its results. Its
  `iterations` is at least 1 and at most occurrences × iterations. The summary key order lists
  each summarised name once.

## Left out
- GPU and torch calls: `empty_cache`, `ipc_collect`, `gc.collect`, the random state of `torch.Generator`, the peak-memory statistics and the diffusion call itself. Their effects are on the hardware and are not observable here. The backend is the input function `render`, and hardware availability is the input `Hardware`. The one `torch.Generator` failure that depends on modelled values, `manual_seed` rejecting a seed outside [-2^63, 2^64 − 1], is modelled as `SeedOutOfRange`. Any other failure of `torch.Generator(device=...)` is not modelled.
- `asyncio` and `run_in_executor`. The model runs `generate` as one sequential step.
- `sys.path` insertion, dynamic imports, `Path.exists`, `mkdir`, PIL's `image.save` and the prompt-file write. Imports and existence checks are booleans of `Environment` and `Imports`. How each filesystem step ends is given by `FsOracle`: whether it succeeds, how many directory levels a failing `mkdir` made, and whether a failing prompt-file write had opened the file and how many characters it kept.
- Storage.SaveImageOutcomes: a failing `image.save` is modelled as leaving no image file. PIL opens the output file before it encodes, so a failure can leave a partial or truncated `.png`. PIL's cleanup of such a file is not part of this model.
- Storage.SaveImage: a failing prompt-file write keeps a prefix of the prompt counted in characters. The real file is UTF-8 bytes, so a partial write can end inside a character.
- Prompts holding a lone surrogate such as "\ud800". `prompt.encode()` raises `UnicodeEncodeError` on them at src/generators/zimage_generator.py:216, after the directories are made and the image is rendered. A Dafny `string` cannot hold a surrogate, and `md5` is a total input function, so this error path is not modelled.
- Default arguments: Dafny methods have none, so every caller passes each argument explicitly. The defaults are constants: `Benchmark.DefaultIterations` (3) and `Benchmark.DefaultWarmup` (1) for `run_benchmark`, `ZImage.DefaultForceReinit` (false) for `generate_image`, and `Factory.DefaultMock` (false) for `get_image_generator`.
- MD5, `datetime.now()`, `torch.randint` and `time.time()`/`perf_counter` are inputs: `md5`, `now`, `randomSeed`, and the clock readings `clockStart`/`clockEnd`.
- Logging (`logger.*`), the negative-prompt warning and the console output of the benchmark script. They have no effect on the values modelled.
- `ImageGenerator.__del__`. Finalisation timing is up to the Python runtime.
- `_get_zimage_src_path`'s path computation. Only whether the directory exists is modelled.
- `benchmark_flux` and `benchmark_zimage`. Each run is the input `bench`, which returns `None` where the call raises. `config.model.image_model = model` only feeds those functions, so it is left out too.
- `print_results`, `main` and argument parsing. These are presentation only.
- BenchmarkFacts.SummarizeFacts: does not compute `statistics.stdev`, because the standard deviation is the input function `stdev`. Only the choice between it and 0.0 is modelled.
- Benchmark.Summarize: computes the means exactly over the reals, without floating-point rounding. Times and VRAM values are `real`.
- Storage.Timestamp: writes `%Y` as four zero-padded digits. For years below 1000 the platform's `strftime` may not pad.
- Text.Lower: lower-cases ASCII letters only. Python's `str.lower` also maps non-ASCII letters.
- `str(path)` rendering of `model_path` in the metadata and model info. The path is kept as a path value.
- The generator classes for FLUX and the mock are not part of this model. The factory returns which class it would construct.
