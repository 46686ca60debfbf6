/**
 * The archive layout `ZImageGenerator._save_image` writes:
 * `<output_dir>/<year>/week_<NN>/image_<YYYYmmdd>_<HHMMSS>_<hash8>.png` and a
 * sibling `.txt` holding the prompt. The clock, MD5 and the filesystem are inputs:
 * `now` is the `datetime.now()` reading, `md5` maps a prompt to its hex digest,
 * and an oracle says which of the directory creation, image save and sidecar
 * write succeed.
 */
module Storage {
  import opened Wrappers
  import opened Text
  import opened Calendar

  /** A `pathlib.Path`, as its sequence of components. */
  datatype Path = Path(parts: seq<string>)

  /** `path / name`. */
  function Join(p: Path, name: string): (r: Path)
    ensures r.parts == p.parts + [name]
  {
    Path(p.parts + [name])
  }

  /** Image content; only ever copied into the archive, never inspected. */
  datatype Image = Image(pixels: seq<int>)

  datatype File = ImageFile(image: Image) | TextFile(text: string)

  /** What the model tracks of the storage medium: the directories and the files. */
  datatype Disk = Disk(dirs: set<Path>, files: map<Path, File>)

  /** How the three filesystem steps of `_save_image` end. `mkdir(parents=True)` makes the
      missing ancestors top-down before the target, so when it fails it has made the first
      `mkdirMade` components (fewer than all). `open(prompt_file, "w")` creates or truncates
      the file before `write` runs, so a write that fails after the open (`sidecarOpened`)
      leaves the file holding the first `sidecarKept` characters of the prompt. */
  datatype FsOracle = FsOracle(mkdirOk: bool, mkdirMade: nat, imageSaveOk: bool,
                               sidecarOk: bool, sidecarOpened: bool, sidecarKept: nat)

  datatype StorageError = MkdirFailed | ImageSaveFailed | SidecarWriteFailed

  datatype Saved = Saved(disk: Disk, outcome: Result<Path, StorageError>)

  // ---------------------------------------------------------------------------
  // Names

  /** `now.strftime("%Y%m%d_%H%M%S")`. */
  function Timestamp(now: DateTime): (s: string)
    requires Valid(now)
    ensures |s| == 15
  {
    ZeroPadWidth(now.year, 4);
    ZeroPadWidth(now.month, 2);
    ZeroPadWidth(now.day, 2);
    ZeroPadWidth(now.hour, 2);
    ZeroPadWidth(now.minute, 2);
    ZeroPadWidth(now.second, 2);
    ZeroPad(now.year, 4) + ZeroPad(now.month, 2) + ZeroPad(now.day, 2) + "_"
      + ZeroPad(now.hour, 2) + ZeroPad(now.minute, 2) + ZeroPad(now.second, 2)
  }

  /** `hashlib.md5(prompt.encode()).hexdigest()[:8]`. */
  function PromptHash(prompt: string, md5: string -> string): (h: string)
    ensures h <= md5(prompt)
    ensures |md5(prompt)| >= 8 ==> |h| == 8
    ensures IsHexText(md5(prompt)) ==> IsHexText(h)
  {
    Prefix(md5(prompt), 8)
  }

  /** `f"image_{timestamp}_{prompt_hash}.png"`. */
  function ImageFileName(now: DateTime, hash8: string): (name: string)
    requires Valid(now)
    ensures |name| == 26 + |hash8|
    ensures name[..6] == "image_" && name[|name| - 4..] == ".png"
  {
    "image_" + Timestamp(now) + "_" + hash8 + ".png"
  }

  /** `f"week_{week_num:02d}"` with `week_num = now.isocalendar()[1]`. */
  function WeekDirName(now: DateTime): (name: string)
    requires Valid(now)
    ensures |name| == 7 && name[..5] == "week_" && AllDigits(name[5..])
  {
    IsoWeekInRange(now.year, now.month, now.day);
    ZeroPadWidth(IsoCalendar(now.year, now.month, now.day).week, 2);
    "week_" + ZeroPad(IsoCalendar(now.year, now.month, now.day).week, 2)
  }

  /** `output_dir / str(now.year) / week_dir`: the calendar year, not the ISO week-year. */
  function WeekDir(outputDir: Path, now: DateTime): (dir: Path)
    requires Valid(now)
    ensures |dir.parts| == |outputDir.parts| + 2 && outputDir.parts < dir.parts
    ensures AllDigits(dir.parts[|outputDir.parts|]) && ParseDecimal(dir.parts[|outputDir.parts|]) == now.year
    ensures dir.parts[|outputDir.parts| + 1] == WeekDirName(now)
  {
    ParseDecimalOfDecimal(now.year);
    Join(Join(outputDir, Decimal(now.year)), WeekDirName(now))
  }

  /** The path of the archived image: a file directly inside the week directory. */
  function ImagePath(outputDir: Path, now: DateTime, prompt: string, md5: string -> string): (p: Path)
    requires Valid(now)
    ensures |p.parts| == |outputDir.parts| + 3 && WeekDir(outputDir, now).parts < p.parts
    ensures p.parts[|p.parts| - 1] == ImageFileName(now, PromptHash(prompt, md5))
  {
    Join(WeekDir(outputDir, now), ImageFileName(now, PromptHash(prompt, md5)))
  }

  // ---------------------------------------------------------------------------
  // `PurePath.with_suffix`

  /** `str.rfind(c)`: the last index of `c` in `s`, or -1. */
  function RFind(s: string, c: char): (i: int)
    ensures -1 <= i < |s|
    ensures 0 <= i ==> s[i] == c
    ensures forall j :: i < j < |s| ==> s[j] != c
  {
    if s == [] then -1
    else if s[|s| - 1] == c then |s| - 1
    else RFind(s[..|s| - 1], c)
  }

  /** `PurePath.suffix`: from the last dot of the name, unless that dot is first or last;
      -1 when the name has no suffix. */
  function SuffixStart(name: string): (i: int)
    ensures i != -1 ==> 0 < i < |name| - 1 && name[i] == '.' && forall j :: i < j < |name| ==> name[j] != '.'
    ensures i == -1 <==>
      || NoDot(name)
      || (name[0] == '.' && NoDot(name[1..]))
      || name[|name| - 1] == '.'
  {
    var i := RFind(name, '.');
    if 0 < i < |name| - 1 then i else -1
  }

  /** `path.with_suffix(suffix)`; `None` where Python raises because the name is empty. */
  function WithSuffix(p: Path, suffix: string): (r: Option<Path>)
    ensures r.Some? <==> |p.parts| > 0 && p.parts[|p.parts| - 1] != ""
  {
    if |p.parts| == 0 || p.parts[|p.parts| - 1] == "" then None
    else
      var name := p.parts[|p.parts| - 1];
      var i := SuffixStart(name);
      var stem := if i == -1 then name else name[..i];
      Some(Path(p.parts[..|p.parts| - 1] + [stem + suffix]))
  }

  /** `output_path.with_suffix(".txt")` for an image path: a sibling of the image. */
  function SidecarPath(image: Path): (r: Option<Path>)
    ensures r.Some? <==> |image.parts| > 0 && image.parts[|image.parts| - 1] != ""
    ensures r.Some? ==> |r.value.parts| == |image.parts|
                        && r.value.parts[..|image.parts| - 1] == image.parts[..|image.parts| - 1]
  {
    WithSuffix(image, ".txt")
  }

  // ---------------------------------------------------------------------------
  // Effects on the disk

  /** `mkdir(parents=True, exist_ok=True)`: the directory and all its ancestors exist afterwards,
      and no other directory is made. */
  function MakeDirs(disk: Disk, dir: Path): (d: Disk)
    ensures d.files == disk.files
    ensures forall p :: p in d.dirs <==> p in disk.dirs || (0 < |p.parts| && p.parts <= dir.parts)
  {
    var made := set k | 1 <= k <= |dir.parts| :: Path(dir.parts[..k]);
    assert forall p: Path :: 0 < |p.parts| && p.parts <= dir.parts ==> p == Path(dir.parts[..|p.parts|]);
    Disk(disk.dirs + made, disk.files)
  }

  /** What a failing `mkdir(parents=True)` leaves: the first `made` components, never the target. */
  function PartialDirs(disk: Disk, dir: Path, made: nat): Disk
    requires 0 < |dir.parts|
  {
    MakeDirs(disk, Path(dir.parts[..if made < |dir.parts| then made else |dir.parts| - 1]))
  }

  /** `_save_image(image, prompt, seed)` at time `now`. */
  function SaveImage(outputDir: Path, now: DateTime, image: Image, prompt: string, seed: int,
                     md5: string -> string, fs: FsOracle, disk: Disk): (r: Saved)
    requires Valid(now)
    ensures r.outcome.Ok? <==> fs.mkdirOk && fs.imageSaveOk && fs.sidecarOk
    ensures r.outcome.Ok? ==> r.outcome.value == ImagePath(outputDir, now, prompt, md5)
  {
    var dir := WeekDir(outputDir, now);
    if !fs.mkdirOk then Saved(PartialDirs(disk, dir, fs.mkdirMade), Err(MkdirFailed))
    else
      var disk1 := MakeDirs(disk, dir);
      var imagePath := ImagePath(outputDir, now, prompt, md5);
      if !fs.imageSaveOk then Saved(disk1, Err(ImageSaveFailed))
      else
        var disk2 := Disk(disk1.dirs, disk1.files[imagePath := ImageFile(image)]);
        var promptFile := SidecarPath(imagePath).value;
        if !fs.sidecarOk then
          var disk3 := if fs.sidecarOpened then Disk(disk2.dirs, disk2.files[promptFile := TextFile(Prefix(prompt, fs.sidecarKept))])
                       else disk2;
          Saved(disk3, Err(SidecarWriteFailed))
        else Saved(Disk(disk2.dirs, disk2.files[promptFile := TextFile(prompt)]), Ok(imagePath))
  }

  // ---------------------------------------------------------------------------
  // Parsing a file name back

  /** A timestamp at the one-second resolution the file name keeps. */
  datatype Stamp = Stamp(year: int, month: int, day: int, hour: int, minute: int, second: int)

  function StampOf(t: DateTime): Stamp {
    Stamp(t.year, t.month, t.day, t.hour, t.minute, t.second)
  }

  /** Reads the timestamp and hash back out of an `image_<YYYYmmdd>_<HHMMSS>_<hash8>.png` name. */
  function ParseImageFileName(name: string): Option<(Stamp, string)> {
    if |name| == 34 && name[..6] == "image_" && name[14] == '_' && name[21] == '_'
       && name[30..] == ".png"
    then
      Some((Stamp(ParseDecimal(name[6..10]), ParseDecimal(name[10..12]), ParseDecimal(name[12..14]),
                  ParseDecimal(name[15..17]), ParseDecimal(name[17..19]), ParseDecimal(name[19..21])),
            name[22..30]))
    else None
  }

  /** An MD5 hex digest: 32 lower-case hex digits. */
  predicate IsMd5Digest(h: string) {
    |h| == 32 && IsHexText(h)
  }

  // ---------------------------------------------------------------------------
  // Lemmas

  /** Where the parts of an `image_<timestamp>_<hash8>.png` name sit. */
  lemma FileNameSlices(ts: string, h: string)
    requires |ts| == 15 && |h| == 8
    ensures var name := "image_" + ts + "_" + h + ".png";
      && |name| == 34 && name[..6] == "image_" && name[21] == '_' && name[30..] == ".png"
      && name[22..30] == h
      && name[6..10] == ts[..4] && name[10..12] == ts[4..6] && name[12..14] == ts[6..8] && name[14] == ts[8]
      && name[15..17] == ts[9..11] && name[17..19] == ts[11..13] && name[19..21] == ts[13..15]
  {
  }

  /** Where the six fields of a `%Y%m%d_%H%M%S` timestamp sit. */
  lemma TimestampSlices(y: string, mo: string, d: string, h: string, mi: string, s: string)
    requires |y| == 4 && |mo| == 2 && |d| == 2 && |h| == 2 && |mi| == 2 && |s| == 2
    ensures var ts := y + mo + d + "_" + h + mi + s;
      && ts[..4] == y && ts[4..6] == mo && ts[6..8] == d && ts[8] == '_'
      && ts[9..11] == h && ts[11..13] == mi && ts[13..15] == s
  {
  }

  /** Each field of the timestamp reads back as the number it was written from. */
  lemma TimestampFields(now: DateTime)
    requires Valid(now)
    ensures var ts := Timestamp(now);
      && ts[8] == '_'
      && ParseDecimal(ts[..4]) == now.year && ParseDecimal(ts[4..6]) == now.month
      && ParseDecimal(ts[6..8]) == now.day && ParseDecimal(ts[9..11]) == now.hour
      && ParseDecimal(ts[11..13]) == now.minute && ParseDecimal(ts[13..15]) == now.second
  {
    var y, mo, d := ZeroPad(now.year, 4), ZeroPad(now.month, 2), ZeroPad(now.day, 2);
    var h, mi, s := ZeroPad(now.hour, 2), ZeroPad(now.minute, 2), ZeroPad(now.second, 2);
    ZeroPadWidth(now.year, 4);
    ZeroPadWidth(now.month, 2);
    ZeroPadWidth(now.day, 2);
    ZeroPadWidth(now.hour, 2);
    ZeroPadWidth(now.minute, 2);
    ZeroPadWidth(now.second, 2);
    TimestampSlices(y, mo, d, h, mi, s);
    ParseZeroPad(now.year, 4);
    ParseZeroPad(now.month, 2);
    ParseZeroPad(now.day, 2);
    ParseZeroPad(now.hour, 2);
    ParseZeroPad(now.minute, 2);
    ParseZeroPad(now.second, 2);
  }

  /** The file name round-trips: it holds exactly the second-resolution timestamp and the 8-character hash. */
  lemma ImageFileNameRoundTrip(now: DateTime, hash8: string)
    requires Valid(now) && |hash8| == 8
    ensures ParseImageFileName(ImageFileName(now, hash8)) == Some((StampOf(now), hash8))
  {
    FileNameSlices(Timestamp(now), hash8);
    TimestampFields(now);
  }

  /** The image path is the archive layout: output dir, calendar year, two-digit ISO week in 1..53, file name. */
  lemma ImagePathLayout(outputDir: Path, now: DateTime, prompt: string, md5: string -> string)
    requires Valid(now)
    ensures var p := ImagePath(outputDir, now, prompt, md5);
      var week := IsoCalendar(now.year, now.month, now.day).week;
      && 1 <= week <= 53
      && p.parts[..|outputDir.parts|] == outputDir.parts
      && |p.parts| == |outputDir.parts| + 3
      && AllDigits(p.parts[|outputDir.parts|]) && ParseDecimal(p.parts[|outputDir.parts|]) == now.year
      && (var weekName := p.parts[|outputDir.parts| + 1];
          && |weekName| == 7 && weekName[..5] == "week_"
          && AllDigits(weekName[5..]) && ParseDecimal(weekName[5..]) == week)
      && (IsMd5Digest(md5(prompt)) ==>
            ParseImageFileName(p.parts[|outputDir.parts| + 2]) == Some((StampOf(now), md5(prompt)[..8])))
  {
    ImagePathParts(outputDir, now, prompt, md5);
    WeekDirNameParses(now);
    ParseDecimalOfDecimal(now.year);
    if IsMd5Digest(md5(prompt)) {
      ImageFileNameRoundTrip(now, md5(prompt)[..8]);
    }
  }

  lemma ImagePathParts(outputDir: Path, now: DateTime, prompt: string, md5: string -> string)
    requires Valid(now)
    ensures ImagePath(outputDir, now, prompt, md5).parts
         == outputDir.parts + [Decimal(now.year), WeekDirName(now), ImageFileName(now, PromptHash(prompt, md5))]
  {
  }

  /** The week directory is "week_" and the ISO week, 1 to 53, in two digits. */
  lemma WeekDirNameParses(now: DateTime)
    requires Valid(now)
    ensures var week := IsoCalendar(now.year, now.month, now.day).week;
      var weekName := WeekDirName(now);
      && 1 <= week <= 53
      && |weekName| == 7 && weekName[..5] == "week_"
      && AllDigits(weekName[5..]) && ParseDecimal(weekName[5..]) == week
  {
    var week := IsoCalendar(now.year, now.month, now.day).week;
    IsoWeekInRange(now.year, now.month, now.day);
    ZeroPadWidth(week, 2);
    ParseZeroPad(week, 2);
    assert WeekDirName(now)[5..] == ZeroPad(week, 2);
  }

  lemma Decimal2024()
    ensures Decimal(2024) == "2024"
  {
    assert Decimal(2) == "2";
    assert Decimal(20) == "20";
    assert Decimal(202) == "202";
  }

  lemma ZeroPadOne()
    ensures ZeroPad(1, 2) == "01"
  {
    assert Decimal(1) == "1";
    assert Zeros(1) == "0";
  }

  lemma WeekDirNameOfDec30Of2024(now: DateTime)
    requires Valid(now) && now.year == 2024 && now.month == 12 && now.day == 30
    ensures WeekDirName(now) == "week_01"
  {
    var iso := IsoCalendar(now.year, now.month, now.day);
    Dec30Of2024IsWeek1Of2025();
    assert iso == IsoCalendar(2024, 12, 30);
    ZeroPadOne();
  }

  /** The year directory is the calendar year even where the ISO week belongs to the next ISO year:
      2024-12-30 is in ISO week 1 of 2025 and is archived under `2024/week_01`. */
  lemma YearDirIsCalendarYear(outputDir: Path, now: DateTime)
    requires Valid(now) && now.year == 2024 && now.month == 12 && now.day == 30
    ensures IsoCalendar(now.year, now.month, now.day).isoYear == 2025
    ensures WeekDir(outputDir, now) == Path(outputDir.parts + ["2024", "week_01"])
  {
    Dec30Of2024IsWeek1Of2025();
    Decimal2024();
    WeekDirNameOfDec30Of2024(now);
  }

  /** The image path depends on the prompt and the second-resolution time only: the image, the seed
      and the microseconds play no part, and the same prompt in the same second gives the same path. */
  lemma PathIgnoresImageAndSeed(outputDir: Path, now1: DateTime, now2: DateTime, prompt: string,
                                md5: string -> string, image1: Image, image2: Image,
                                seed1: int, seed2: int, fs: FsOracle, disk: Disk)
    requires Valid(now1) && Valid(now2) && StampOf(now1) == StampOf(now2)
    ensures var a := SaveImage(outputDir, now1, image1, prompt, seed1, md5, fs, disk);
      var b := SaveImage(outputDir, now2, image2, prompt, seed2, md5, fs, disk);
      a.outcome == b.outcome
  {
    assert ImagePath(outputDir, now1, prompt, md5) == ImagePath(outputDir, now2, prompt, md5) by {
      assert Timestamp(now1) == Timestamp(now2);
      assert WeekDirName(now1) == WeekDirName(now2);
    }
  }

  /** Two file names are equal only for the same second and the same hash prefix. */
  lemma ImageFileNameInjective(now1: DateTime, now2: DateTime, h1: string, h2: string)
    requires Valid(now1) && Valid(now2) && |h1| == 8 && |h2| == 8
    requires ImageFileName(now1, h1) == ImageFileName(now2, h2)
    ensures StampOf(now1) == StampOf(now2) && h1 == h2
  {
    ImageFileNameRoundTrip(now1, h1);
    ImageFileNameRoundTrip(now2, h2);
  }

  predicate NoDot(s: string) {
    forall i :: 0 <= i < |s| ==> s[i] != '.'
  }

  lemma {:induction false} RFindLastDot(s: string, t: string)
    requires NoDot(t)
    ensures RFind(s + "." + t, '.') == |s|
  {
    if t != [] {
      var u := s + "." + t;
      assert u[..|u| - 1] == s + "." + t[..|t| - 1];
      RFindLastDot(s, t[..|t| - 1]);
    }
  }

  lemma NoDotConcat(a: string, b: string)
    requires NoDot(a) && NoDot(b)
    ensures NoDot(a + b)
  {
    assert forall i :: 0 <= i < |a + b| ==> (a + b)[i] == if i < |a| then a[i] else b[i - |a|];
  }

  lemma DigitsHaveNoDot(s: string)
    requires AllDigits(s) || IsHexText(s)
    ensures NoDot(s)
  {
  }

  lemma TimestampHasNoDot(now: DateTime)
    requires Valid(now)
    ensures NoDot(Timestamp(now))
  {
    DigitsHaveNoDot(ZeroPad(now.year, 4));
    DigitsHaveNoDot(ZeroPad(now.month, 2));
    DigitsHaveNoDot(ZeroPad(now.day, 2));
    DigitsHaveNoDot(ZeroPad(now.hour, 2));
    DigitsHaveNoDot(ZeroPad(now.minute, 2));
    DigitsHaveNoDot(ZeroPad(now.second, 2));
    NoDotConcat(ZeroPad(now.year, 4), ZeroPad(now.month, 2));
    NoDotConcat(ZeroPad(now.year, 4) + ZeroPad(now.month, 2), ZeroPad(now.day, 2));
    NoDotConcat(ZeroPad(now.year, 4) + ZeroPad(now.month, 2) + ZeroPad(now.day, 2), "_");
    NoDotConcat(ZeroPad(now.year, 4) + ZeroPad(now.month, 2) + ZeroPad(now.day, 2) + "_",
                ZeroPad(now.hour, 2));
    NoDotConcat(ZeroPad(now.year, 4) + ZeroPad(now.month, 2) + ZeroPad(now.day, 2) + "_"
                + ZeroPad(now.hour, 2), ZeroPad(now.minute, 2));
    NoDotConcat(ZeroPad(now.year, 4) + ZeroPad(now.month, 2) + ZeroPad(now.day, 2) + "_"
                + ZeroPad(now.hour, 2) + ZeroPad(now.minute, 2), ZeroPad(now.second, 2));
  }

  /** Replacing the suffix of `<stem>.png`, for a stem without dots, gives `<stem>.txt` in the same directory. */
  lemma WithSuffixOfPng(dir: Path, stem: string)
    requires |stem| > 0 && NoDot(stem)
    ensures WithSuffix(Join(dir, stem + ".png"), ".txt") == Some(Join(dir, stem + ".txt"))
  {
    var name := stem + ".png";
    assert name == stem + "." + "png";
    assert NoDot("png");
    RFindLastDot(stem, "png");
    assert name[..|stem|] == stem;
    var p := Join(dir, name);
    assert p.parts[..|p.parts| - 1] == dir.parts;
  }

  /** The sidecar sits next to the image with the `.png` suffix replaced by `.txt`. */
  lemma SidecarBesideImage(outputDir: Path, now: DateTime, prompt: string, md5: string -> string)
    requires Valid(now) && IsHexText(md5(prompt))
    ensures var stem := "image_" + Timestamp(now) + "_" + PromptHash(prompt, md5);
      && ImagePath(outputDir, now, prompt, md5) == Join(WeekDir(outputDir, now), stem + ".png")
      && SidecarPath(ImagePath(outputDir, now, prompt, md5)) == Some(Join(WeekDir(outputDir, now), stem + ".txt"))
  {
    var h := PromptHash(prompt, md5);
    var stem := "image_" + Timestamp(now) + "_" + h;
    assert NoDot("image_") && NoDot("_");
    assert IsHexText(h) by {
      assert h <= md5(prompt);
    }
    TimestampHasNoDot(now);
    DigitsHaveNoDot(h);
    NoDotConcat("image_", Timestamp(now));
    NoDotConcat("image_" + Timestamp(now), "_");
    NoDotConcat("image_" + Timestamp(now) + "_", h);
    WithSuffixOfPng(WeekDir(outputDir, now), stem);
  }

  /** What `_save_image` leaves on the disk in each case. A failing `mkdir` leaves the files and, of the
      directories, only the ancestors it made before failing. A failing image save leaves the files as
      they were. A failing prompt-file write leaves the image, and, when the file was opened, a prompt
      file holding a prefix of the prompt. A success adds exactly the image and the prompt file. */
  lemma SaveImageOutcomes(outputDir: Path, now: DateTime, image: Image, prompt: string, seed: int,
                          md5: string -> string, fs: FsOracle, disk: Disk)
    requires Valid(now)
    ensures var r := SaveImage(outputDir, now, image, prompt, seed, md5, fs, disk);
      var img := ImagePath(outputDir, now, prompt, md5);
      var txt := SidecarPath(img);
      && txt.Some? && txt.value != img
      && (r.outcome.Ok? <==> fs.mkdirOk && fs.imageSaveOk && fs.sidecarOk)
      && (!fs.mkdirOk ==> r.outcome == Err(MkdirFailed) && r.disk.files == disk.files
                          && WeekDir(outputDir, now) !in r.disk.dirs - disk.dirs)
      && (fs.mkdirOk ==> WeekDir(outputDir, now) in r.disk.dirs)
      && (fs.mkdirOk && !fs.imageSaveOk ==> r.disk.files == disk.files && r.outcome == Err(ImageSaveFailed))
      && (fs.mkdirOk && fs.imageSaveOk ==>
            img in r.disk.files && r.disk.files[img] == ImageFile(image))
      && (fs.mkdirOk && fs.imageSaveOk && !fs.sidecarOk ==>
            && r.outcome == Err(SidecarWriteFailed)
            && (!fs.sidecarOpened ==> r.disk.files == disk.files[img := ImageFile(image)])
            && (fs.sidecarOpened ==>
                  && r.disk.files == disk.files[img := ImageFile(image)][txt.value := TextFile(Prefix(prompt, fs.sidecarKept))]
                  && Prefix(prompt, fs.sidecarKept) <= prompt))
      && (r.outcome.Ok? ==>
            && r.outcome.value == img
            && r.disk.files == disk.files[img := ImageFile(image)][txt.value := TextFile(prompt)])
  {
    var img := ImagePath(outputDir, now, prompt, md5);
    var w := WeekDir(outputDir, now);
    assert img.parts[..|img.parts| - 1] == w.parts;
    SidecarDiffers(img);
  }

  /** The only directories `_save_image` adds lie on the way to the week directory: all of them when
      `mkdir` succeeds, and otherwise the ancestors it made before failing, never the week directory. */
  lemma SaveImageDirs(outputDir: Path, now: DateTime, image: Image, prompt: string, seed: int,
                      md5: string -> string, fs: FsOracle, disk: Disk)
    requires Valid(now)
    ensures var r := SaveImage(outputDir, now, image, prompt, seed, md5, fs, disk);
      var w := WeekDir(outputDir, now);
      forall p :: p in r.disk.dirs <==>
        || p in disk.dirs
        || (&& 0 < |p.parts| && p.parts <= w.parts
            && (fs.mkdirOk || (|p.parts| <= fs.mkdirMade && p != w)))
  {
    var w := WeekDir(outputDir, now);
    var r := SaveImage(outputDir, now, image, prompt, seed, md5, fs, disk);
    if !fs.mkdirOk {
      var n := if fs.mkdirMade < |w.parts| then fs.mkdirMade else |w.parts| - 1;
      assert r.disk == MakeDirs(disk, Path(w.parts[..n]));
      assert forall p: Path :: p.parts <= w.parts[..n] <==> p.parts <= w.parts && |p.parts| <= n;
    } else {
      assert r.disk.dirs == MakeDirs(disk, w).dirs;
    }
  }

  /** `_save_image` writes no file but the image and its prompt file. */
  lemma SaveImageFiles(outputDir: Path, now: DateTime, image: Image, prompt: string, seed: int,
                       md5: string -> string, fs: FsOracle, disk: Disk)
    requires Valid(now)
    ensures var r := SaveImage(outputDir, now, image, prompt, seed, md5, fs, disk);
      var img := ImagePath(outputDir, now, prompt, md5);
      forall f :: f != img && Some(f) != SidecarPath(img) ==>
        && (f in r.disk.files <==> f in disk.files)
        && (f in disk.files ==> r.disk.files[f] == disk.files[f])
  {
  }

  /** A failing prompt-file write reports the error and keeps the image just written. */
  lemma SidecarFailureKeepsImage(outputDir: Path, now: DateTime, image: Image, prompt: string, seed: int,
                                 md5: string -> string, fs: FsOracle, disk: Disk)
    requires Valid(now) && fs.mkdirOk && fs.imageSaveOk && !fs.sidecarOk
    ensures var r := SaveImage(outputDir, now, image, prompt, seed, md5, fs, disk);
      var img := ImagePath(outputDir, now, prompt, md5);
      r.outcome == Err(SidecarWriteFailed) && img in r.disk.files && r.disk.files[img] == ImageFile(image)
  {
    var img := ImagePath(outputDir, now, prompt, md5);
    assert img.parts[..|img.parts| - 1] == WeekDir(outputDir, now).parts;
    SidecarDiffers(img);
  }

  /** The sidecar path is never the image path itself, so writing it cannot overwrite the image. */
  lemma SidecarDiffers(img: Path)
    requires |img.parts| > 0
    requires var name := img.parts[|img.parts| - 1]; |name| > 4 && name[|name| - 4..] == ".png"
    ensures SidecarPath(img).Some? ==> SidecarPath(img).value != img
  {
    var name := img.parts[|img.parts| - 1];
    var i := SuffixStart(name);
    assert name == name[..|name| - 4] + "." + "png";
    assert NoDot("png");
    RFindLastDot(name[..|name| - 4], "png");
    var stem := name[..i];
    var newName := stem + ".txt";
    assert newName[|newName| - 1] == 't' && name[|name| - 1] == 'g';
    assert SidecarPath(img).value.parts[|img.parts| - 1] == newName;
  }
}
