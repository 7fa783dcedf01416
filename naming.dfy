/**
 * The pure part of the downloader: which folder a catalogue row goes to,
 * what its spectrum and image files are called, where they are written, and
 * which archive URLs are asked for them.
 */
module Naming {
  import opened Wrappers
  import opened Text
  import opened Paths

  /** The settings block at the top of the script. */
  datatype Config = Config(
    imageDir: string,
    spectraDir: string,
    dataRelease: string,
    imgWidth: int,
    imgHeight: int,
    imgScale: string,       // the float IMG_SCALE as Python prints it
    downloadImages: bool,
    downloadSpectra: bool)

  /** The values the script ships with. */
  const Shipped := Config("images", "spectra", "dr16", 128, 128, "0.2", true, true)

  /** The folder for rows whose subclass is missing, blank or not an M-type code. */
  const Unknown := "Unknown"

  // ---------------------------------------------------------------------------
  // Bucket resolution
  // ---------------------------------------------------------------------------

  /** An M-type subclass code: the letter M and one ASCII digit. */
  predicate IsSubclassCode(t: string) {
    |t| == 2 && t[0] == 'M' && IsDigit(t[1])
  }

  /**
   * `re.match(r"^M[0-9]$", t)`. Python's `$` also matches just before a
   * final newline, so "M4\n" matches too.
   */
  predicate MatchesSubclassPattern(t: string) {
    (|t| == 2 || (|t| == 3 && t[2] == '\n')) && t[0] == 'M' && IsDigit(t[1])
  }

  /** The output folder for a row with the given subclass label. */
  function Bucket(subclass: string): string {
    var t := Strip(subclass);
    if !MatchesSubclassPattern(t) && t != Unknown then Unknown
    else if t == Unknown then Unknown
    else t
  }

  /**
   * The stripped label names the folder exactly when it is an M-type code;
   * every other label, "Unknown" and the empty string among them, goes to
   * "Unknown". Stripping removes any final newline, so the regular
   * expression's newline case never lets a three-character name through.
   */
  lemma BucketSpec(subclass: string)
    ensures IsSubclassCode(Strip(subclass)) ==> Bucket(subclass) == Strip(subclass)
    ensures !IsSubclassCode(Strip(subclass)) ==> Bucket(subclass) == Unknown
  {
  }

  /** A bucket is a usable single folder name. */
  lemma BucketIsFolderName(subclass: string)
    ensures var b := Bucket(subclass); b != [] && NoSlash(b) && b[|b| - 1] != '/'
  {
    BucketSpec(subclass);
    var b := Bucket(subclass);
    if IsSubclassCode(Strip(subclass)) {
      assert b[0] != '/' && b[1] != '/';
    } else {
      assert b == "Unknown";
    }
  }

  // ---------------------------------------------------------------------------
  // File names and destinations
  // ---------------------------------------------------------------------------

  /** `f"spec-{plate:04d}-{mjd:5d}-{fiberID:04d}.fits"`. */
  function SpectrumFileName(plate: int, mjd: int, fiber: int): (r: string)
    ensures |r| >= 10 && r[..5] == "spec-" && r[|r| - 5..] == ".fits"
  {
    SpectrumTemplate(ZeroPad(plate, 4), SpacePad(mjd, 5), ZeroPad(fiber, 4))
  }

  /** The spectrum name template with its three fields already formatted. */
  function SpectrumTemplate(a: string, b: string, c: string): (r: string)
    ensures |r| >= 10 && r[..5] == "spec-" && r[|r| - 5..] == ".fits"
  {
    "spec-" + (a + ("-" + (b + ("-" + (c + ".fits")))))
  }

  /** `f"{name}_image.jpg"`. */
  function ImageFileName(name: int): (r: string)
    ensures |r| > 10 && r[|r| - 10..] == "_image.jpg"
  {
    FormatInt(name) + "_image.jpg"
  }

  /** `os.path.join(SPECTRA_DIR, subclass_folder, spec_base_filename)`. */
  function SpectrumPath(cfg: Config, bucket: string, file: string): string {
    Join(Join(cfg.spectraDir, bucket), file)
  }

  /** `os.path.join(IMAGE_DIR, subclass_folder, f"{name}_image.jpg")`. */
  function ImagePath(cfg: Config, bucket: string, name: int): string {
    Join(Join(cfg.imageDir, bucket), ImageFileName(name))
  }

  // ---------------------------------------------------------------------------
  // Archive URLs
  // ---------------------------------------------------------------------------

  const RunEboss := "v5_13_0"
  const RunBoss := "v5_13_2"
  const RunSdss := "26"

  /** The part every spectrum candidate shares: `/spectra/<plate 04d>/<file>`. */
  function SpectraSuffix(plate: int, file: string): string {
    "/spectra/" + ZeroPad(plate, 4) + "/" + file
  }

  /** One spectrum location on the Science Archive Server. */
  function SpectrumUrl(dataRelease: string, survey: string, run2d: string, plate: int, file: string): (r: string)
    ensures |r| >= |SpectraSuffix(plate, file)|
    ensures r[|r| - |SpectraSuffix(plate, file)|..] == SpectraSuffix(plate, file)
  {
    "https://data.sdss.org/sas/" + dataRelease + "/" + (survey + ("/spectro/redux/" + (run2d + SpectraSuffix(plate, file))))
  }

  /**
   * The four spectrum locations, in the order they are tried: eBOSS
   * v5_13_0, BOSS v5_13_2, SDSS 26, SDSS v5_13_0. All end in the same
   * `/spectra/<plate>/<file>` suffix.
   */
  function SpectrumCandidates(dataRelease: string, plate: int, file: string): (r: seq<string>)
    ensures |r| == 4
    ensures forall i :: 0 <= i < 4 ==>
      |r[i]| >= |SpectraSuffix(plate, file)| && r[i][|r[i]| - |SpectraSuffix(plate, file)|..] == SpectraSuffix(plate, file)
  {
    [ SpectrumUrl(dataRelease, "eboss", RunEboss, plate, file),
      SpectrumUrl(dataRelease, "boss", RunBoss, plate, file),
      SpectrumUrl(dataRelease, "sdss", RunSdss, plate, file),
      SpectrumUrl(dataRelease, "sdss", RunEboss, plate, file) ]
  }

  /** The cutout service request for one object (the coordinates are kept as printed). */
  function ImageUrl(cfg: Config, ra: string, dec: string): (r: string)
    ensures var endpoint := "https://skyserver.sdss.org/" + cfg.dataRelease + "/SkyServerWS/ImgCutout/getjpeg?ra=";
      var coordinates := endpoint + ra + "&dec=" + dec + "&scale=";
      |r| > |coordinates| + 5 && r[..|coordinates|] == coordinates && r[|r| - 5..] == "&opt="
  {
    "https://skyserver.sdss.org/" + cfg.dataRelease + "/SkyServerWS/ImgCutout/getjpeg"
    + "?ra=" + ra + "&dec=" + dec + "&scale=" + cfg.imgScale
    + "&width=" + FormatInt(cfg.imgWidth) + "&height=" + FormatInt(cfg.imgHeight) + "&opt="
  }

  // ---------------------------------------------------------------------------
  // Reading a spectrum file name back
  // ---------------------------------------------------------------------------

  /** Recovers (plate, mjd, fiber) from a name of the form `spec-P-M-F.fits`. */
  function ParseSpectrumFileName(s: string): Option<(int, int, int)> {
    if |s| < 5 || s[..5] != "spec-" then None else ParsePlateField(s[5..])
  }

  function ParsePlateField(t: string): Option<(int, int, int)> {
    var a := SignedRun(t);
    if a >= |t| || t[a] != '-' then None else ParseMjdField(t[..a], t[a + 1..])
  }

  function ParseMjdField(plate: string, u: string): Option<(int, int, int)> {
    ParseMjdDigits(plate, u[BlankRun(u)..])
  }

  function ParseMjdDigits(plate: string, v: string): Option<(int, int, int)> {
    var b := SignedRun(v);
    if b >= |v| || v[b] != '-' then None else ParseFiberField(plate, v[..b], v[b + 1..])
  }

  function ParseFiberField(plate: string, mjd: string, x: string): Option<(int, int, int)> {
    var c := SignedRun(x);
    if x[c..] != ".fits" then None else Fields(plate, mjd, x[..c])
  }

  function Fields(plate: string, mjd: string, fiber: string): Option<(int, int, int)> {
    match (ParseDecimal(plate), ParseDecimal(mjd), ParseDecimal(fiber))
    case (Some(p), Some(m), Some(f)) => Some((p, m, f))
    case _ => None
  }

  lemma DashSplit(f: string, rest: string)
    ensures var s := f + ("-" + rest); s[|f|] == '-' && s[..|f|] == f && s[|f| + 1..] == rest
  {
  }

  lemma ParseFiberFieldOf(plate: string, mjd: string, c: string)
    requires SignedRun(c + ".fits") == |c|
    ensures ParseFiberField(plate, mjd, c + ".fits") == Fields(plate, mjd, c)
  {
    var x := c + ".fits";
    assert x[|c|..] == ".fits" && x[..|c|] == c;
  }

  lemma ParseMjdDigitsOf(plate: string, f: string, rest: string)
    requires SignedRun(f + ("-" + rest)) == |f|
    ensures ParseMjdDigits(plate, f + ("-" + rest)) == ParseFiberField(plate, f, rest)
  {
    DashSplit(f, rest);
  }

  lemma ParseMjdFieldOf(plate: string, blanks: string, v: string)
    requires BlankRun(blanks + v) == |blanks|
    ensures ParseMjdField(plate, blanks + v) == ParseMjdDigits(plate, v)
  {
    assert (blanks + v)[|blanks|..] == v;
  }

  lemma ParsePlateFieldOf(a: string, rest: string)
    requires SignedRun(a + ("-" + rest)) == |a|
    ensures ParsePlateField(a + ("-" + rest)) == ParseMjdField(a, rest)
  {
    DashSplit(a, rest);
  }

  lemma RegroupField(b: string, blanks: string, f: string, x: string)
    requires b == blanks + f
    ensures b + x == blanks + (f + x)
  {
  }

  /** The spectrum file name determines the plate, MJD and fiber it was built from. */
  lemma SpectrumFileNameRoundTrip(plate: int, mjd: int, fiber: int)
    ensures ParseSpectrumFileName(SpectrumFileName(plate, mjd, fiber)) == Some((plate, mjd, fiber))
  {
    var a := ZeroPad(plate, 4);
    var f := FormatInt(mjd);
    var c := ZeroPad(fiber, 4);
    var b := SpacePad(mjd, 5);
    var blanks := b[..|b| - |f|];
    assert b == blanks + f && forall i :: 0 <= i < |blanks| ==> blanks[i] == ' ' by {
      SpacePadShape(mjd, 5);
    }
    var tail := f + ("-" + (c + ".fits"));
    var rest := blanks + tail;
    assert SpectrumFileName(plate, mjd, fiber) == "spec-" + (a + ("-" + rest)) by {
      RegroupField(b, blanks, f, "-" + (c + ".fits"));
    }
    assert SignedRun(a + ("-" + rest)) == |a| by {
      SignedRunOfZeroPad(plate, 4, "-" + rest);
    }
    assert BlankRun(rest) == |blanks| by {
      FormatIntShape(mjd);
      BlankRunOf(blanks, tail);
    }
    assert SignedRun(tail) == |f| by {
      SignedRunOfFormatInt(mjd, "-" + (c + ".fits"));
    }
    assert SignedRun(c + ".fits") == |c| by {
      SignedRunOfZeroPad(fiber, 4, ".fits");
    }
    ParsePlateFieldOf(a, rest);
    ParseMjdFieldOf(a, blanks, tail);
    ParseMjdDigitsOf(a, f, c + ".fits");
    ParseFiberFieldOf(a, f, c);
    assert ("spec-" + (a + ("-" + rest)))[5..] == a + ("-" + rest);
    ZeroPadRoundTrip(plate, 4);
    ZeroPadRoundTrip(fiber, 4);
    FormatIntRoundTrip(mjd);
  }

  /** Distinct spectra never share a file name, so skip-if-exists never confuses two of them. */
  lemma SpectrumFileNameInjective(p1: int, m1: int, f1: int, p2: int, m2: int, f2: int)
    requires SpectrumFileName(p1, m1, f1) == SpectrumFileName(p2, m2, f2)
    ensures p1 == p2 && m1 == m2 && f1 == f2
  {
    SpectrumFileNameRoundTrip(p1, m1, f1);
    SpectrumFileNameRoundTrip(p2, m2, f2);
  }

  /** Stripping removes the blanks around a label. */
  lemma StripExample()
    ensures Strip(" M4 ") == "M4"
  {
    LeadingSpacesIs(" M4 ", 1);
    assert TrailingSpaces(" M4 ") == 1;
  }

  /** A label with blanks around an M-type code goes to that code's folder. */
  lemma PaddedCodeBucketExample()
    ensures Bucket(" M4 ") == "M4"
  {
    StripExample();
    BucketSpec(" M4 ");
  }

  /** A K-type label goes to "Unknown": only M-type codes get a folder of their own. */
  lemma OtherLetterBucketExample()
    ensures Bucket("K5") == Unknown
  {
    assert Strip("K5") == "K5" by {
      LeadingSpacesIs("K5", 0);
      assert TrailingSpaces("K5") == 0;
    }
    BucketSpec("K5");
  }

  /**
   * With the shipped settings, a spectrum is saved as
   * `spectra/<folder>/<file>`; for example " M4 " goes to folder `M4`
   * (PaddedCodeBucketExample) and plate 266, MJD 51602, fiber 1 to file
   * `spec-0266-51602-0001.fits` (SpectrumFileNameExample). Every folder and
   * file name the script builds has the required form (BucketIsFolderName,
   * FileNamesHaveNoSlash).
   */
  lemma ShippedSpectrumPath(bucket: string, file: string)
    requires bucket != [] && NoSlash(bucket)
    requires file != [] && NoSlash(file)
    ensures SpectrumPath(Shipped, bucket, file) == "spectra/" + bucket + "/" + file
  {
    ShippedPath("spectra", bucket, file);
    assert "spectra" + "/" == "spectra/";
  }

  /** With the shipped settings, an image is saved as `images/<folder>/<name>_image.jpg`. */
  lemma ShippedImagePath(bucket: string, name: int)
    requires bucket != [] && NoSlash(bucket)
    ensures ImagePath(Shipped, bucket, name) == "images/" + bucket + "/" + ImageFileName(name)
  {
    var img := ImageFileName(name);
    assert img[0] != '/' by {
      ImageFileNameHasNoSlash(name);
    }
    ShippedPath("images", bucket, img);
    assert "images" + "/" == "images/";
  }

  lemma ShippedPath(root: string, bucket: string, file: string)
    requires root != [] && root[|root| - 1] != '/'
    requires bucket != [] && NoSlash(bucket)
    requires file != [] && file[0] != '/'
    ensures Join(Join(root, bucket), file) == root + "/" + bucket + "/" + file
  {
    JoinWithSeparator(root, bucket);
    JoinWithSeparator(root + "/" + bucket, file);
  }

  /** The object's name can be read back from its image file name. */
  lemma ImageFileNameRoundTrip(name: int)
    ensures var r := ImageFileName(name); ParseDecimal(r[..|r| - 10]) == Some(name)
  {
    var r := ImageFileName(name);
    assert r[..|r| - 10] == FormatInt(name);
    FormatIntRoundTrip(name);
  }

  /** Distinct objects never share an image file name. */
  lemma ImageFileNameInjective(n1: int, n2: int)
    requires ImageFileName(n1) == ImageFileName(n2)
    ensures n1 == n2
  {
    ImageFileNameRoundTrip(n1);
    ImageFileNameRoundTrip(n2);
  }

  /** The worked example: plate 266, MJD 51602, fiber 1. */
  lemma SpectrumFileNameExample()
    ensures SpectrumFileName(266, 51602, 1) == "spec-0266-51602-0001.fits"
  {
    PlateFieldExample();
    MjdFieldExample();
    FiberFieldExample();
  }

  lemma PlateFieldExample()
    ensures ZeroPad(266, 4) == "0266"
  {
    assert Digits(266) == "266";
  }

  lemma MjdFieldExample()
    ensures SpacePad(51602, 5) == "51602"
  {
    assert Digits(51602) == "51602";
  }

  lemma FiberFieldExample()
    ensures ZeroPad(1, 4) == "0001"
  {
    assert Digits(1) == "1";
  }

  /** A plate number longer than the field width is written out in full, not cut. */
  lemma ZeroPadNeverTruncates(n: int)
    requires n >= 10000
    ensures ZeroPad(n, 4) == Digits(n)
  {
    var d := Digits(n);
    assert |d| >= 5 by {
      DigitsLength(n);
    }
  }

  lemma {:induction false} DigitsLength(n: nat)
    requires n >= 10000
    ensures |Digits(n)| >= 5
  {
    if n >= 100000 {
      DigitsLength(n / 10);
    } else {
      assert Digits(n) == Digits(n / 10) + [DigitChar(n % 10)];
      assert n / 10 >= 1000;
      assert |Digits(n / 10)| >= 4 by {
        var m := n / 10;
        assert Digits(m) == Digits(m / 10) + [DigitChar(m % 10)];
        var m2 := m / 10;
        assert Digits(m2) == Digits(m2 / 10) + [DigitChar(m2 % 10)];
        var m3 := m2 / 10;
        assert m3 >= 10;
        assert Digits(m3) == Digits(m3 / 10) + [DigitChar(m3 % 10)];
      }
    }
  }

  /** The four spectrum candidates are four different URLs. */
  lemma SpectrumCandidatesDistinct(dataRelease: string, plate: int, file: string)
    ensures var c := SpectrumCandidates(dataRelease, plate, file);
      forall i, j :: 0 <= i < j < 4 ==> c[i] != c[j]
  {
    var c := SpectrumCandidates(dataRelease, plate, file);
    var k := |"https://data.sdss.org/sas/" + dataRelease + "/"|;
    assert c[0][k] == 'e' && c[1][k] == 'b' && c[2][k] == 's' && c[3][k] == 's';
    var k2 := k + |"sdss/spectro/redux/"|;
    assert c[2][k2] == '2' && c[3][k2] == 'v';
  }

  /**
   * Spectrum and image destinations never coincide, and each lies directly
   * in its bucket folder under its root.
   */
  lemma DestinationsAreSeparate(cfg: Config, subclass: string, plate: int, mjd: int, fiber: int, name: int)
    ensures var bucket := Bucket(subclass);
      var sp := SpectrumPath(cfg, bucket, SpectrumFileName(plate, mjd, fiber));
      var ip := ImagePath(cfg, bucket, name);
      sp != ip
      && DirName(sp) == Join(cfg.spectraDir, bucket)
      && DirName(ip) == Join(cfg.imageDir, bucket)
      && DirName(sp) != [] && DirName(ip) != []
  {
    var file := SpectrumFileName(plate, mjd, fiber);
    var img := ImageFileName(name);
    BucketIsFolderName(subclass);
    FileNamesHaveNoSlash(plate, mjd, fiber, name);
    assert file[|file| - 1] == 's' && img[|img| - 1] == 'g';
    FilesUnderBucket(cfg, Bucket(subclass), file, img);
  }

  /** Two files with different last characters, filed under the same bucket of the two roots. */
  lemma FilesUnderBucket(cfg: Config, bucket: string, file: string, img: string)
    requires bucket != [] && NoSlash(bucket) && bucket[|bucket| - 1] != '/'
    requires NoSlash(file) && NoSlash(img)
    requires file != [] && img != [] && file[|file| - 1] != img[|img| - 1]
    ensures var sp := Join(Join(cfg.spectraDir, bucket), file);
      var ip := Join(Join(cfg.imageDir, bucket), img);
      sp != ip
      && DirName(sp) == Join(cfg.spectraDir, bucket)
      && DirName(ip) == Join(cfg.imageDir, bucket)
      && DirName(sp) != [] && DirName(ip) != []
  {
    var sd := Join(cfg.spectraDir, bucket);
    var id := Join(cfg.imageDir, bucket);
    var sp := Join(sd, file);
    var ip := Join(id, img);
    assert sp[|sp| - 1] == file[|file| - 1] && ip[|ip| - 1] == img[|img| - 1];
    assert sd[|sd| - 1] == bucket[|bucket| - 1];
    assert id[|id| - 1] == bucket[|bucket| - 1];
    DirNameOfJoin(sd, file);
    DirNameOfJoin(id, img);
  }

  lemma NumericHasNoSlash(s: string)
    requires IsNumeric(s)
    ensures NoSlash(s)
  {
  }

  lemma TemplateHasNoSlash(a: string, b: string, c: string)
    requires NoSlash(a) && NoSlash(b) && NoSlash(c)
    ensures NoSlash(SpectrumTemplate(a, b, c))
  {
  }

  lemma FileNamesHaveNoSlash(plate: int, mjd: int, fiber: int, name: int)
    ensures NoSlash(SpectrumFileName(plate, mjd, fiber))
    ensures NoSlash(ImageFileName(name))
  {
    SpectrumFileNameHasNoSlash(plate, mjd, fiber);
    ImageFileNameHasNoSlash(name);
  }

  lemma SpectrumFileNameHasNoSlash(plate: int, mjd: int, fiber: int)
    ensures NoSlash(SpectrumFileName(plate, mjd, fiber))
  {
    FormatsAreNumeric(plate, 4);
    FormatsAreNumeric(mjd, 5);
    FormatsAreNumeric(fiber, 4);
    NumericHasNoSlash(ZeroPad(plate, 4));
    NumericHasNoSlash(SpacePad(mjd, 5));
    NumericHasNoSlash(ZeroPad(fiber, 4));
    TemplateHasNoSlash(ZeroPad(plate, 4), SpacePad(mjd, 5), ZeroPad(fiber, 4));
  }

  lemma ImageFileNameHasNoSlash(name: int)
    ensures NoSlash(ImageFileName(name))
  {
    FormatsAreNumeric(name, 0);
    NumericHasNoSlash(FormatInt(name));
  }
}
