/**
  The naming scheme of a data collection run: where each rendered image goes
  under the output folder and what the three list files are called. The date
  of the run is read once, when the configurator is built, and passed in here.
*/
module NameConfiguration {
  import opened Wrappers
  import opened Text
  import opened Paths

  /** A calendar date, as `datetime.date.today()` gives it. */
  datatype Date = Date(year: int, month: int, day: int)

  predicate IsCalendarDate(d: Date) {
    1 <= d.year <= 9999 && 1 <= d.month <= 12 && 1 <= d.day <= 31
  }

  /** `strftime('%y%m%d')`: two digits each of the year, month and day. */
  function FolderDate(d: Date): (s: string)
    ensures |s| > 0 && IsDigit(s[|s| - 1])
  {
    FormatInt(d.year % 100, 2) + FormatInt(d.month, 2) + FormatInt(d.day, 2)
  }

  /** `strftime('%Y-%m-%d')`. */
  function FileDate(d: Date): string {
    FormatInt(d.year, 4) + "-" + FormatInt(d.month, 2) + "-" + FormatInt(d.day, 2)
  }

  /**
    The settings of one run. `outputFolder` is already absolute; the other
    fields are kept as given.
  */
  datatype NameConfigurator = NameConfigurator(
    outputFolder: string,
    currentDate: Date,
    sequenceType: string,
    sequenceNumber: int,
    textureNumber: int,
    cameraName: string)

  /**
    The configurator for a run, made absolute against the working directory
    `cwd`, dated `today`.
  */
  function NewNameConfigurator(
    cwd: string, outputFolder: string, sequenceType: string, sequenceNumber: int,
    textureNumber: int, cameraName: string, today: Date): (n: NameConfigurator)
    requires IsAbsolute(cwd)
    ensures IsAbsolute(n.outputFolder)
    ensures n.currentDate == today
  {
    NameConfigurator(AbsPath(cwd, outputFolder), today, sequenceType, sequenceNumber,
                     textureNumber, cameraName)
  }

  /** `<type>_<YYMMDD>`, the stem of the three list files. */
  function BaseName(n: NameConfigurator): string {
    n.sequenceType + "_" + FolderDate(n.currentDate)
  }

  /** `seq<NNNN>`, the folder of one sequence. */
  function SequenceFolder(n: NameConfigurator): string {
    "seq" + FormatInt(n.sequenceNumber, 4)
  }

  /** The folder of a run's images, relative to the output folder. */
  function ImageDirectory(n: NameConfigurator): string {
    Join(Join(n.sequenceType, FolderDate(n.currentDate)), SequenceFolder(n))
  }

  /** Everything in an image's file name before its index. */
  function ImageNamePrefix(n: NameConfigurator): string {
    "HDG2_" + "t" + FormatInt(n.textureNumber, 3) + "_" + n.sequenceType + "_"
      + FileDate(n.currentDate) + "_" + "s" + FormatInt(n.sequenceNumber, 4) + "_"
      + n.cameraName + "_" + "i"
  }

  /** `HDG2_t<TTT>_<type>_<YYYY-MM-DD>_s<NNNN>_<camera>_i<IIIIIII>.png`. */
  function ImageFileName(n: NameConfigurator, index: int): string {
    ImageNamePrefix(n) + FormatInt(index, 7) + ".png"
  }

  /**
    The path of image `index`: relative to the output folder, or joined to it
    when `absolute` is set.
  */
  function CreateImagePath(n: NameConfigurator, index: int, absolute: bool): string {
    var result := Join(ImageDirectory(n), ImageFileName(n, index));
    if absolute then Join(n.outputFolder, result) else result
  }

  function MetersTxtFile(n: NameConfigurator): string {
    BaseName(n) + "_meters.txt"
  }

  function TestFile(n: NameConfigurator): string {
    BaseName(n) + ".test"
  }

  function TxtFile(n: NameConfigurator): string {
    BaseName(n) + ".txt"
  }

  /** `<type>/<YYMMDD>/seq<NNNN>/`, with no '/' after an empty type or one ending in '/'. */
  function DirectoryPart(n: NameConfigurator): string {
    n.sequenceType + Sep(n.sequenceType) + FolderDate(n.currentDate) + "/" + SequenceFolder(n) + "/"
  }

  /**
    The relative image path is
    `<type>/<YYMMDD>/seq<NNNN>/HDG2_t<TTT>_<type>_<YYYY-MM-DD>_s<NNNN>_<camera>_i<IIIIIII>.png`;
    the '/' after the type is left out when the type is empty or already
    ends with one, as `os.path.join` does.
  */
  lemma ImagePathLayout(n: NameConfigurator, index: int)
    ensures CreateImagePath(n, index, false) == DirectoryPart(n) + ImageFileName(n, index)
  {
    FolderDateEnds(n.currentDate);
    SequenceFolderEnds(n);
    FileNameStart(n, index);
    JoinFour(n.sequenceType, FolderDate(n.currentDate), SequenceFolder(n), ImageFileName(n, index));
  }

  /** An image file name starts with "HDG2_". */
  lemma FileNameStart(n: NameConfigurator, index: int)
    ensures |ImageFileName(n, index)| > 0 && ImageFileName(n, index)[0] == 'H'
  {
    var name := ImageFileName(n, index);
    var prefix := ImageNamePrefix(n);
    assert name == prefix + FormatInt(index, 7) + ".png";
    assert name[0] == prefix[0];
  }

  /** The date folder neither starts nor ends with '/'. */
  lemma FolderDateEnds(d: Date)
    ensures var s := FolderDate(d);
            |s| > 0 && s[0] != '/' && s[|s| - 1] != '/'
  {
    var y := FormatInt(d.year % 100, 2);
    assert FolderDate(d)[0] == y[0];
  }

  /** The sequence folder neither starts nor ends with '/'. */
  lemma SequenceFolderEnds(n: NameConfigurator)
    ensures var s := SequenceFolder(n);
            |s| > 0 && s[0] != '/' && s[|s| - 1] != '/'
  {
    var f := FormatInt(n.sequenceNumber, 4);
    assert ("seq" + f)[|"seq" + f| - 1] == f[|f| - 1];
  }

  /**
    The absolute image path is the output folder joined with the relative
    one: the relative path is its tail, the output folder its head.
  */
  lemma AbsoluteImagePath(n: NameConfigurator, index: int)
    ensures var r := CreateImagePath(n, index, true);
            var rel := CreateImagePath(n, index, false);
            |r| >= |rel| && r[|r| - |rel|..] == rel
            && (!IsAbsolute(n.sequenceType) ==> r == n.outputFolder + Sep(n.outputFolder) + rel)
            && (IsAbsolute(n.outputFolder) ==> IsAbsolute(r))
  {
    var rel := CreateImagePath(n, index, false);
    JoinEndsWith(n.outputFolder, rel);
    if !IsAbsolute(n.sequenceType) {
      RelativeStaysRelative(n, index);
    }
  }

  /** A relative sequence type gives relative image paths. */
  lemma RelativeStaysRelative(n: NameConfigurator, index: int)
    requires !IsAbsolute(n.sequenceType)
    ensures !IsAbsolute(CreateImagePath(n, index, false))
  {
    ImagePathLayout(n, index);
    var rel := CreateImagePath(n, index, false);
    if |n.sequenceType| > 0 {
      assert rel[0] == n.sequenceType[0];
    } else {
      FolderDateEnds(n.currentDate);
      assert rel[0] == FolderDate(n.currentDate)[0];
    }
  }

  /** Everything in the relative image path before the image number. */
  function RelativePrefix(n: NameConfigurator): string {
    DirectoryPart(n) + ImageNamePrefix(n)
  }

  /** What an image path has in front of the relative prefix: nothing when it is relative. */
  function PathLead(n: NameConfigurator, absolute: bool): string {
    if absolute then JoinLead(n.outputFolder, RelativePrefix(n)) else ""
  }

  /** Every path of a run is one prefix, the padded image number, and ".png". */
  lemma ImagePathAroundIndex(n: NameConfigurator, index: int, absolute: bool)
    ensures CreateImagePath(n, index, absolute) == PathLead(n, absolute) + RelativePrefix(n) + FormatInt(index, 7) + ".png"
  {
    if absolute {
      AbsoluteAroundIndex(n, index);
    } else {
      NoLeadAroundIndex(n, index);
    }
  }

  lemma NoLeadAroundIndex(n: NameConfigurator, index: int)
    ensures CreateImagePath(n, index, false) == PathLead(n, false) + RelativePrefix(n) + FormatInt(index, 7) + ".png"
  {
    RelativeAroundIndex(n, index);
    EmptyInFront(PathLead(n, false), RelativePrefix(n), FormatInt(index, 7), ".png");
  }

  lemma EmptyInFront(e: string, a: string, b: string, c: string)
    requires e == ""
    ensures e + a + b + c == a + b + c
  {
  }

  lemma AbsoluteAroundIndex(n: NameConfigurator, index: int)
    ensures CreateImagePath(n, index, true) == PathLead(n, true) + RelativePrefix(n) + FormatInt(index, 7) + ".png"
  {
    RelativeAroundIndex(n, index);
    AbsoluteLead(n, index);
    Regroup(JoinLead(n.outputFolder, RelativePrefix(n)), RelativePrefix(n), FormatInt(index, 7), ".png");
  }

  lemma RelativeAroundIndex(n: NameConfigurator, index: int)
    ensures CreateImagePath(n, index, false) == RelativePrefix(n) + FormatInt(index, 7) + ".png"
  {
    ImagePathLayout(n, index);
    Regroup(DirectoryPart(n), ImageNamePrefix(n), FormatInt(index, 7), ".png");
  }

  /** The absolute path puts the same lead in front of every relative path. */
  lemma AbsoluteLead(n: NameConfigurator, index: int)
    ensures CreateImagePath(n, index, true)
         == JoinLead(n.outputFolder, RelativePrefix(n)) + CreateImagePath(n, index, false)
  {
    var prefix := RelativePrefix(n);
    var rel := CreateImagePath(n, index, false);
    RelativeAroundIndex(n, index);
    SequenceFolderEnds(n);
    assert |prefix| > 0 && rel[0] == prefix[0];
  }

  /** Two different image numbers never share a path. */
  lemma ImagePathsDistinct(n: NameConfigurator, i: int, j: int, absolute: bool)
    requires i != j
    ensures CreateImagePath(n, i, absolute) != CreateImagePath(n, j, absolute)
  {
    var lead := PathLead(n, absolute);
    ImagePathAroundIndex(n, i, absolute);
    ImagePathAroundIndex(n, j, absolute);
    if CreateImagePath(n, i, absolute) == CreateImagePath(n, j, absolute) {
      CancelAround(lead + RelativePrefix(n), FormatInt(i, 7), FormatInt(j, 7), ".png");
      FormatIntInjective(i, j, 7);
    }
  }

  /**
    The padded numbers are 4, 3 and 7 characters wide while they fit, wider
    when they do not, and always read back as the number they came from.
  */
  lemma PaddedNumbers(n: NameConfigurator, index: int)
    ensures 0 <= n.sequenceNumber < 10000 ==> |FormatInt(n.sequenceNumber, 4)| == 4
    ensures 0 <= n.textureNumber < 1000 ==> |FormatInt(n.textureNumber, 3)| == 3
    ensures 0 <= index < 10000000 ==> |FormatInt(index, 7)| == 7
    ensures ParseInt(FormatInt(n.sequenceNumber, 4)) == Some(n.sequenceNumber)
    ensures ParseInt(FormatInt(n.textureNumber, 3)) == Some(n.textureNumber)
    ensures ParseInt(FormatInt(index, 7)) == Some(index)
  {
    if 0 <= n.sequenceNumber < 10000 {
      FormatIntWidth(n.sequenceNumber, 4);
    }
    if 0 <= n.textureNumber < 1000 {
      FormatIntWidth(n.textureNumber, 3);
    }
    if 0 <= index < 10000000 {
      FormatIntWidth(index, 7);
    }
    FormatIntRoundTrip(n.sequenceNumber, 4);
    FormatIntRoundTrip(n.textureNumber, 3);
    FormatIntRoundTrip(index, 7);
  }

  /** The three list files share the base name and are pairwise distinct. */
  lemma ListFilesDistinct(n: NameConfigurator)
    ensures TestFile(n) != TxtFile(n) && TestFile(n) != MetersTxtFile(n) && TxtFile(n) != MetersTxtFile(n)
    ensures TestFile(n)[..|BaseName(n)|] == BaseName(n)
    ensures TxtFile(n)[..|BaseName(n)|] == BaseName(n)
    ensures MetersTxtFile(n)[..|BaseName(n)|] == BaseName(n)
  {
    assert |TestFile(n)| == |BaseName(n)| + 5;
    assert |TxtFile(n)| == |BaseName(n)| + 4;
    assert |MetersTxtFile(n)| == |BaseName(n)| + 11;
  }

  /**
    The `YYMMDD` of the folders and list files is the `YYYY-MM-DD` of the
    image names without the century and the dashes: both come from the one
    date taken at construction.
  */
  lemma FolderDateMatchesFileDate(d: Date)
    requires IsCalendarDate(d) && d.year >= 1000
    ensures |FileDate(d)| == 10
    ensures FolderDate(d) == FileDate(d)[2..4] + FileDate(d)[5..7] + FileDate(d)[8..10]
  {
    var y := FormatInt(d.year, 4);
    var m := FormatInt(d.month, 2);
    var dd := FormatInt(d.day, 2);
    FileDatePieces(d);
    LastTwoDigits(d.year);
    SlicePieces(y, m, dd);
  }

  lemma FileDatePieces(d: Date)
    requires IsCalendarDate(d)
    ensures |FormatInt(d.year, 4)| == 4
    ensures |FormatInt(d.month, 2)| == 2 && |FormatInt(d.day, 2)| == 2
  {
    FormatIntWidth(d.year, 4);
    FormatIntWidth(d.month, 2);
    FormatIntWidth(d.day, 2);
  }

  /** The pieces of `y-m-d` with a 4-character `y` and 2-character `m` and `d`. */
  lemma SlicePieces(y: string, m: string, dd: string)
    requires |y| == 4 && |m| == 2 && |dd| == 2
    ensures var f := y + "-" + m + "-" + dd;
            |f| == 10 && f[2..4] == y[2..4] && f[5..7] == m && f[8..10] == dd
  {
  }

  /** `format(n, '02d')` for `0 <= n < 100`: the tens digit, then the units digit. */
  lemma TwoDigits(n: int)
    requires 0 <= n < 100
    ensures FormatInt(n, 2) == [DigitChar(n / 10), DigitChar(n % 10)]
  {
    if n < 10 {
      assert NatToString(n) == [DigitChar(n)];
      assert Zeros(1) == [DigitChar(0)];
    } else {
      assert NatToString(n / 10) == [DigitChar(n / 10)];
    }
  }

  /** The last two of the four digits of a year, as tens and units. */
  lemma YearTail(year: int)
    requires 1000 <= year <= 9999
    ensures FormatInt(year, 4)[2..4] == [DigitChar(year / 10 % 10), DigitChar(year % 10)]
  {
    var tens := year / 10;
    var head := NatToString(tens / 10);
    assert NatToString(year) == NatToString(tens) + [DigitChar(year % 10)];
    assert NatToString(tens) == head + [DigitChar(tens % 10)];
    NatToStringLength(tens / 10, 2);
    assert |head| == 2 by {
      assert tens / 10 >= 10;
    }
    FormatIntWidth(year, 4);
    assert FormatInt(year, 4) == NatToString(year);
  }

  /** The last two of the four digits of a year are the year modulo 100. */
  lemma LastTwoDigits(year: int)
    requires 1000 <= year <= 9999
    ensures FormatInt(year, 4)[2..4] == FormatInt(year % 100, 2)
  {
    YearTail(year);
    TwoDigits(year % 100);
    TensAndUnits(year);
  }

  lemma TensAndUnits(year: nat)
    ensures year % 100 / 10 == year / 10 % 10
    ensures year % 100 % 10 == year % 10
  {
    var q := year / 100;
    var r := year % 100;
    assert year == 100 * q + r;
    assert year / 10 == 10 * q + r / 10;
    assert year % 10 == r % 10;
  }

  /**
    The run of `NameConfigurator('/blah/output', 'regular', 3, 2, 'c01')`:
    image 5 and the list files, for any working directory and date.
  */
  lemma RegularRunNames(cwd: string, today: Date)
    requires IsAbsolute(cwd)
    ensures var n := NewNameConfigurator(cwd, "/blah/output", "regular", 3, 2, "c01", today);
            && CreateImagePath(n, 5, false)
               == "regular/" + FolderDate(today) + "/seq0003/" + "HDG2_t002_regular_" + FileDate(today)
                  + "_s0003_c01_i0000005.png"
            && CreateImagePath(n, 5, true) == "/blah/output/" + CreateImagePath(n, 5, false)
            && MetersTxtFile(n) == "regular_" + FolderDate(today) + "_meters.txt"
            && TestFile(n) == "regular_" + FolderDate(today) + ".test"
            && TxtFile(n) == "regular_" + FolderDate(today) + ".txt"
  {
    var n := NewNameConfigurator(cwd, "/blah/output", "regular", 3, 2, "c01", today);
    BlahOutput(cwd);
    RegularRelativePath(n);
    RegularAbsolutePath(n);
    RegularListFiles(n);
  }

  lemma RegularListFiles(n: NameConfigurator)
    requires n.sequenceType == "regular"
    ensures MetersTxtFile(n) == "regular_" + FolderDate(n.currentDate) + "_meters.txt"
    ensures TestFile(n) == "regular_" + FolderDate(n.currentDate) + ".test"
    ensures TxtFile(n) == "regular_" + FolderDate(n.currentDate) + ".txt"
  {
    RegularBase(FolderDate(n.currentDate));
  }

  lemma RegularBase(f: string)
    ensures "regular" + "_" + f == "regular_" + f
  {
    Assoc("regular", "_", f);
  }

  lemma RegularRelativePath(n: NameConfigurator)
    requires n.sequenceType == "regular" && n.sequenceNumber == 3
    requires n.textureNumber == 2 && n.cameraName == "c01"
    ensures CreateImagePath(n, 5, false)
         == "regular/" + FolderDate(n.currentDate) + "/seq0003/" + "HDG2_t002_regular_"
            + FileDate(n.currentDate) + "_s0003_c01_i0000005.png"
  {
    var head := "HDG2_t002_regular_";
    var tail := "_s0003_c01_i0000005.png";
    ImagePathLayout(n, 5);
    RegularDirectory(n);
    RegularFileName(n);
    Regroup("regular/" + FolderDate(n.currentDate) + "/seq0003/", head, FileDate(n.currentDate), tail);
  }

  lemma RegularAbsolutePath(n: NameConfigurator)
    requires n.outputFolder == "/blah/output" && n.sequenceType == "regular"
    ensures CreateImagePath(n, 5, true) == "/blah/output/" + CreateImagePath(n, 5, false)
  {
    RelativeStaysRelative(n, 5);
    JoinBlahOutput(CreateImagePath(n, 5, false));
  }

  lemma JoinBlahOutput(rel: string)
    requires !IsAbsolute(rel)
    ensures Join("/blah/output", rel) == "/blah/output/" + rel
  {
    JoinRelative("/blah/output", rel);
    Assoc("/blah/output", "/", rel);
  }

  lemma RegularDirectory(n: NameConfigurator)
    requires n.sequenceType == "regular" && n.sequenceNumber == 3
    ensures DirectoryPart(n) == "regular/" + FolderDate(n.currentDate) + "/seq0003/"
  {
    var ty, q := "regular", "seq0003";
    PaddedExamples();
    assert SequenceFolder(n) == q;
    assert Sep(ty) == "/";
    RegroupDirectory(ty, FolderDate(n.currentDate), q);
    assert ty + "/" == "regular/" && "/" + q + "/" == "/seq0003/";
  }

  lemma RegroupDirectory(ty: string, date: string, q: string)
    ensures ty + "/" + date + "/" + q + "/" == (ty + "/") + date + ("/" + q + "/")
  {
  }

  lemma RegularFileName(n: NameConfigurator)
    requires n.sequenceType == "regular" && n.sequenceNumber == 3
    requires n.textureNumber == 2 && n.cameraName == "c01"
    ensures ImageFileName(n, 5) == "HDG2_t002_regular_" + FileDate(n.currentDate) + "_s0003_c01_i0000005.png"
  {
    PaddedExamples();
    var f := FileDate(n.currentDate);
    RegularNameHead(f);
    RegularNameTail("HDG2_t002_regular_" + f);
  }

  lemma RegularNameHead(f: string)
    ensures "HDG2_" + "t" + "002" + "_" + "regular" + "_" + f == "HDG2_t002_regular_" + f
  {
    assert "HDG2_" + "t" + "002" + "_" + "regular" + "_" == "HDG2_t002_regular_";
  }

  lemma RegularNameTail(a: string)
    ensures a + "_" + "s" + "0003" + "_" + "c01" + "_" + "i" + "0000005" + ".png"
         == a + "_s0003_c01_i0000005.png"
  {
    Assoc(a, "_", "s");
    Assoc(a, "_s", "0003");
    Assoc(a, "_s0003", "_");
    Assoc(a, "_s0003_", "c01");
    Assoc(a, "_s0003_c01", "_");
    Assoc(a, "_s0003_c01_", "i");
    Assoc(a, "_s0003_c01_i", "0000005");
    Assoc(a, "_s0003_c01_i0000005", ".png");
  }

  /** `abspath('/blah/output')` is '/blah/output' whatever the working directory. */
  lemma BlahOutput(cwd: string)
    requires IsAbsolute(cwd)
    ensures AbsPath(cwd, "/blah/output") == "/blah/output"
  {
    var p := "/blah/output";
    assert Join(cwd, p) == p;
    BlahResolve(p);
    BlahUnsplit();
    BlahRoot();
  }

  lemma BlahRoot()
    ensures Root("/blah/output") == "/"
  {
    assert "/blah/output"[1] == 'b';
  }

  lemma BlahResolve(p: string)
    requires p == "/blah/output"
    ensures Resolve([], SplitOn(p, '/')) == ["blah", "output"]
  {
    var a, b := "blah", "output";
    BlahSplit(p, a, b);
    assert IsName(a) && IsName(b);
    ResolveRootedNames(a, b);
  }

  /** A rooted path of two names resolves to those names. */
  lemma ResolveRootedNames(a: string, b: string)
    requires IsName(a) && IsName(b)
    ensures Resolve([], ["", a, b]) == [a, b]
  {
    var parts := ["", a, b];
    assert [a] + [b] == [a, b];
    assert Resolve([a, b], []) == [a, b];
    assert [b][1..] == [];
    assert Resolve([a], [b]) == [a, b];
    assert [a, b][1..] == [b] && Step([], a) == [a];
    assert Resolve([], [a, b]) == [a, b];
    assert parts[1..] == [a, b];
  }

  lemma BlahUnsplit()
    ensures Unsplit(["blah", "output"]) == "blah/output"
  {
    assert ["blah", "output"][1..] == ["output"];
  }

  lemma BlahSplit(p: string, a: string, b: string)
    requires p == "/blah/output" && a == "blah" && b == "output"
    ensures SplitOn(p, '/') == ["", a, b]
  {
    var parts := ["", a, b];
    assert JoinWith(parts, '/') == p by {
      assert JoinWith(parts[1..], '/') == a + "/" + b by {
        assert parts[1..][1..] == [b];
      }
      assert p == "" + "/" + (a + "/" + b);
    }
    assert '/' !in a && '/' !in b;
    SplitJoin(parts, '/');
  }

  /** The padded numbers of the example run. */
  lemma PaddedExamples()
    ensures FormatInt(3, 4) == "0003"
    ensures FormatInt(2, 3) == "002"
    ensures FormatInt(5, 7) == "0000005"
  {
    assert Zeros(3) == "000";
    assert Zeros(2) == "00";
    assert Zeros(6) == "000000";
  }
}
