/**
  The data writer: the camera's intrinsic matrix and pose as text tables
  under `<output>/camera_properties`, and the three list files of a run —
  the image paths (`.test`), and each image path followed by the pose of the
  robot in meters (`_meters.txt`) or of the image corner in pixels (`.txt`).
*/
module Writer {
  import opened Wrappers
  import opened Text
  import opened Matrices
  import opened Numerics
  import opened Transforms
  import opened Paths
  import opened NameConfiguration
  import opened Files

  /** `format(x, '0.6f')`: fixed-point text with six decimals, handed in. */
  type Formatter = real -> string

  /** All the writer relies on: a formatted number is non-empty and holds no whitespace. */
  ghost predicate FormatLaw(fmt: Formatter) {
    forall x :: |fmt(x)| > 0 && forall k :: 0 <= k < |fmt(x)| ==> !IsPythonSpace(fmt(x)[k])
  }

  /** One formatted number: non-empty, whitespace at neither end, and no space or newline inside. */
  lemma Formatted(fmt: Formatter, x: real)
    requires FormatLaw(fmt)
    ensures var f := fmt(x);
            |f| > 0 && !IsPythonSpace(f[0]) && !IsPythonSpace(f[|f| - 1]) && ' ' !in f && '\n' !in f
  {
    var f := fmt(x);
    assert |f| > 0 && forall k :: 0 <= k < |f| ==> !IsPythonSpace(f[k]);
    assert IsPythonSpace(' ') && IsPythonSpace('\n');
  }

  /** The formatted entries of a row. */
  function Fields(row: seq<real>, fmt: Formatter): (r: seq<string>)
    ensures |r| == |row| && forall k :: 0 <= k < |row| ==> r[k] == fmt(row[k])
  {
    seq(|row|, k requires 0 <= k < |row| => fmt(row[k]))
  }

  /** One line of a table: the row's entries separated by single spaces. */
  function Line(row: seq<real>, fmt: Formatter): string
    requires |row| > 0
  {
    JoinWith(Fields(row, fmt), ' ')
  }

  /** The lines of every row of `m`. */
  function RowLines(m: Matrix, fmt: Formatter): (r: seq<string>)
    requires forall i :: 0 <= i < |m| ==> |m[i]| > 0
    ensures |r| == |m| && forall i :: 0 <= i < |m| ==> r[i] == Line(m[i], fmt)
  {
    seq(|m|, i requires 0 <= i < |m| => Line(m[i], fmt))
  }

  /** A table file as documented: one line per row of `m`, each ended by a newline. */
  function Render(m: Matrix, fmt: Formatter): string
    requires forall i :: 0 <= i < |m| ==> |m[i]| > 0
  {
    JoinWith(RowLines(m, fmt) + [""], '\n')
  }

  /** What `_write_array`'s inner loop appends for one row: each entry followed by a space. */
  function RowText(row: seq<real>, fmt: Formatter): string
    decreases |row|
  {
    if |row| == 0 then "" else RowText(row[..|row| - 1], fmt) + fmt(row[|row| - 1]) + " "
  }

  /**
    `_write_array`'s `output` once the rows of `m` are done: after each row
    the whole accumulated text is stripped and a newline added.
  */
  function Accumulated(m: Matrix, fmt: Formatter): string
    decreases |m|
  {
    if |m| == 0 then ""
    else Strip(Accumulated(m[..|m| - 1], fmt) + RowText(m[|m| - 1], fmt), IsPythonSpace) + "\n"
  }

  /** A line starts and ends with a formatted number, so neither end is whitespace. */
  lemma LineEnds(row: seq<real>, fmt: Formatter)
    requires FormatLaw(fmt) && |row| > 0
    ensures var l := Line(row, fmt);
            |l| > 0 && !IsPythonSpace(l[0]) && !IsPythonSpace(l[|l| - 1])
  {
    var fields := Fields(row, fmt);
    var first := fmt(row[0]);
    var last := fmt(row[|row| - 1]);
    Formatted(fmt, row[0]);
    Formatted(fmt, row[|row| - 1]);
    if |row| > 1 {
      var front := fields[..|fields| - 1];
      assert fields == front + [last];
      JoinWithAppend(front, last, ' ');
      var l := JoinWith(front, ' ') + [' '] + last;
      assert l[|l| - 1] == last[|last| - 1];
    }
  }

  /** The text the inner loop appends is the row's line and one trailing space. */
  lemma {:induction false} RowTextIsLine(row: seq<real>, fmt: Formatter)
    requires |row| > 0
    ensures RowText(row, fmt) == Line(row, fmt) + " "
    decreases |row|
  {
    var front := row[..|row| - 1];
    var last := fmt(row[|row| - 1]);
    if |front| > 0 {
      RowTextIsLine(front, fmt);
      assert Fields(row, fmt) == Fields(front, fmt) + [last];
      JoinWithAppend(Fields(front, fmt), last, ' ');
    }
  }

  /** One more row adds its line and a newline at the end of the table. */
  lemma RenderAppend(m: Matrix, row: seq<real>, fmt: Formatter)
    requires forall i :: 0 <= i < |m| ==> |m[i]| > 0
    requires |row| > 0
    ensures Render(m + [row], fmt) == Render(m, fmt) + Line(row, fmt) + "\n"
  {
    assert RowLines(m + [row], fmt) == RowLines(m, fmt) + [Line(row, fmt)];
    JoinLinesAppend(RowLines(m, fmt), Line(row, fmt), '\n');
  }

  /** A non-empty table starts with its first number. */
  lemma RenderStart(m: Matrix, fmt: Formatter)
    requires FormatLaw(fmt)
    requires forall i :: 0 <= i < |m| ==> |m[i]| > 0
    requires |m| > 0
    ensures var r := Render(m, fmt);
            |r| > 0 && !IsPythonSpace(r[0])
  {
    var parts := RowLines(m, fmt) + [""];
    LineEnds(m[0], fmt);
    assert parts[0] == Line(m[0], fmt);
  }

  /** Text that starts with a kept character, or is empty, then a line and a space: strip drops the space. */
  lemma StripLineSpace(done: string, line: string, text: string)
    requires |done| == 0 || !IsPythonSpace(done[0])
    requires |line| > 0 && !IsPythonSpace(line[0]) && !IsPythonSpace(line[|line| - 1])
    requires text == done + line + " "
    ensures Strip(text, IsPythonSpace) == done + line
  {
    var t := done + line;
    assert t[0] == if |done| == 0 then line[0] else done[0];
    assert t[|t| - 1] == line[|line| - 1];
    assert text == t + " ";
    StripTrailingSpace(t, IsPythonSpace);
  }

  /** The strip after a row takes off only the space the inner loop left at its end. */
  lemma StripAfterRow(front: Matrix, row: seq<real>, fmt: Formatter)
    requires FormatLaw(fmt)
    requires forall i :: 0 <= i < |front| ==> |front[i]| > 0
    requires |row| > 0
    ensures Strip(Render(front, fmt) + RowText(row, fmt), IsPythonSpace) == Render(front, fmt) + Line(row, fmt)
  {
    RenderStartOrEmpty(front, fmt);
    LineEnds(row, fmt);
    RowTextIsLine(row, fmt);
    StripLineSpace(Render(front, fmt), Line(row, fmt), Render(front, fmt) + RowText(row, fmt));
  }

  /** A table is empty or starts with a kept character. */
  lemma RenderStartOrEmpty(m: Matrix, fmt: Formatter)
    requires FormatLaw(fmt)
    requires forall i :: 0 <= i < |m| ==> |m[i]| > 0
    ensures var r := Render(m, fmt);
            |r| == 0 || !IsPythonSpace(r[0])
  {
    if |m| > 0 {
      RenderStart(m, fmt);
    } else {
      assert RowLines(m, fmt) + [""] == [""];
    }
  }

  /**
    The text `_write_array` builds is the documented table whenever every row
    has an entry: the strip after each row removes just that row's trailing
    space.
  */
  lemma {:induction false} AccumulatedIsRender(m: Matrix, fmt: Formatter)
    requires FormatLaw(fmt)
    requires forall i :: 0 <= i < |m| ==> |m[i]| > 0
    ensures Accumulated(m, fmt) == Render(m, fmt)
    decreases |m|
  {
    if |m| > 0 {
      AccumulatedIsRender(m[..|m| - 1], fmt);
      NextRowRenders(m, fmt);
    }
  }

  /** Stripping the table so far with the last row's text after it, then a newline, gives the whole table. */
  lemma NextRowRenders(m: Matrix, fmt: Formatter)
    requires FormatLaw(fmt)
    requires forall i :: 0 <= i < |m| ==> |m[i]| > 0
    requires |m| > 0
    ensures Strip(Render(m[..|m| - 1], fmt) + RowText(m[|m| - 1], fmt), IsPythonSpace) + "\n" == Render(m, fmt)
  {
    StripAfterRow(m[..|m| - 1], m[|m| - 1], fmt);
    RenderLast(m, fmt);
  }

  /** A table's text is that of all rows but the last, then the last row's line and a newline. */
  lemma RenderLast(m: Matrix, fmt: Formatter)
    requires forall i :: 0 <= i < |m| ==> |m[i]| > 0
    requires |m| > 0
    ensures Render(m, fmt) == Render(m[..|m| - 1], fmt) + Line(m[|m| - 1], fmt) + "\n"
  {
    var front := m[..|m| - 1];
    RenderAppend(front, m[|m| - 1], fmt);
    assert front + [m[|m| - 1]] == m;
  }

  /** No line of a table holds a newline. */
  lemma LineHasNoNewline(row: seq<real>, fmt: Formatter)
    requires FormatLaw(fmt) && |row| > 0
    ensures '\n' !in Line(row, fmt)
  {
    var fields := Fields(row, fmt);
    forall i | 0 <= i < |fields|
      ensures '\n' !in fields[i]
    {
      Formatted(fmt, row[i]);
    }
    JoinWithAvoids(fields, ' ', '\n');
  }

  /** The table has exactly one newline-ended line per row, and line i is row i. */
  lemma RenderLines(m: Matrix, fmt: Formatter)
    requires FormatLaw(fmt)
    requires forall i :: 0 <= i < |m| ==> |m[i]| > 0
    ensures SplitOn(Render(m, fmt), '\n') == RowLines(m, fmt) + [""]
  {
    var parts := RowLines(m, fmt) + [""];
    forall i | 0 <= i < |parts|
      ensures '\n' !in parts[i]
    {
      if i < |m| {
        LineHasNoNewline(m[i], fmt);
      }
    }
    SplitJoin(parts, '\n');
  }

  /** Splitting a line at its spaces gives back the formatted entries, one per column. */
  lemma LineFields(row: seq<real>, fmt: Formatter)
    requires FormatLaw(fmt) && |row| > 0
    ensures SplitOn(Line(row, fmt), ' ') == Fields(row, fmt)
  {
    var fields := Fields(row, fmt);
    forall i | 0 <= i < |fields|
      ensures ' ' !in fields[i]
    {
      Formatted(fmt, row[i]);
    }
    SplitJoin(fields, ' ');
  }

  /**
    The nine numbers `write_lists` puts after an image path: the first two
    rows of the planar pose's transform (two rotation entries and the
    translation each), then 0 0 1.
  */
  function PoseRow(t: Trig, pose: seq<real>): seq<real>
    requires |pose| >= 3
  {
    var r := EulerClosedForm(t.cos(0.0), t.sin(0.0), t.cos(0.0), t.sin(0.0), t.cos(pose[2]), t.sin(pose[2]));
    [r[0][0], r[0][1], pose[0], r[1][0], r[1][1], pose[1], 0.0, 0.0, 1.0]
  }

  /**
    The row holds exactly the entries `write_lists` picks out of
    `create_transform_matrix(x, y, 0, 0, 0, theta)`.
  */
  lemma PoseRowIsTransform(t: Trig, pose: seq<real>)
    requires |pose| >= 3
    ensures var m := CreateTransformMatrix(t, pose[0], pose[1], 0.0, 0.0, 0.0, pose[2]);
            PoseRow(t, pose) == [m[0][0], m[0][1], m[0][3], m[1][0], m[1][1], m[1][3], 0.0, 0.0, 1.0]
  {
    RotationIsEulerClosedForm(t, 0.0, 0.0, pose[2]);
  }

  /** The row of a pose (x, y, theta) is the 3x3 homogeneous 2-D transform, row by row. */
  lemma PoseRowPlanar(t: Trig, pose: seq<real>)
    requires ExactTrig(t) && |pose| >= 3
    ensures var c, s := t.cos(pose[2]), t.sin(pose[2]);
            PoseRow(t, pose) == [c, -s, pose[0], s, c, pose[1], 0.0, 0.0, 1.0]
  {
    PlanarPoseTransform(t, pose[0], pose[1], pose[2]);
  }

  /** A quarter turn at (x, y): 0 -1 x 1 0 y 0 0 1. */
  lemma QuarterTurnRow(t: Trig, x: real, y: real)
    requires ExactTrig(t)
    ensures PoseRow(t, [x, y, t.pi / 2.0]) == [0.0, -1.0, x, 1.0, 0.0, y, 0.0, 0.0, 1.0]
  {
    PoseRowPlanar(t, [x, y, t.pi / 2.0]);
  }

  /** The zero pose: the identity, 1 0 0 0 1 0 0 0 1. */
  lemma ZeroPoseRow(t: Trig)
    requires ExactTrig(t)
    ensures PoseRow(t, [0.0, 0.0, 0.0]) == [1.0, 0.0, 0.0, 0.0, 1.0, 0.0, 0.0, 0.0, 1.0]
  {
    PoseRowPlanar(t, [0.0, 0.0, 0.0]);
  }

  /** The image paths of a run of `count` images, relative to the output folder. */
  function ImagePaths(n: NameConfigurator, count: nat): (r: seq<string>)
    ensures |r| == count && forall i :: 0 <= i < count ==> r[i] == CreateImagePath(n, i, false)
  {
    seq(count, i requires 0 <= i < count => CreateImagePath(n, i, false))
  }

  /** The `.test` file as `write_lists` writes it: each path and a newline, in turn. */
  function TestText(paths: seq<string>): string
    decreases |paths|
  {
    if |paths| == 0 then "" else TestText(paths[..|paths| - 1]) + paths[|paths| - 1] + "\n"
  }

  /** The rows `write_lists` writes for `poses`, one per pose. */
  function PoseRows(t: Trig, poses: seq<seq<real>>): (r: seq<seq<real>>)
    requires forall i :: 0 <= i < |poses| ==> |poses[i]| >= 3
    ensures |r| == |poses| && NonEmptyRows(r)
    decreases |poses|
  {
    if |poses| == 0 then []
    else
      var k := |poses| - 1;
      PoseRows(t, poses[..k]) + [PoseRow(t, poses[k])]
  }

  /** Row i is the row of pose i. */
  lemma {:induction false} PoseRowsAt(t: Trig, poses: seq<seq<real>>, i: nat)
    requires forall i :: 0 <= i < |poses| ==> |poses[i]| >= 3
    requires i < |poses|
    ensures PoseRows(t, poses)[i] == PoseRow(t, poses[i])
    decreases |poses|
  {
    var k := |poses| - 1;
    if i < k {
      PoseRowsAt(t, poses[..k], i);
    }
  }

  /** Every row has at least one number, so each has a line. */
  predicate NonEmptyRows(rows: seq<seq<real>>) {
    forall i :: 0 <= i < |rows| ==> |rows[i]| > 0
  }

  /**
    A `_meters.txt` or `.txt` file as `write_lists` writes it: for each pose,
    its image's path and a newline, then the line of its row and a newline.
  */
  function PairedText(paths: seq<string>, rows: seq<seq<real>>, fmt: Formatter): string
    requires |paths| == |rows| && NonEmptyRows(rows)
    decreases |rows|
  {
    if |rows| == 0 then ""
    else
      var k := |rows| - 1;
      PairedText(paths[..k], rows[..k], fmt) + paths[k] + "\n" + Line(rows[k], fmt) + "\n"
  }

  /** The lines of a paired file, two per pose. */
  function PairedLines(paths: seq<string>, rows: seq<seq<real>>, fmt: Formatter): (r: seq<string>)
    requires |paths| == |rows| && NonEmptyRows(rows)
    ensures |r| == 2 * |rows|
    decreases |rows|
  {
    if |rows| == 0 then []
    else
      var k := |rows| - 1;
      PairedLines(paths[..k], rows[..k], fmt) + [paths[k], Line(rows[k], fmt)]
  }

  /** Line 2i of a paired file is path i, and line 2i + 1 is the numbers of row i. */
  lemma {:induction false} PairedLinesAt(paths: seq<string>, rows: seq<seq<real>>, fmt: Formatter, i: nat)
    requires |paths| == |rows| && NonEmptyRows(rows)
    requires i < |rows|
    ensures PairedLines(paths, rows, fmt)[2 * i] == paths[i]
    ensures PairedLines(paths, rows, fmt)[2 * i + 1] == Line(rows[i], fmt)
    decreases |rows|
  {
    var k := |rows| - 1;
    if i < k {
      PairedLinesAt(paths[..k], rows[..k], fmt, i);
    }
  }

  /** The `.test` file has one newline-ended line per image, and line i is image i's path. */
  lemma {:induction false} TestTextLines(paths: seq<string>)
    ensures TestText(paths) == JoinWith(paths + [""], '\n')
    decreases |paths|
  {
    if |paths| > 0 {
      var k := |paths| - 1;
      TestTextLines(paths[..k]);
      assert paths == paths[..k] + [paths[k]];
      JoinLinesAppend(paths[..k], paths[k], '\n');
    }
  }

  /** A paired file has two newline-ended lines per pose: the image path, then the pose's numbers. */
  lemma {:induction false} PairedTextLines(paths: seq<string>, rows: seq<seq<real>>, fmt: Formatter)
    requires |paths| == |rows| && NonEmptyRows(rows)
    ensures PairedText(paths, rows, fmt) == JoinWith(PairedLines(paths, rows, fmt) + [""], '\n')
    decreases |rows|
  {
    if |rows| > 0 {
      var k := |rows| - 1;
      var front := PairedLines(paths[..k], rows[..k], fmt);
      var line := Line(rows[k], fmt);
      assert PairedText(paths[..k], rows[..k], fmt) == JoinWith(front + [""], '\n') by {
        PairedTextLines(paths[..k], rows[..k], fmt);
      }
      JoinLinesAppend(front, paths[k], '\n');
      JoinLinesAppend(front + [paths[k]], line, '\n');
      assert PairedLines(paths, rows, fmt) == front + [paths[k]] + [line];
    }
  }

  /** What the inner loop has appended after one more entry. */
  lemma RowTextStep(row: seq<real>, j: nat, fmt: Formatter)
    requires j < |row|
    ensures RowText(row[..j + 1], fmt) == RowText(row[..j], fmt) + fmt(row[j]) + " "
  {
    assert row[..j + 1][..j] == row[..j];
  }

  /** `_write_array`'s text after one more row. */
  lemma AccumulatedStep(m: Matrix, i: nat, fmt: Formatter)
    requires i < |m|
    ensures Accumulated(m[..i + 1], fmt) == Strip(Accumulated(m[..i], fmt) + RowText(m[i], fmt), IsPythonSpace) + "\n"
  {
    assert m[..i + 1][..i] == m[..i];
  }

  /** A paired file after one more pose. */
  lemma PairedTextStep(paths: seq<string>, rows: seq<seq<real>>, i: nat, fmt: Formatter)
    requires |paths| == |rows| && NonEmptyRows(rows) && i < |rows|
    ensures PairedText(paths[..i + 1], rows[..i + 1], fmt)
            == PairedText(paths[..i], rows[..i], fmt) + (paths[i] + "\n") + (Line(rows[i], fmt) + "\n")
  {
    assert paths[..i + 1][..i] == paths[..i] && rows[..i + 1][..i] == rows[..i];
  }

  /** With no poses, all three list files are written empty. */
  lemma EmptyListFiles(n: NameConfigurator, t: Trig, fmt: Formatter)
    ensures var paths := ImagePaths(n, 0);
            TestText(paths) == "" && PairedText(paths, PoseRows(t, []), fmt) == ""
  {
  }

  /** The folder, under the output folder, that holds the camera's files. */
  const CameraFolder := "camera_properties"

  lemma CameraFolderIsName()
    ensures IsName(CameraFolder)
  {
    assert CameraFolder[0] == 'c';
  }

  const ListLengthMessage := "Provided lists must be the same length."

  /**
    The loops of `_write_array`: for each row every number formatted and
    followed by a space, the row's text stripped together with everything
    before it, then a newline.
  */
  method ArrayText(m: Matrix, fmt: Formatter) returns (output: string)
    requires IsRect(m)
    ensures output == Accumulated(m, fmt)
  {
    output := "";
    var i := 0;
    while i < |m|
      invariant 0 <= i <= |m|
      invariant output == Accumulated(m[..i], fmt)
    {
      output := AppendRow(output, m[i], fmt);
      output := Strip(output, IsPythonSpace);
      output := output + "\n";
      AccumulatedStep(m, i, fmt);
      i := i + 1;
    }
    assert m[..i] == m;
  }

  /** The inner loop of `_write_array`: each number of `row`, formatted, then a space. */
  method AppendRow(before: string, row: seq<real>, fmt: Formatter) returns (output: string)
    ensures output == before + RowText(row, fmt)
  {
    output := before;
    var j := 0;
    while j < |row|
      invariant 0 <= j <= |row|
      invariant output == before + RowText(row[..j], fmt)
    {
      RowTextStep(row, j, fmt);
      output := output + fmt(row[j]) + " ";
      j := j + 1;
    }
    assert row[..j] == row;
  }

  /**
    One turn of the loop `write_lists` runs for a paired file: the image's
    path line, then the pose's transform flattened to nine numbers, on one line.
  */
  method WritePose(fs: FileSystem, path: string, imagePath: string, poses: seq<seq<real>>, i: nat,
                   ghost rows: seq<seq<real>>, t: Trig, fmt: Formatter)
    requires forall k :: 0 <= k < |poses| ==> |poses[k]| >= 3
    requires path in fs.files && i < |poses| && rows == PoseRows(t, poses)
    modifies fs
    ensures fs.files == old(fs.files)[path := old(fs.files)[path] + imagePath + (Line(rows[i], fmt) + "\n")]
    ensures fs.dirs == old(fs.dirs) && fs.made == old(fs.made)
  {
    fs.Write(path, imagePath);
    var pose := poses[i];
    var rotation := CreateTransformMatrix(t, pose[0], pose[1], 0.0, 0.0, 0.0, pose[2]);
    var numbers := [rotation[0][0], rotation[0][1], rotation[0][3],
                    rotation[1][0], rotation[1][1], rotation[1][3], 0.0, 0.0, 1.0];
    assert numbers == rows[i] by {
      PoseRowIsTransform(t, pose);
      PoseRowsAt(t, poses, i);
    }
    fs.Write(path, Line(numbers, fmt) + "\n");
    Overwrite(old(fs.files), path, old(fs.files)[path] + imagePath, old(fs.files)[path] + imagePath + (Line(rows[i], fmt) + "\n"));
  }

  /** One pass of the loop over a paired list file: the file grows from the first `i` pairs to the first `i + 1`. */
  method WritePairedEntry(fs: FileSystem, path: string, ghost paths: seq<string>, imagePaths: seq<string>,
                          poses: seq<seq<real>>, i: nat, ghost rows: seq<seq<real>>, t: Trig, fmt: Formatter)
    requires |paths| == |imagePaths| == |poses| == |rows| && i < |poses|
    requires imagePaths[i] == paths[i] + "\n"
    requires forall k :: 0 <= k < |poses| ==> |poses[k]| >= 3
    requires rows == PoseRows(t, poses)
    requires path in fs.files && fs.files[path] == PairedText(paths[..i], rows[..i], fmt)
    modifies fs
    ensures fs.files == old(fs.files)[path := PairedText(paths[..i + 1], rows[..i + 1], fmt)]
    ensures fs.dirs == old(fs.dirs) && fs.made == old(fs.made)
  {
    WritePose(fs, path, imagePaths[i], poses, i, rows, t, fmt);
    PairedTextStep(paths, rows, i, fmt);
  }

  /** For each index below `count`, in order, the name `name` gives it and a newline. */
  method NumberedLines(count: nat, name: int -> string) returns (lines: seq<string>)
    ensures |lines| == count
    ensures forall k :: 0 <= k < count ==> lines[k] == name(k) + "\n"
  {
    lines := [];
    var i := 0;
    while i < count
      invariant 0 <= i <= count
      invariant |lines| == i
      invariant forall k :: 0 <= k < i ==> lines[k] == name(k) + "\n"
    {
      lines := lines + [name(i) + "\n"];
      i := i + 1;
    }
  }

  /** The `.test` part of `write_lists`: open the file, then write each image's line in turn. */
  method WriteTestFile(fs: FileSystem, path: string, ghost paths: seq<string>, imagePaths: seq<string>)
    requires |paths| == |imagePaths|
    requires forall k :: 0 <= k < |paths| ==> imagePaths[k] == paths[k] + "\n"
    modifies fs
    ensures fs.files == old(fs.files)[path := TestText(paths)]
    ensures fs.dirs == old(fs.dirs) && fs.made == old(fs.made)
  {
    fs.Open(path);
    ghost var written := "";
    var i := 0;
    while i < |imagePaths|
      invariant 0 <= i <= |imagePaths|
      invariant written == TestText(paths[..i])
      invariant fs.files == old(fs.files)[path := written]
      invariant fs.dirs == old(fs.dirs) && fs.made == old(fs.made)
    {
      fs.Write(path, imagePaths[i]);
      assert written + imagePaths[i] == TestText(paths[..i + 1]) by {
        assert paths[..i + 1][..i] == paths[..i];
      }
      Overwrite(old(fs.files), path, written, written + imagePaths[i]);
      written := written + imagePaths[i];
      i := i + 1;
    }
    assert paths[..i] == paths;
  }

  /** `open(path, mode='w')` followed by one `write(text)`: the file holds `text`. */
  method ReplaceFile(fs: FileSystem, path: string, text: string)
    modifies fs
    ensures fs.files == old(fs.files)[path := text]
    ensures fs.dirs == old(fs.dirs) && fs.made == old(fs.made)
  {
    fs.Open(path);
    fs.Write(path, text);
    assert "" + text == text;
    Overwrite(old(fs.files), path, "", text);
  }

  /**
    `DataWriter`: where a run's data goes. Building one makes sure the camera
    properties folder exists; the write methods each replace one file.
  */
  class DataWriter {
    const outputDirectory: string
    const cameraDirectory: string
    const cameraName: string
    const namer: NameConfigurator

    /**
      `DataWriter(output_folder, ...)` with working directory `cwd` and
      today's date `today`: `os.makedirs` on the camera properties folder
      only when nothing exists at that path yet.
    */
    constructor (fs: FileSystem, cwd: string, outputFolder: string, sequenceType: string,
                 sequenceNumber: int, textureNumber: int, cameraName: string, today: Date)
      requires IsAbsolute(cwd)
      modifies fs
      ensures outputDirectory == outputFolder && this.cameraName == cameraName
      ensures cameraDirectory == AbsPath(cwd, Join(outputFolder, CameraFolder))
      ensures namer == NewNameConfigurator(cwd, outputFolder, sequenceType, sequenceNumber,
                                           textureNumber, cameraName, today)
      ensures |cameraDirectory| > |CameraFolder|
      ensures cameraDirectory[|cameraDirectory| - |CameraFolder| - 1..] == "/" + CameraFolder
      ensures cameraDirectory in old(fs.dirs) || cameraDirectory in old(fs.files)
              ==> fs.dirs == old(fs.dirs) && fs.made == old(fs.made)
      ensures !(cameraDirectory in old(fs.dirs) || cameraDirectory in old(fs.files))
              ==> fs.dirs == old(fs.dirs) + Ancestors(cameraDirectory) + {cameraDirectory}
                  && fs.made == old(fs.made) + [cameraDirectory]
      ensures fs.Exists(cameraDirectory)
      ensures fs.files == old(fs.files)
    {
      var directory := AbsPath(cwd, Join(outputFolder, CameraFolder));
      assert |directory| > |CameraFolder|
             && directory[|directory| - |CameraFolder| - 1..] == "/" + CameraFolder by {
        CameraFolderIsName();
        AbsPathEndsWithName(cwd, outputFolder, CameraFolder);
      }
      outputDirectory := outputFolder;
      cameraDirectory := directory;
      this.cameraName := cameraName;
      namer := NewNameConfigurator(cwd, outputFolder, sequenceType, sequenceNumber,
                                   textureNumber, cameraName, today);
      new;
      if !fs.Exists(directory) {
        var _ := fs.MakeDirs(directory);
      }
    }

    function IntrinsicPath(): string {
      Join(cameraDirectory, cameraName + "_intrinsic_matrix.txt")
    }

    function PosePath(): string {
      Join(cameraDirectory, cameraName + "_pose.txt")
    }

    function TestPath(): string {
      Join(outputDirectory, TestFile(namer))
    }

    function MetersPath(): string {
      Join(outputDirectory, MetersTxtFile(namer))
    }

    function TxtPath(): string {
      Join(outputDirectory, TxtFile(namer))
    }

    /**
      `_write_array`: the text built by `ArrayText`, written over the file at
      `path` in one write.
    */
    method WriteArray(fs: FileSystem, m: Matrix, path: string, fmt: Formatter)
      requires IsRect(m)
      modifies fs
      ensures fs.files == old(fs.files)[path := Accumulated(m, fmt)]
      ensures fs.dirs == old(fs.dirs) && fs.made == old(fs.made)
    {
      var output := ArrayText(m, fmt);
      ReplaceFile(fs, path, output);
    }
    /**
      `write_camera_intrinsic_matrix`: ValueError, and no file touched,
      unless the matrix is 3x3; otherwise the table of its three rows.
    */
    method WriteCameraIntrinsicMatrix(fs: FileSystem, m: Matrix, fmt: Formatter) returns (r: Outcome<ShapeError>)
      modifies fs
      ensures !IsShape(m, 3, 3) ==> r == Fail(ValueError(3, 3)) && fs.files == old(fs.files)
      ensures IsShape(m, 3, 3) ==> r == Pass && fs.files == old(fs.files)[IntrinsicPath() := Accumulated(m, fmt)]
      ensures IsShape(m, 3, 3) && FormatLaw(fmt)
              ==> SplitOn(fs.files[IntrinsicPath()], '\n') == RowLines(m, fmt) + [""]
      ensures fs.dirs == old(fs.dirs) && fs.made == old(fs.made)
    {
      if !IsShape(m, 3, 3) {
        return Fail(ValueError(3, 3));
      }
      WriteArray(fs, m, IntrinsicPath(), fmt);
      if FormatLaw(fmt) {
        AccumulatedIsRender(m, fmt);
        RenderLines(m, fmt);
      }
      return Pass;
    }

    /**
      `write_camera_pose`: ValueError, and no file touched, unless the
      matrix is 4x4; otherwise the table of its four rows.
    */
    method WriteCameraPose(fs: FileSystem, m: Matrix, fmt: Formatter) returns (r: Outcome<ShapeError>)
      modifies fs
      ensures !IsShape(m, 4, 4) ==> r == Fail(ValueError(4, 4)) && fs.files == old(fs.files)
      ensures IsShape(m, 4, 4) ==> r == Pass && fs.files == old(fs.files)[PosePath() := Accumulated(m, fmt)]
      ensures IsShape(m, 4, 4) && FormatLaw(fmt)
              ==> SplitOn(fs.files[PosePath()], '\n') == RowLines(m, fmt) + [""]
      ensures fs.dirs == old(fs.dirs) && fs.made == old(fs.made)
    {
      if !IsShape(m, 4, 4) {
        return Fail(ValueError(4, 4));
      }
      WriteArray(fs, m, PosePath(), fmt);
      if FormatLaw(fmt) {
        AccumulatedIsRender(m, fmt);
        RenderLines(m, fmt);
      }
      return Pass;
    }
  
    /**
      `write_lists`: ValueError, before any file is opened, unless there are
      as many pixel poses as robot poses; otherwise the `.test` file with
      every image path, then `_meters.txt` with the robot poses and `.txt`
      with the pixel poses, each pose after its image's path.
    */
    method WriteLists(fs: FileSystem, robotPoses: seq<seq<real>>, pixelPoses: seq<seq<real>>,
                      t: Trig, fmt: Formatter) returns (r: Outcome<string>)
      requires forall i :: 0 <= i < |robotPoses| ==> |robotPoses[i]| >= 3
      requires forall i :: 0 <= i < |pixelPoses| ==> |pixelPoses[i]| >= 3
      modifies fs
      ensures |robotPoses| != |pixelPoses| ==> r == Fail(ListLengthMessage) && fs.files == old(fs.files)
      ensures |robotPoses| == |pixelPoses|
              ==> var paths := ImagePaths(namer, |robotPoses|);
                  && r == Pass
                  && fs.files == old(fs.files)[TestPath() := TestText(paths)]
                                              [MetersPath() := PairedText(paths, PoseRows(t, robotPoses), fmt)]
                                              [TxtPath() := PairedText(paths, PoseRows(t, pixelPoses), fmt)]
      ensures fs.dirs == old(fs.dirs) && fs.made == old(fs.made)
    {
      if |robotPoses| != |pixelPoses| {
        return Fail(ListLengthMessage);
      }
      ghost var paths := ImagePaths(namer, |robotPoses|);
      var imagePaths := ImagePathLines(|robotPoses|);
      WriteTestFile(fs, TestPath(), paths, imagePaths);
      WriteListFile(fs, MetersPath(), paths, imagePaths, robotPoses, PoseRows(t, robotPoses), t, fmt);
      WriteListFile(fs, TxtPath(), paths, imagePaths, pixelPoses, PoseRows(t, pixelPoses), t, fmt);
      return Pass;
    }

    /** The first loop of `write_lists`: each image's relative path with a newline. */
    method ImagePathLines(count: nat) returns (imagePaths: seq<string>)
      ensures |imagePaths| == count
      ensures forall k :: 0 <= k < count ==> imagePaths[k] == CreateImagePath(namer, k, false) + "\n"
    {
      imagePaths := NumberedLines(count, i => CreateImagePath(namer, i, false));
    }

    /**
      The loop `write_lists` runs for `_meters.txt` and again for `.txt`:
      open the file, then for each image its path and its pose's row.
    */
    method WriteListFile(fs: FileSystem, path: string, ghost paths: seq<string>, imagePaths: seq<string>,
                         poses: seq<seq<real>>, ghost rows: seq<seq<real>>, t: Trig, fmt: Formatter)
      requires |paths| == |imagePaths| == |poses| == |rows|
      requires forall k :: 0 <= k < |paths| ==> imagePaths[k] == paths[k] + "\n"
      requires forall k :: 0 <= k < |poses| ==> |poses[k]| >= 3
      requires rows == PoseRows(t, poses)
      modifies fs
      ensures NonEmptyRows(rows) && fs.files == old(fs.files)[path := PairedText(paths, rows, fmt)]
      ensures fs.dirs == old(fs.dirs) && fs.made == old(fs.made)
    {
      assert NonEmptyRows(rows);
      fs.Open(path);
      ghost var written := "";
      var i := 0;
      while i < |poses|
        invariant 0 <= i <= |poses|
        invariant written == PairedText(paths[..i], rows[..i], fmt)
        invariant fs.files == old(fs.files)[path := written]
        invariant fs.dirs == old(fs.dirs) && fs.made == old(fs.made)
      {
        WritePairedEntry(fs, path, paths, imagePaths, poses, i, rows, t, fmt);
        Overwrite(old(fs.files), path, written, PairedText(paths[..i + 1], rows[..i + 1], fmt));
        written := PairedText(paths[..i + 1], rows[..i + 1], fmt);
        i := i + 1;
      }
      assert paths[..i] == paths && rows[..i] == rows;
    }
  }
}
