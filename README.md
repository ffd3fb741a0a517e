# Ground texture data generator — verified model

This project models the deterministic core of the ground texture simulator. The simulator drives a
downward-looking camera over a textured ground plane and writes a dataset of images, poses and list
files. The model covers five parts:

- **Transforms** (`transforms.dfy`): the 4x4 homogeneous pose built from x, y, z and intrinsic
  roll-pitch-yaw angles. The `Transformer` class holds the camera's pose on the robot and its intrinsic
  matrix, both behind shape-checking setters. It computes the camera's world pose and projects the
  top-left image corner into the image aligned with the world origin.
- **Name configurator** (`name_configuration.dfy`): the zero-padded image paths
  `<type>/<YYMMDD>/seq<NNNN>/HDG2_t<TTT>_<type>_<YYYY-MM-DD>_s<NNNN>_<camera>_i<IIIIIII>.png` and the
  three list-file names.
- **Data writer** (`data_writer.dfy`, over the file system of `file_system.dfy`): it creates
  `<output>/camera_properties`, writes matrices as text tables, and writes the `.test`, `_meters.txt` and
  `.txt` list files.
- **Configuration loader** (`configuration_loader.dfy`): it validates a decoded configuration JSON, fills
  in the camera defaults and converts the sequence and texture numbers with Python's `int()`. It also
  parses the trajectory file and builds the camera's mounting pose.
- **Keyboard controller** (`keyboard_controller.dfy`): six last-press times, and the velocity command
  built from the keys pressed within the last 100 ms.

The helper modules are:

- `Matrices`: real matrices as sequences of rows.
- `Numerics`: sine, cosine, arccos and the matrix inverse, handed in as functions together with the laws
  the proofs use.
- `Text`: Python's `strip`, `split`, `int()` and `format(n, '0Nd')`.
- `Paths`: `os.path.join` and `os.path.abspath`.
- `Wrappers`: Option, Result and Outcome.

Floating-point numbers are modelled as reals. Trigonometry, `numpy.linalg.inv`, `float()` and the
`0.6f` format are function parameters. Each carries a law predicate in the `requires` clauses that need
it.

## Model

| member | source | states |
|---|---|---|
| Transforms.RollMatrix | ground_texture_sim/transforms.py:29-33 | the roll rotation is a 3x3 matrix about X |
| Transforms.PitchMatrix | ground_texture_sim/transforms.py:34-38 | the pitch rotation is a 3x3 matrix about Y |
| Transforms.YawMatrix | ground_texture_sim/transforms.py:39-43 | the yaw rotation is a 3x3 matrix about Z |
| Transforms.Rotation | ground_texture_sim/transforms.py:44 | Rroll·Rpitch·Ryaw is 3x3 |
| Transforms.CreateTransformMatrix | ground_texture_sim/transforms.py:25-45 | the result is 4x4 with bottom row [0,0,0,1] and last column (x, y, z, 1); its top-left 3x3 block is Rroll·Rpitch·Ryaw |
| Transforms.RotationIsEulerClosedForm | ground_texture_sim/transforms.py:29-44 | the rotation product equals the closed-form intrinsic RPY matrix entry by entry, for every angle |
| Transforms.EulerColumns | ground_texture_sim/transforms.py:29-44 | when each angle's sine and cosine lie on the unit circle, the closed form's three columns have unit length and are pairwise orthogonal |
| Transforms.EulerDeterminant | ground_texture_sim/transforms.py:29-44 | under the same condition the closed form has determinant +1 |
| Transforms.EulerOrthonormal | ground_texture_sim/transforms.py:29-44 | under the same condition the closed form satisfies RᵀR = I and det R = +1 |
| Transforms.RotationOrthonormal | ground_texture_sim/transforms.py:25-45 | when sin² + cos² = 1 at every angle, the rotation block of every pose is a proper rotation: RᵀR = I and det R = +1 |
| Transforms.ZeroPoseIsIdentity | ground_texture_sim/tests/test_transforms.py:29-37 | with exact trig values, all-zero pose parameters give the 4x4 identity |
| Transforms.QuarterTurnExample | ground_texture_sim/tests/test_transforms.py:14-27 | (1, 2, 3, π, π/2, −π/2) gives the matrix the transform test expects |
| Transforms.PlanarPoseTransform | ground_texture_sim/transforms.py:25-44 | a planar pose (x, y, θ) gives the yaw rotation [[cos θ, −sin θ], [sin θ, cos θ]] in the top-left block and translation (x, y, 0) |
| Transforms.ImageToCamera | ground_texture_sim/transforms.py:66-71 | the fixed image-to-camera axis change is 4x4 |
| Transforms.CornerYaw | ground_texture_sim/transforms.py:159-161 | yaw = arccos(R00), negated exactly when R10 < 0; for R00 in [−1, 1] it lies in [−π, π], is ≥ 0 when R10 ≥ 0 and ≤ 0 when R10 < 0 |
| Transforms.Transformer.Create | ground_texture_sim/transforms.py:53-71 | the constructor assigns through both setters: ValueError for a pose that is not 4x4 (checked first), then for intrinsics that are not 3x3; otherwise it yields a fresh object holding both matrices |
| Transforms.Transformer.SetCameraIntrinsicMatrix | ground_texture_sim/transforms.py:81-94 | a 3x3 matrix is stored; anything else gives ValueError and leaves the stored matrix unchanged |
| Transforms.Transformer.SetCameraPose | ground_texture_sim/transforms.py:104-116 | a 4x4 matrix is stored; anything else gives ValueError and leaves the stored pose unchanged |
| Transforms.Transformer.TransformCameraToWorld | ground_texture_sim/transforms.py:164-172 | the result is robot_pose·camera_pose; for an identity robot pose it is camera_pose, and for an identity camera pose it is robot_pose; reads only the camera pose |
| Transforms.CameraToWorldComposes | ground_texture_sim/transforms.py:172 | mapping a point through the camera's world pose equals mapping it through the camera pose, then the robot pose |
| Transforms.Transformer.ProjectImageCorner | ground_texture_sim/transforms.py:118-162 | LinAlgError exactly when one of the two inverses does not exist; a non-finite result exactly when the camera height is 0 or R00 lies outside [−1, 1]; otherwise three values whose third is CornerYaw; reads the object and changes nothing |
| Transforms.InverseKeepsLastRow | ground_texture_sim/transforms.py:139-140 | the inverse of an intrinsic matrix whose last row is [0, 0, 1] keeps that last row |
| Transforms.UnprojectReproject | ground_texture_sim/transforms.py:139-143 | un-projecting pixel (0, 0) at height h gives a point with depth h whose re-projection is (0, 0) |
| Transforms.InverseCancels | ground_texture_sim/transforms.py:144-149 | mapping through a transform, the identity robot pose, then the transform's inverse returns the point |
| Transforms.ProjectImageCornerAtOrigin | ground_texture_sim/tests/test_data_output.py:19-40 | for the identity robot pose, nonzero camera height and intrinsics with last row [0, 0, 1], the projected corner is (0, 0, 0) |
| Text.Strip | data_generation/configuration_loader.py:143 | the result is no longer than the input and has no stripped character at either end |
| Text.StripEmpty | data_generation/configuration_loader.py:143 | the stripped line is empty exactly when every character of the input is one that is stripped |
| Text.StripIdempotent | data_generation/configuration_loader.py:143 | stripping twice equals stripping once |
| Text.SplitOn | data_generation/configuration_loader.py:148 | `str.split(',')` gives at least one field and no field holds the separator |
| Text.JoinSplit | data_generation/configuration_loader.py:148 | joining the split fields with the separator gives back the line |
| Text.SplitJoin | data_generation/configuration_loader.py:148 | splitting fields that are free of the separator, once joined, gives back the fields |
| Text.SplitOnCount | data_generation/configuration_loader.py:148-149 | the number of fields is the number of separators plus one |
| Text.Lines | data_generation/configuration_loader.py:141 | iterating a text file gives lines holding no newline and no carriage return |
| Text.FormatInt | ground_texture_sim/name_configuration.py:57 | `format(n, '0Nd')` is at least N characters long, digits only exactly when n ≥ 0, and led by '-' exactly when n < 0 |
| Text.FormatIntWidth | ground_texture_sim/name_configuration.py:57 | a number with at most N digits is padded to exactly N characters |
| Text.FormatIntRoundTrip | ground_texture_sim/name_configuration.py:57 | `int()` reads back every `format(n, '0Nd')` as n, so longer numbers are not truncated |
| Text.FormatIntInjective | ground_texture_sim/name_configuration.py:61-64 | different numbers have different padded forms |
| Text.NatToStringValue | ground_texture_sim/name_configuration.py:57 | the decimal digits of n read back as n |
| Text.ParseInt | data_generation/configuration_loader.py:113-122 | `int(str)` accepts only a non-blank string once stripped |
| Text.InStringAt | data_generation/configuration_loader.py:93 | `key in s` on strings holds whenever the key occurs at some position of s |
| Text.ParseDigits | data_generation/configuration_loader.py:113-122 | a digit string, signed or not, parses to its value |
| Paths.Join | ground_texture_sim/name_configuration.py:58-59 | `os.path.join` gives b when b is absolute, otherwise a, a separator when a does not end in one, then b |
| Paths.JoinAssoc | ground_texture_sim/name_configuration.py:58-70 | joining is associative, so the absolute path is the output folder joined with the relative path |
| Paths.AbsPath | ground_texture_sim/name_configuration.py:25 | `os.path.abspath` always gives an absolute path |
| Paths.AbsPathEndsWithName | ground_texture_sim/data_writer.py:30-31 | the absolute form of `join(p, name)` ends in "/" + name |
| NameConfiguration.NewNameConfigurator | ground_texture_sim/name_configuration.py:25-37 | the output folder is made absolute and the date is taken once, at construction |
| NameConfiguration.FolderDate | ground_texture_sim/name_configuration.py:56 | `%y%m%d` is non-empty and ends in a digit |
| NameConfiguration.ImagePathLayout | ground_texture_sim/name_configuration.py:56-67 | the relative image path is the directory `<type>/<YYMMDD>/seq<NNNN>/` followed by the file name |
| NameConfiguration.RelativeAroundIndex | ground_texture_sim/name_configuration.py:64-67 | the relative path is a prefix that does not depend on the index, then the 7-digit index, then ".png" |
| NameConfiguration.AbsoluteImagePath | ground_texture_sim/name_configuration.py:68-70 | the absolute path is absolute and ends with the relative path |
| NameConfiguration.AbsoluteLead | ground_texture_sim/name_configuration.py:68-70 | the absolute path is the output folder joined with the relative path |
| NameConfiguration.RelativeStaysRelative | ground_texture_sim/name_configuration.py:58-67 | for a sequence type that is not an absolute path, the relative image path is not absolute |
| NameConfiguration.ImagePathsDistinct | ground_texture_sim/name_configuration.py:64-67 | two different indices give two different image paths |
| NameConfiguration.PaddedNumbers | ground_texture_sim/name_configuration.py:57-64 | the widths are 4 for seq and s, 3 for t and 7 for i; `int()` reads each padded number back exactly |
| NameConfiguration.ListFilesDistinct | ground_texture_sim/name_configuration.py:73-95 | the `.test`, `.txt` and `_meters.txt` names are pairwise distinct and all start with `<type>_<YYMMDD>` |
| NameConfiguration.FolderDateMatchesFileDate | ground_texture_sim/name_configuration.py:37-62 | for a calendar date, the folder's YYMMDD is the YY, MM and DD of the file name's YYYY-MM-DD |
| NameConfiguration.RegularRunNames | ground_texture_sim/tests/test_name_configuration.py:20-74 | the test's configurator ('/blah/output', 'regular', 3, 2, 'c01') gives the relative and absolute paths of image 5 and the three list-file names that the tests expect |
| NameConfiguration.PaddedExamples | ground_texture_sim/tests/test_name_configuration.py:33-34 | 3, 2 and 5 pad to "0003", "002" and "0000005" |
| Files.FileSystem.MakeDirs | ground_texture_sim/data_writer.py:33-34 | `os.makedirs` creates the directory and all its ancestors, or raises FileExistsError when it exists; files are untouched |
| Files.FileSystem.Open | ground_texture_sim/data_writer.py:62 | opening for writing truncates the file to empty |
| Files.FileSystem.Write | ground_texture_sim/data_writer.py:63 | a write appends to the file's text |
| Files.ParentIsAncestor | ground_texture_sim/data_writer.py:30-34 | the output folder is among the ancestors `makedirs` creates for `<output>/camera_properties` |
| Writer.Formatted | ground_texture_sim/data_writer.py:57 | a formatted number is non-empty, has no whitespace at either end and holds no space or newline |
| Writer.Fields | ground_texture_sim/data_writer.py:56-57 | one formatted string per entry, in order |
| Writer.RowLines | ground_texture_sim/data_writer.py:55-60 | one line per row, in order |
| Writer.AccumulatedIsRender | ground_texture_sim/data_writer.py:54-60 | the nested loop's text (each entry and a space, the row stripped, then a newline) equals the rows' lines each followed by a newline |
| Writer.RenderLines | ground_texture_sim/data_writer.py:54-60 | splitting the written table at newlines gives exactly the r row lines, then the empty rest |
| Writer.LineFields | ground_texture_sim/data_writer.py:57-59 | splitting a row line at spaces gives exactly its c formatted entries: single spaces and no trailing space |
| Writer.LineEnds | ground_texture_sim/data_writer.py:59 | a row line is non-empty and has no whitespace at either end |
| Writer.RenderStart | ground_texture_sim/data_writer.py:54-60 | a non-empty table does not start with whitespace, so stripping a later row never eats earlier text |
| Writer.StripAfterRow | ground_texture_sim/data_writer.py:59 | `output.strip()` after a row removes exactly that row's trailing space |
| Writer.ArrayText | ground_texture_sim/data_writer.py:54-60 | the loops' text equals the accumulated text of the specification |
| Writer.AppendRow | ground_texture_sim/data_writer.py:56-57 | the inner loop appends each formatted entry of the row and a space |
| Writer.PoseRow | ground_texture_sim/data_writer.py:138-142 | the nine numbers of a pose line |
| Writer.PoseRowIsTransform | ground_texture_sim/data_writer.py:138-142 | the pose line's numbers are entries [0,0], [0,1], [0,3], [1,0], [1,1] and [1,3] of `create_transform_matrix(x, y, 0, 0, 0, θ)`, then 0, 0, 1 |
| Writer.PoseRowPlanar | ground_texture_sim/data_writer.py:138-142 | with exact trig values the pose line is cos θ, −sin θ, x, sin θ, cos θ, y, 0, 0, 1 |
| Writer.QuarterTurnRow | ground_texture_sim/tests/test_data_writer.py:28-43 | the pose (x, y, π/2) gives 0, −1, x, 1, 0, y, 0, 0, 1 |
| Writer.ZeroPoseRow | ground_texture_sim/data_writer.py:138-142 | the zero pose gives the identity's entries |
| Writer.ImagePaths | ground_texture_sim/data_writer.py:121-124 | one path per pose; path i is the relative image path of index i |
| Writer.PoseRows | ground_texture_sim/data_writer.py:135-142 | one non-empty row per pose |
| Writer.PoseRowsAt | ground_texture_sim/data_writer.py:135-142 | row i is the row of pose i |
| Writer.PairedLines | ground_texture_sim/data_writer.py:134-143 | a paired list file has 2N lines |
| Writer.PairedLinesAt | ground_texture_sim/data_writer.py:134-143 | line 2i is image path i and line 2i + 1 is the line of pose i |
| Writer.PairedTextLines | ground_texture_sim/data_writer.py:134-155 | a paired file's text is its 2N lines, each ended by a newline |
| Writer.TestTextLines | ground_texture_sim/data_writer.py:128-130 | the `.test` file's text is its N image paths, each ended by a newline |
| Writer.EmptyListFiles | ground_texture_sim/data_writer.py:118-155 | with no poses all three list files are written empty |
| Writer.NumberedLines | ground_texture_sim/data_writer.py:121-124 | the image-path loop gives N entries; entry k is name k and a newline |
| Writer.WriteTestFile | ground_texture_sim/data_writer.py:128-130 | the `.test` file is replaced by the paths, each ended by a newline; no other file changes |
| Writer.WritePose | ground_texture_sim/data_writer.py:135-143 | one iteration appends image path i and the line of pose i, computed through the transform matrix |
| Writer.ReplaceFile | ground_texture_sim/data_writer.py:62-63 | opening with 'w' and writing leaves exactly the new text |
| Writer.DataWriter.constructor | ground_texture_sim/data_writer.py:16-39 | the camera directory is the absolute `<output>/camera_properties`; `makedirs` is called exactly when nothing existed there; afterwards it exists and no file has changed |
| Writer.DataWriter.WriteArray | ground_texture_sim/data_writer.py:41-63 | the file holds exactly the table text and nothing else changes |
| Writer.DataWriter.WriteCameraIntrinsicMatrix | ground_texture_sim/data_writer.py:65-81 | anything that is not 3x3 gives ValueError and writes nothing; otherwise `<camera>_intrinsic_matrix.txt` in the camera directory holds 3 lines of 3 fields |
| Writer.DataWriter.WriteCameraPose | ground_texture_sim/data_writer.py:83-99 | anything that is not 4x4 gives ValueError and writes nothing; otherwise `<camera>_pose.txt` in the camera directory holds 4 lines of 4 fields |
| Writer.DataWriter.WriteLists | ground_texture_sim/data_writer.py:101-155 | lists of different lengths give ValueError before any file is opened; otherwise `.test`, `_meters.txt` and `.txt` are replaced by the image paths, and by path and pose line pairs for the robot poses and for the pixel poses; nothing else changes |
| Writer.DataWriter.ImagePathLines | ground_texture_sim/data_writer.py:121-124 | entry k is the relative image path of index k and a newline |
| Writer.DataWriter.WriteListFile | ground_texture_sim/data_writer.py:132-155 | a paired file is replaced by its path and pose line pairs; nothing else changes |
| ConfigurationLoader.WithDefaults | data_generation/configuration_loader.py:96-106 | each missing camera field gets its default, present fields keep their values, and no other key is added |
| ConfigurationLoader.FillCameraDefaults | data_generation/configuration_loader.py:104-106 | the default-filling loop gives exactly WithDefaults |
| ConfigurationLoader.Truncate | data_generation/configuration_loader.py:113-122 | `int()` of a float truncates toward zero |
| ConfigurationLoader.IntOf | data_generation/configuration_loader.py:113-122 | ints pass unchanged; OverflowError exactly for ±Infinity |
| ConfigurationLoader.LoadConfig | data_generation/configuration_loader.py:85-123 | the checks, defaults and conversions, step by step, give exactly Validate |
| ConfigurationLoader.ValidateAccepts | data_generation/configuration_loader.py:88-123 | a configuration loads if and only if it has the four top-level keys, a named camera block, the three sequence keys, and both numbers convert |
| ConfigurationLoader.MissingTopLevelKey | data_generation/configuration_loader.py:88-90 | a missing `output`, `trajectory`, `camera` or `sequence` raises KeyError |
| ConfigurationLoader.MissingCameraNameKey | data_generation/configuration_loader.py:92-94 | a camera entry that `in` accepts but that lacks "name" raises KeyError: an object without the key, a string without the substring, a list without the element |
| ConfigurationLoader.MissingSequenceKey | data_generation/configuration_loader.py:108-111 | a sequence entry that `in` accepts, whether object, string or list, and that lacks `texture_number`, `sequence_type` or `sequence_number` raises KeyError |
| ConfigurationLoader.RejectsNumber | data_generation/configuration_loader.py:113-122 | a number `int()` rejects raises TypeError naming the entry; the sequence number is checked first |
| ConfigurationLoader.NonObjectBlocks | data_generation/configuration_loader.py:92-117 | a number, boolean or null camera or sequence entry is rejected at `in`; a string or list camera holding "name" is rejected at `.keys()`; a string or list sequence holding the three keys raises TypeError("sequence_number must be an integer") |
| ConfigurationLoader.NonObjectExamples | data_generation/configuration_loader.py:92-117 | a camera "abc" or [] raises KeyError; ["name"] or 3 as the camera is rejected as not a dictionary; a sequence list of the three key names raises the sequence-number TypeError; a sequence "abc" raises KeyError |
| ConfigurationLoader.ValidateResult | data_generation/configuration_loader.py:96-123 | a loaded configuration keeps its keys; the camera block gains the defaults, both numbers become their `int()`, and nothing else changes |
| ConfigurationLoader.WithDefaultsIdempotent | data_generation/configuration_loader.py:104-106 | filling twice is filling once, and a full camera block is unchanged |
| ConfigurationLoader.ValidateIdempotent | data_generation/configuration_loader.py:104-123 | loading a loaded configuration gives it back unchanged |
| ConfigurationLoader.IntOfString | data_generation/configuration_loader.py:113-122 | `int()` of a string is Python's signed-integer parse of it |
| ConfigurationLoader.IntOfStrings | ground_texture_sim/tests/test_configuration_loader.py:164-223 | "2" converts to 2; "blah" and "2.1" are rejected |
| ConfigurationLoader.IntOfScalars | data_generation/configuration_loader.py:113-122 | 2.7 converts to 2, −2.7 to −2 and true to 1; NaN and null are rejected |
| ConfigurationLoader.IntOfFormatted | data_generation/configuration_loader.py:113-122 | `int()` reads back every zero-padded integer |
| ConfigurationLoader.ExampleDefaults | ground_texture_sim/tests/test_configuration_loader.py:141-162 | the tests' camera block without options gets the default values; a block with all options is unchanged |
| ConfigurationLoader.ExampleLoads | ground_texture_sim/tests/test_configuration_loader.py:188-199 | the tests' configuration without camera options loads to the one with every default; the full one loads to itself |
| ConfigurationLoader.ExampleRejects | ground_texture_sim/tests/test_configuration_loader.py:164-223 | a rejected number in the tests' configuration raises TypeError |
| ConfigurationLoader.ExampleAccepts | ground_texture_sim/tests/test_configuration_loader.py:164-223 | an accepted number in the tests' configuration is stored as its `int()` |
| ConfigurationLoader.ExampleNumberStrings | ground_texture_sim/tests/test_configuration_loader.py:164-223 | a sequence or texture number of "blah" or "2.1" raises TypeError; "2" loads as 2 |
| ConfigurationLoader.CreateCameraPose | data_generation/configuration_loader.py:11-43 | the camera pose is `create_transform_matrix` of the camera block's six values |
| ConfigurationLoader.DefaultCameraPose | data_generation/configuration_loader.py:20-43 | a camera block filled with defaults gives the pose (0, 0, 0, 0, 1.5708, 0) |
| ConfigurationLoader.ParseFields | data_generation/configuration_loader.py:152-156 | the fields parse exactly when every field parses, one value per field |
| ConfigurationLoader.ReadPose | data_generation/configuration_loader.py:153-156 | the field loop gives exactly ParseFields |
| ConfigurationLoader.ParsePose | data_generation/configuration_loader.py:148-159 | a line parses exactly when it splits into 3 comma fields that all parse, giving 3 values; otherwise RuntimeError with the message naming the line |
| ConfigurationLoader.LoadTrajectory | data_generation/configuration_loader.py:139-160 | the line loop gives exactly ParseTrajectory of the file's lines |
| ConfigurationLoader.TrajectoryOfNonBlank | data_generation/configuration_loader.py:143-147 | blank lines are skipped: the trajectory is the parse of the non-blank stripped lines |
| ConfigurationLoader.NonBlank | data_generation/configuration_loader.py:143-147 | every kept line is non-empty |
| ConfigurationLoader.ParseAllSuccess | data_generation/configuration_loader.py:148-160 | the parse succeeds exactly when every line is a pose; it then gives one pose per line, in order |
| ConfigurationLoader.ParseAllFailure | data_generation/configuration_loader.py:148-160 | a failure names the first line that is not a pose |
| ConfigurationLoader.TrajectoryPoses | data_generation/configuration_loader.py:139-160 | success exactly when every non-blank line is a pose; the poses follow line order; on failure the message names the first bad line |
| ConfigurationLoader.BlankTrajectory | data_generation/configuration_loader.py:143-147 | input with only blank lines gives no poses |
| ConfigurationLoader.EmptyFileTrajectory | ground_texture_sim/tests/test_configuration_loader.py:231-241 | a file of blank lines gives the empty trajectory |
| ConfigurationLoader.NotFullPoseTrajectory | ground_texture_sim/tests/test_configuration_loader.py:256-268 | a line "0.0,0.0," after a valid line raises RuntimeError naming it |
| ConfigurationLoader.TwoFieldTrajectory | data_generation/configuration_loader.py:148-151 | a two-field line raises RuntimeError naming it |
| ConfigurationLoader.NotNumbersTrajectory | ground_texture_sim/tests/test_configuration_loader.py:270-279 | a line "0.0,0.0,the" after a valid line raises RuntimeError naming it |
| ConfigurationLoader.NoWhitespaceTrajectory | ground_texture_sim/tests/test_configuration_loader.py:281-293 | the test's two unspaced lines give the two poses, in order |
| ConfigurationLoader.WhitespaceTrajectory | ground_texture_sim/tests/test_configuration_loader.py:295-312 | the spaced lines, with trailing blank lines, give the same two poses |
| ConfigurationLoader.TrailingSpaceLine | data_generation/configuration_loader.py:148-156 | a field with a space before its comma, as in "1.0 ,2.0,3.0", still reads as its number |
| Keyboard.KeyOfData | src/KeyboardController.cpp:55-80 | the low byte of the data names a key exactly when it is A, S, W, D, Q or E |
| Keyboard.KeyCodeSelects | src/KeyboardController.cpp:55-80 | each key's character, with any multiple of 256 added, selects that key |
| Keyboard.Press | src/KeyboardController.cpp:58-80 | exactly the matching key's time becomes `now`; every other time is kept |
| Keyboard.OtherCharacterIgnored | src/KeyboardController.cpp:77-79 | any other character changes no time |
| Keyboard.ContributesExactly | src/KeyboardController.cpp:21-43 | a key contributes if and only if now − press time ≤ 100 ms |
| Keyboard.CommandComponents | src/KeyboardController.cpp:17-48 | linear y is left minus right; linear z is forward minus back; angular x is clockwise minus counterclockwise; the other components are 0 |
| Keyboard.IdleIsStill | src/KeyboardController.cpp:4-12 | a controller that was never pressed commands no motion at any time after the epoch |
| Keyboard.CommandRange | src/KeyboardController.cpp:17-48 | linear x, angular y and angular z are 0; the other components lie in {−speed, 0, speed} |
| Keyboard.OppositeKeysCancel | src/KeyboardController.cpp:26-43 | two opposite keys both recent cancel on their component |
| Keyboard.SingleKeyCommand | test/test_keyboard_controller.cpp:65-119 | one key pressed within 100 ms on a fresh controller gives exactly that key's velocity |
| Keyboard.ClockwiseAsWritten | src/KeyboardController.cpp:38-40 | pressing 'E' turns at 0.5 with the speed the code uses, and at 0.25 with the declared angular speed |
| Keyboard.KeyboardController.constructor | src/KeyboardController.cpp:4-12 | all six press times start at the epoch |
| Keyboard.KeyboardController.RegisterKeypress | src/KeyboardController.cpp:52-81 | the new times are Press of the old times: only the matching key's time is set to `now` |
| Keyboard.KeyboardController.CreateMessageAsWritten | src/KeyboardController.cpp:14-50 | the message is the sum of the recent keys' velocities, turning at `linear_speed`; no time changes |
| Keyboard.KeyboardController.CreateMessage | src/KeyboardController.cpp:14-50 | the corrected message, turning at `angular_speed`; no time changes |
| Keyboard.KeyboardController.Accumulate | src/KeyboardController.cpp:17-48 | the six conditional updates of the running sums give exactly Command |

## Left out

- Reading files, `json.load`, `os.path.exists` against a real disk, and the system clock are not modelled.
  The loader starts from the decoded JSON object and from the text of the trajectory file. The keyboard
  takes `now` as a parameter.
- `load_configuration` and `_parse_args` (data_generation/configuration_loader.py:46-65, 163-184) are not
  modelled. The first only chains file reads; the second is argparse command-line plumbing.
- Floating point: every number is a real, so rounding, NaN propagation in numpy and signed zeros are
  absent. Exact sums of 0.5 and 0.25 are unaffected.
- Trigonometry, `numpy.linalg.inv`, `float()` and the `0.6f` format are function parameters, constrained
  only by the laws the proofs need:
  - exact values at 0, ±π/2 and π, and the range of arccos;
  - sin² + cos² = 1 at every angle, required only by the orthonormality lemmas;
  - the inverse is a two-sided inverse;
  - `float()` fails on "" and "the" and ignores whitespace at either end;
  - a formatted number is non-empty and holds no whitespace.

  Six-decimal rounding and `-0.000000` are therefore not captured.
- Transforms.Transformer.ProjectImageCorner: numpy returns NaN or infinity without raising, for a zero
  camera height or |R00| > 1. The model reports that case as a NonFinite failure instead of the non-finite
  numbers.
- Transforms.Transformer.Create: like `__init__`, it runs the pose setter, then the intrinsics setter.
  The only difference is that a ValueError is returned as a Result instead of raised.
- ConfigurationLoader.IntOf: `int()` of a string made of non-ASCII Unicode digits (Arabic-Indic,
  fullwidth and the like) is rejected here, where Python accepts it.
- JSON object key order is not kept: objects are maps.
- ConfigurationLoader.CreateCameraPose: requires the six pose entries to be JSON numbers (ints, booleans
  or finite floats). Other values are not modelled. A string entry raises in numpy, except that a numeric
  string such as "1.5" in x, y or z is converted when it is written into the pose array. A null, list or
  object entry raises, and NaN or infinity gives non-finite pose entries.
- ConfigurationLoader.Validate: `NotAnObject` stands for two Python exceptions, the TypeError of `in` on a
  number, boolean or null entry and the AttributeError of `.keys()` on a string or list camera. Their
  messages are not modelled.
- The `%Y` year is padded to four digits. This matches glibc only for years ≥ 1000.
- The file system is a set of directories plus a map from paths to file texts. Permissions, I/O errors,
  and a file standing where a directory is expected are not modelled.
- Files.FileSystem: paths are compared as strings and never resolved against the working directory.
  The camera folder is absolute, but the list files join the output folder as given, which may be
  relative (ground_texture_sim/data_writer.py:126-127, 132-133 and 144-145). So `out/x.test` and `/cwd/out/x.test` are two
  entries of the model where the disk has one file, and `..` or repeated `/` are not collapsed.
- Writer.DataWriter.WriteLists requires every pose to have at least 3 entries. Python would raise
  IndexError part-way through writing a file, leaving it half written; that case is not modelled.
- Writer.DataWriter.WriteLists: the pose line is specified by a closed-form rotation. Writer.PoseRowIsTransform
  proves it equal to the `create_transform_matrix` entries the source formats. The integers 0, 0, 1 that
  the source formats are formatted as the reals 0.0, 0.0, 1.0.
- Keyboard.KeyboardController: the atomics become plain fields, and concurrent access is not modelled.
  Millisecond times are unbounded integers, so 64-bit overflow is absent.
- Keyboard.KeyOfData: `static_cast<char>` keeps the low 8 bits of the data, as it does on
  two's-complement targets.
- The header's key table (include/ground_texture_sim/KeyboardController.h:22-29) gives A −0.5 and D
  +0.5 on Y, and Q +0.25 and E −0.25 on theta. The code and its test give the opposite signs, and the
  model follows the code.

## Findings

| source | as written | input that shows it | evidently intended | confidence | as-written member | corrected member |
|---|---|---|---|---|---|---|
| src/KeyboardController.cpp:38-43 | the clockwise and counterclockwise keys add and subtract `linear_speed` (0.5) to angular x; `angular_speed` (0.25, line 23) is never used | 'E' pressed on a fresh controller and the message built within 100 ms: angular x is 0.5 | the turning keys use `angular_speed`, giving ±0.25, as test/test_keyboard_controller.cpp:105-119 expects | not executed | Keyboard.ClockwiseAsWritten | Keyboard.KeyboardController.CreateMessage |
