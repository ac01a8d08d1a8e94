# learn_opengl launcher and fly camera, modelled in Dafny

The repository is a set of OpenGL tutorial exercises written in Rust. Most of
it is window, context, shader and buffer plumbing. This project models the
sequential logic inside it:

- **The exercise registry** (`src/lister.rs`). An ordered list of exercises,
  each with a chapter, a section and a name (the `Runner` capability set of
  `src/runner.rs`). An exercise is launched by a numeric `CHAPTER.SECTION` id
  or by its exact name. The first match in list order runs; otherwise
  `RunIDNotFound` is returned. The registry also has a fixed textual listing.
  Running an exercise is recorded in a run log (`Launch.ran`); the run itself
  is not modelled.
- **The entry point** (`src/main.rs`). The optional argument is classified as
  `Named(arg)` when it has no `.`. Otherwise it becomes `Numeric { chapter,
  section }` from the first two `.`-separated segments, parsed as `i32`; a
  segment that does not parse aborts. Then comes the launch, followed by the
  `DONE` banner or the help text on standard output.
- **The camera** (`src/camera.rs`). Position, basis vectors, yaw and pitch,
  and speed, sensitivity and zoom. Keyboard movement, pointer look (yaw wraps
  with Rust's `%`; pitch is optionally clamped to [-89, 89]) and scroll zoom
  (clamped to [1, 45]).
- **The input plumbing** (`src/common.rs`). The cursor tracker
  `(firstMouse, lastX, lastY)` that turns positions into offsets, the
  cursor/scroll arms of the event loop, and the W/S/A/D to movement mapping.

Modules: `Prelude` (option type, `i32`, first-match search), `Text` (Rust
`split`, `join`, `Display` of integers, `parse::<i32>`), `Lister`, `Cli`
(`main.rs`), `Vectors` (exact vector arithmetic), `Camera`, `Common`.

Abstractions:

- `f32` scalars are `real`, so every statement is exact arithmetic without
  rounding.
- `update_camera_vectors` (trigonometry and normalisation) is a function
  parameter `basis: BasisFn` of yaw, pitch and world up. Every camera
  statement holds whatever that function computes.
- `look_at_rh` is likewise a parameter of `GetViewMatrix`.
- Standard output is a string; each `println!` appends a line and `"\n"`.
- An `expect` failure is the `Panicked` outcome, carrying its message.

Two facts about the code that shape the model:

- Yaw is not wrapped into [0, 360). Rust's `%` keeps the sign of the dividend,
  so yaw lies in (-360, 360) and can be negative (`Camera.YawKeepsSign`).
- `src/common.rs` calls the camera through names (`Camera_Movement`,
  `ProcessMouseMovement`, `ProcessMouseScroll`, `ProcessKeyboard`) that
  `src/camera.rs` does not define. The model uses the definitions in
  `src/camera.rs` (`CameraMovement`, `process_mouse_movement`,
  `process_mouse_scroll`, `process_keyboard`).

## Model

| member | source | states |
|---|---|---|
| `Prelude.FindFirst` | src/lister.rs:42 | finds the first element satisfying the predicate, or none exactly when no element does |
| `Prelude.FindFirstUnique` | src/lister.rs:52 | when at most one element can satisfy the predicate, the search returns the index of any element that does |
| `Text.Split` | src/main.rs:22 | `split('.')` yields at least one piece, at least two exactly when the separator occurs, and no piece contains the separator |
| `Text.SplitCons` | src/main.rs:22 | splitting `a` + `.` + `t` with a `.`-free `a` gives `a` followed by the pieces of `t` |
| `Text.JoinSplit` | src/main.rs:22 | joining the pieces of a split with the separator rebuilds the string, so the split loses nothing |
| `Text.SplitJoin` | src/lister.rs:67 | splitting a newline join of newline-free lines gives the lines back |
| `Text.JoinReadsBack` | src/lister.rs:67 | for any one or more pieces free of the separator character, splitting their join gives the pieces back |
| `Text.JoinEnds` | src/lister.rs:67 | `join` of no pieces is empty; otherwise the result starts with the first piece, then the separator when there is a second piece, and ends with the last piece, so no separator leads or trails |
| `Text.NatToString` | src/lister.rs:75 | decimal digits of a natural number are non-empty, all digits, denote that number, and start with `0` only for zero |
| `Text.FormatInt` | src/lister.rs:75 | `Display` of an `i32`: a leading `-` exactly for negatives, then the digits of the magnitude without leading zeros; no `.`, `,` or line break |
| `Text.ParseI32` | src/main.rs:23-24 | `parse::<i32>` fails on empty text, on a lone sign and on any non-digit other than one leading sign; on success the value is the digits' value, negated after `-`; digits, with or without one leading sign, whose value fits in `i32` always parse |
| `Text.ParseRejects` | src/main.rs:23-24 | `1a`, ` 1`, `1 `, `+`, `-` and `--1` do not parse |
| `Text.ParseSigned` | src/main.rs:23-24 | `-12` parses to -12 and `+7` to 7 |
| `Text.FormatParseRoundTrip` | src/lister.rs:72-75 | parsing an `i32` as the listing prints it gives the same `i32` back |
| `Lister.New` | src/lister.rs:22-32 | the start-up registry holds five exercises, numbered 1.1 to 1.5 in order |
| `Lister.LaunchId` | src/lister.rs:39-62 | Ok exactly when some exercise matches the id (same chapter and section, or exactly equal name); then exactly the first match is run; on RunIDNotFound nothing runs |
| `Lister.LaunchRunsAtMostOnce` | src/lister.rs:42-58 | a launch runs at most one exercise, and one exactly when it reports Ok |
| `Lister.NewIsDistinct` | src/lister.rs:23-29 | the registered exercises have pairwise distinct numeric ids and pairwise distinct names |
| `Lister.NamesArePlain` | src/lister.rs:23-29 | no registered name contains a `.` or a line break |
| `Lister.LaunchDistinct` | src/lister.rs:42-46 | in a registry with distinct ids and names, any exercise the id designates is the one run |
| `Lister.LaunchNewByEitherId` | src/lister.rs:23-29 | every registered exercise is launched, alone, by its numeric id and by its name |
| `Lister.CameraNotLaunchable` | src/exercises/camera.rs:17-22 | the camera exercise (1.8, "camera") is not registered, so both ids give RunIDNotFound and run nothing |
| `Lister.NameLookupIsCaseSensitive` | src/lister.rs:52 | name lookup is whole-string and case-sensitive: "Shader" is not found, "shader" is |
| `Lister.Describe` | src/lister.rs:71-76 | a description line has no line break when the exercise name has none |
| `Lister.DescribeFields` | src/lister.rs:75 | for a name without a comma, the line splits at commas into `Ch: <chapter>`, ` S: <section>` and ` Name: "<name>"`, and the chapter and section parse back to the exercise's own numbers |
| `Lister.DescribeOneDigit` | src/lister.rs:71-76 | an exercise numbered 1.k is described as `Ch: 1, S: k, Name: "<name>"` |
| `Lister.Listing` | src/lister.rs:65-69 | an empty registry lists as empty text; otherwise, when no name spans lines, the listing reads back line by line as one description per exercise in registry order, with no trailing newline |
| `Lister.NewListing` | src/lister.rs:65-76 | the start-up listing has five lines, the k-th being `Ch: 1, S: k, Name: "<k-th name>"` |
| `Cli.Classify` | src/main.rs:21-29 | a `.`-free argument is `Named` unchanged; with a `.` it is never `Named`; the chapter error is raised exactly when the first segment does not parse; a numeric id carries the parsed first and second segments |
| `Cli.LeadingSegments` | src/main.rs:22-24 | the first two pieces of `a.b` and of `a.b.rest` are `a` and `b` |
| `Cli.ClassifySegments` | src/main.rs:21-26 | `a.b.rest` classifies as `a.b`; that is the numeric id of the parsed segments, or the chapter error, or the section error, checked in that order |
| `Cli.ClassifyFormatted` | src/main.rs:21-26 | any `chapter.section` pair printed in decimal classifies back to that numeric id |
| `Cli.ClassifyEmptySegments` | src/main.rs:23-24 | `1.` aborts on the section, `.3` and `.` abort on the chapter |
| `Cli.Help` | src/main.rs:44-51 | the help text starts with the line `ID not found` and ends with the full registry listing and a newline |
| `Cli.Run` | src/main.rs:16-42 | no argument prints help and launches nothing; an unreadable id aborts before any launch; otherwise one launch, then DONE on Ok or help on RunIDNotFound |
| `Cli.BannerOrHelp` | src/main.rs:31-38 | a completed run prints exactly one of DONE and help, and prints DONE exactly when it ran an exercise |
| `Cli.RunRegisteredByNumber` | src/main.rs:21-34 | each registered exercise runs, alone, from its `chapter.section` argument and the run ends with DONE |
| `Cli.RunRegisteredByName` | src/main.rs:27-34 | each registered exercise runs, alone, from its name and the run ends with DONE |
| `Cli.ClassifyTwoDigits` | src/main.rs:20-28 | an argument `c.s` of two digits is the numeric id of their values |
| `Cli.CameraPrintsHelp` | src/main.rs:31-37 | the arguments `1.8` and `camera` run nothing and print the help |
| `Camera.UpdateCameraVectors` | src/camera.rs:122-133 | recomputes front, right and up together from yaw, pitch and world up, and changes nothing else |
| `Camera.Default` | src/camera.rs:45-63 | the default camera is at the origin with yaw -90, pitch 0, speed 2.5, sensitivity 0.1, zoom 45, world up (0, 1, 0), basis derived from those angles |
| `Camera.New` | src/camera.rs:71-76 | a new camera is at the given point, with every other field at the defaults |
| `Camera.ProcessKeyboard` | src/camera.rs:84-92 | only the position changes, and it changes by exactly the movement's step: speed times elapsed time along front (forward +, backward -) or right (right +, left -) |
| `Camera.KeyboardIsStep` | src/camera.rs:84-92 | a keyboard movement is the camera with its step added to the position |
| `Camera.OppositeMovesCancel` | src/camera.rs:84-92 | forward then backward, or left then right (either order), over the same time restores the camera exactly |
| `Camera.KeyboardZeroTime` | src/camera.rs:84-92 | a movement over zero time is a no-op |
| `Camera.ForwardOneSecond` | src/camera.rs:84-92 | from (0, 0, 3) looking down -z, one second forward at the default speed reaches (0, 0, 0.5) |
| `Camera.Rem360` | src/camera.rs:99-100 | Rust's float `% 360.0`: strictly inside (-360, 360), same sign as the dividend, differs from it by whole turns, identity inside one turn |
| `Camera.ProcessMouseMovement` | src/camera.rs:95-112 | yaw becomes the scaled sum wrapped by `%` 360; pitch is the scaled sum, clamped to [-89, 89] exactly when constrained; basis recomputed; position, zoom, speed, sensitivity and world up unchanged |
| `Camera.ProcessMouseScroll` | src/camera.rs:115-119 | zoom becomes zoom minus the offset clamped to [1, 45]; every other field unchanged |
| `Camera.ScrollZeroIsNoOp` | src/camera.rs:115-119 | scrolling by zero from an in-range zoom changes nothing |
| `Camera.ScrollSticksAtBounds` | src/camera.rs:115-119 | at zoom 1 scrolling up, or at zoom 45 scrolling down, leaves the camera unchanged |
| `Camera.OperationsKeepValid` | src/camera.rs:71-119 | a new camera has a basis matching its angles, yaw in (-360, 360), zoom in [1, 45], world up (0, 1, 0); every operation keeps all of that |
| `Camera.GetZoomInRange` | src/camera.rs:66-68 | a valid camera reports a zoom in [1, 45] |
| `Camera.StillPointerIsNoOp` | src/camera.rs:95-112 | a zero pointer offset with the pitch constrained leaves a valid, in-range camera unchanged |
| `Camera.YawKeepsSign` | src/camera.rs:99-100 | yaw is not forced into [0, 360): from -90, a turn of -300 degrees gives -30 |
| `Camera.UnconstrainedPitchEscapes` | src/camera.rs:102-108 | without the constraint, pitch leaves [-89, 89] (100 degrees after 1000 units up) |
| `Camera.ViewMatrixIgnoresZoom` | src/camera.rs:79-81 | the view matrix depends on position, front and up only, so scrolling never changes it |
| `Common.TrackCursor` | src/common.rs:25-37 | the first position gives zero offsets; later ones give x minus last x and last y minus y; the tracker then holds this position and never snaps again |
| `Common.OffsetsTelescope` | src/common.rs:25-37 | over a run of positions, the x offsets sum to last x minus the reference x, and the y offsets to the reference y minus last y |
| `Common.ProcessEvent` | src/common.rs:20-47 | a cursor event updates the tracker to its position and turns the camera by the tracked offsets with the pitch constrained (zero offsets for the first one), leaving pitch in [-89, 89]; a scroll zooms by its vertical offset; other events change nothing |
| `Common.ProcessEvents` | src/common.rs:20-47 | a poll without cursor events leaves the tracker alone, and one of only resize and other events changes nothing |
| `Common.ProcessEventsAppend` | src/common.rs:20-47 | events are handled in order: handling `a` then `b` is handling `a + b` |
| `Common.CursorEventsTrack` | src/common.rs:20-40 | handling a run of cursor events moves the tracker exactly as tracking those positions does |
| `Common.ScrollIgnoresHorizontal` | src/common.rs:41-43 | a scroll event's horizontal offset has no effect |
| `Common.FirstMouseNeverReturns` | src/common.rs:27-31 | once cleared, firstMouse is never set again, and any cursor event clears it |
| `Common.EventKeepsCameraBounded` | src/common.rs:38-42 | one event keeps pitch within [-89, 89] and keeps a valid camera valid |
| `Common.EventsKeepCameraBounded` | src/common.rs:20-47 | along the event path pitch stays within [-89, 89] and a valid camera stays valid |
| `Common.KeyMovements` | src/common.rs:56-67 | each pressed key gives exactly one movement (W forward, S backward, A left, D right), and the movements follow the order W, S, A, D |
| `Common.ProcessInput` | src/common.rs:51-67 | the camera moves by the summed steps of the movements of the pressed keys, and nothing else changes |
| `Common.MovementsAreDisplacement` | src/common.rs:56-67 | a run of keyboard movements moves the position by the sum of its steps and changes nothing else |
| `Common.OpposingKeysCancel` | src/common.rs:56-67 | holding W with S, A with D, or all four leaves the camera where it was |

## Left out

- The `run` bodies of the exercises (`src/exercises/*.rs`): window creation, GL calls and foreign functions. Only their chapter, section and name are modelled, and a run is recorded in the run log.
- `src/shader.rs`: file reading, shader compilation and linking through the GL driver.
- `loadTexture` in `src/common.rs`: image decoding and texture upload.
- The `FramebufferSize` arm of the event loop: its viewport call is a GL side effect, so the model leaves tracker and camera unchanged.
- The Escape handling in `process_input`: it only asks the window to close.
- `update_camera_vectors` and `get_view_matrix`: trigonometry, normalisation and `look_at_rh` are function parameters. The basis is not proved orthonormal.
- f32 rounding, NaN and infinities: scalars are exact reals. The `f64` to `f32` casts of cursor and scroll values are the identity.
- Argument handling by `clap` (`Args::parse`): the model starts from the optional argument string. Flags, `--help`, and the reading of a leading `-` as an option are not modelled.
- The text of an `expect` panic beyond its message (the `ParseIntError` detail, the exit status), and what an exercise prints while it runs.
- `Camera.GetZoom`, `Camera.GetViewMatrix`: plain accessors without a contract of their own. They are covered by `Camera.GetZoomInRange` and `Camera.ViewMatrixIgnoresZoom`.
