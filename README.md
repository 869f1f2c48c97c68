# code-to-video: a Dafny model of the step logic

The project renders a list of highlighted code snapshots as a video. Each
step's code animates, token by token, out of the previous step's code. This
model covers the three parts of the repository that hold logic rather than
UI wiring:

- **`CodeTransition` (code_transition.dfy)** models one mounted step.
  It picks the code shown at a frame: the previous code, or on the first
  step the new code stripped of tokens and annotations. It takes the layout
  snapshot once. On each layout-effect run from `transitionDelayInFrames`
  on, once the snapshot exists, it computes every transition's frame window
  and clamped linear progress, records one `applyStyle` call per
  transition in order, and then opens the render gate. The run that
  captures the snapshot, and every run before `transitionDelayInFrames`,
  return early and do neither.
  The mounted step is a class, `Scene`. Its `oldSnapshot` field is set at
  most once, `released` records `continueRender`, and `applied` logs the
  style applications. The window and progress arithmetic are pure functions
  over `real`, which is exact.
- **`Timeline` (timeline.dfy)** models how `Main` turns the steps and the
  composition's duration into sequences. A missing step list fails first,
  and a missing theme fails second. Otherwise there is one sequence per
  step, each `floor(duration / steps)` frames long, fed the previous step's
  code, with a fixed 30-frame transition window, and with the step's audio
  only when a non-empty source was loaded for it.
- **`GetFiles` (get_files.dfy)** models the public-folder files. It filters
  the files by name prefix into code, audio and story files. It pairs them
  by index in `getFiles` and `getAudioWithStory`. It also models
  `extractCodeName`, the regular expression that takes the last path
  segment before `.xml`. Network results are given as functions from URL to
  the text or the parsed script, where `None` means the promise rejects.
  `Promise.all` is `All`.
- `Wrappers` (wrappers.dfy) holds `Option` and `Result`.

Three points about the step logic:

- A step has no separate transitioning state for the content it shows:
  from `transitionDelayInFrames` on it always shows the new code.
  `CodeTransition.PhaseAt` gives a four-phase reading of a step, and
  `CodeShownByPhase` relates it to `CodeShown`.
- The steps need not fill the composition: `floor(duration / steps)` can
  leave frames unused. `PlanFitsDuration` proves that the total never
  exceeds the duration.
- The snapshot is captured from two effects, and each checks the
  `oldSnapshot` of the render that scheduled it. On mount both see none:
  the layout effect captures, and the passive effect then captures again
  from the unchanged DOM. The model's effects read the scene's current
  state, so there the second capture keeps the first snapshot.

A few JavaScript coercions are modelled as written:

- `fetch(undefined)` requests the URL `"undefined"`.
- `script[null]` reads the key `"null"`.
- `extractCodeName(undefined)` throws. So `getAudioWithStory` rejects
  whenever there are more audio files than code files.

## Model

| member | source | states |
|---|---|---|
| `CodeTransition.PrevCode` | src/CodeTransition.tsx:36-38 | the previous code is `oldCode` when one is given; otherwise it is `newCode` with empty `tokens` and `annotations` and the same text, language and meta |
| `CodeTransition.CodeShown` | src/CodeTransition.tsx:40-46 | the shown code is always the previous or the new code; without a snapshot it is the previous code for every frame; with one it is the new code exactly from `frame >= transitionDelayInFrames` and the previous code before |
| `CodeTransition.CodeShownByPhase` | src/CodeTransition.tsx:40-46 | when the two codes differ, the new code is shown exactly in the two later phases of a four-phase reading of the step (snapshot taken and `frame >= transitionDelayInFrames`) |
| `CodeTransition.WindowStart` | src/CodeTransition.tsx:68 | a transition starts no earlier than `transitionDelayInFrames` when its delay fraction is non-negative, and no later than the end of the step's window when the fraction is at most 1 |
| `CodeTransition.WindowLength` | src/CodeTransition.tsx:69 | a transition of positive duration fraction lasts a positive number of frames, and one of fraction at most 1 lasts no longer than the step's window |
| `CodeTransition.WindowInsideStep` | src/CodeTransition.tsx:68-69 | a transition starts at `transitionDelayInFrames + durationInFrames*delay` and lasts `durationInFrames*duration`; with fractions in the unit window this lies inside the step's window and has positive length |
| `CodeTransition.LinearProgress` | src/CodeTransition.tsx:70-78 | clamped interpolation: the result lies in [0, 1]; it is 0 at or before the window's start, 1 at or after its end, and the elapsed share of the window in between |
| `CodeTransition.LinearProgressMonotone` | src/CodeTransition.tsx:70-78 | linear progress never decreases as the frame advances |
| `CodeTransition.StyleCallFor` | src/CodeTransition.tsx:67-88 | the `applyStyle` call for a transition targets that transition's element and keyframes, carries a linear progress in [0, 1] and the eased progress of it |
| `CodeTransition.StyleCalls` | src/CodeTransition.tsx:66-89 | an applying run makes exactly one call per transition, the i-th for the i-th transition |
| `CodeTransition.StyleCallsSnoc` | src/CodeTransition.tsx:67-89 | the calls follow the transition list: one more transition appends exactly one more call at the end |
| `CodeTransition.StyleCallsTargetTheirElements` | src/CodeTransition.tsx:67-89 | the i-th call is aimed at the i-th transition's own element and its linear progress is in [0, 1]; its eased progress is in [0, 1] when the easing maps [0, 1] into itself |
| `CodeTransition.NotStartedBeforeDelay` | src/CodeTransition.tsx:61-78 | up to `transitionDelayInFrames`, a transition with a non-negative delay fraction is at linear progress 0, and, when the easing maps 0 to 0, at eased progress 0 (start keyframe) |
| `CodeTransition.FinishedAfterWindow` | src/CodeTransition.tsx:68-78 | once the step's window has closed, every transition whose fractions fit the window is at linear progress 1, and, when the easing maps 1 to 1, at eased progress 1 (end keyframe) |
| `CodeTransition.Scene.Code` | src/CodeTransition.tsx:43-46 | the code rendered is the previous or the new code; the previous code while there is no snapshot; with a snapshot, the new code from `transitionDelayInFrames` on and the previous code before |
| `CodeTransition.Scene.constructor` | src/CodeTransition.tsx:18-34 | a mounted step has the given props, no snapshot, the render gate held and no style applied |
| `CodeTransition.Scene.CaptureEffect` | src/CodeTransition.tsx:48-52 | the passive effect sets the snapshot only when it finds none, and otherwise leaves it; nothing else changes |
| `CodeTransition.Scene.LayoutEffect` | src/CodeTransition.tsx:55-91 | the run that captures the snapshot applies nothing and keeps the gate; a run before the delay changes nothing; any other run leaves the snapshot alone, appends one call per transition in order and opens the gate; the gate is never open without a snapshot |
| `GetFiles.WithPrefix` | src/calculate-metadata/get-files.ts:18-20 | the filtered files are exactly the files whose name starts with the prefix |
| `GetFiles.WithPrefixConcat` | src/calculate-metadata/get-files.ts:18-20 | filtering distributes over concatenation, so the files keep the folder's order |
| `GetFiles.WithPrefixKeepsMatching` | src/calculate-metadata/get-files.ts:18-20 | a folder whose files all match is returned whole and in order |
| `GetFiles.LastSlash` | src/calculate-metadata/get-files.ts:43 | the position found holds a `/` with none after it; no position means there is no `/` |
| `GetFiles.ExtractCodeName` | src/calculate-metadata/get-files.ts:42-46 | a match is non-empty and slash-free, and the input is some prefix, `/`, the match and `.xml` |
| `GetFiles.ExtractCodeNameRoundTrip` | src/calculate-metadata/get-files.ts:37-46 | for a non-empty slash-free name, `extractCodeName(path + "/" + name + ".xml")` is the name; with `ExtractCodeName`'s contract, the result is null exactly for inputs not of that form |
| `GetFiles.ExtractCodeNameExample` | src/calculate-metadata/get-files.ts:37-41 | the documented example `"react-native/code1.xml"` gives `"code1"` |
| `GetFiles.All` | src/calculate-metadata/get-files.ts:34 | `Promise.all`: success exactly when every item succeeds, the values then in item order; otherwise the error of the first failing item |
| `GetFiles.AudioSrcAt` | src/calculate-metadata/get-files.ts:31 | the i-th record's audio is present exactly when an i-th audio file exists, and then it is that file's URL |
| `GetFiles.FileRecord` | src/calculate-metadata/get-files.ts:22-32 | the i-th record is built exactly when the i-th code file's fetch succeeds and, if an i-th story file exists, its fetch too; a failed fetch rejects with that URL, the code file's first; a built record holds the code file's name and text, the i-th audio URL and the i-th script exactly when there is a story file |
| `GetFiles.GetFiles` | src/calculate-metadata/get-files.ts:16-35 | one record per code file, in order, when every record can be built |
| `GetFiles.GetFilesSucceeds` | src/calculate-metadata/get-files.ts:22-34 | `getFiles` succeeds exactly when each code file's fetch succeeds and, where a story file of the same index exists, its fetch succeeds |
| `GetFiles.GetFilesRecord` | src/calculate-metadata/get-files.ts:22-31 | the i-th record has the i-th code file's name and contents; its audio is the i-th audio file's URL, present exactly when that file exists; its script is the i-th story file's, present exactly when that file exists |
| `GetFiles.ScriptKey` | src/calculate-metadata/get-files.ts:60-64 | the script is read under the code name `extractCodeName` gives, or under `"null"` when it gives none; the key is never empty |
| `GetFiles.StoryUrl` | src/calculate-metadata/get-files.ts:56 | the i-th script is fetched from the i-th story file's URL, or from `"undefined"` when there is no i-th story file |
| `GetFiles.AudioEntry` | src/calculate-metadata/get-files.ts:55-66 | the i-th entry is built exactly when the script fetch succeeds and an i-th code file exists; a failed fetch rejects with the URL, a missing code file with `NoCodeFile`; a built entry holds the i-th audio URL and the script's duration under `ScriptKey` of the code file's name, none when the key is absent |
| `GetFiles.GetAudioWithStory` | src/calculate-metadata/get-files.ts:48-69 | one entry per audio file, in order, when every entry can be built |
| `GetFiles.GetAudioWithStoryEntry` | src/calculate-metadata/get-files.ts:55-66 | the i-th entry has the i-th audio file's URL; its duration is the one in the i-th script, under the key `extractCodeName` gives for the i-th code file's name, and undefined when that key is absent |
| `GetFiles.GetAudioWithStoryNeedsCodeFiles` | src/calculate-metadata/get-files.ts:59-64 | with more audio files than code files the call rejects |
| `Timeline.Plan` | src/Main.tsx:23-105 | missing steps fail with "Steps are not defined", whatever the theme; steps with a missing theme fail with "Theme colors are not defined"; otherwise one sequence per step, in order |
| `Timeline.StepSequence` | src/Main.tsx:76-102 | the sequence for step i is keyed by i, lasts `floor(duration / steps)` frames, shows step i-1's code (none for i = 0) turning into step i's code in a 30-frame window with no delay, and has audio exactly when a non-empty source was loaded for i |
| `Timeline.AudioFor` | src/Main.tsx:99-101 | step i has audio exactly when `audios[i]` exists with a truthy `audioSrc`, and then it is that source |
| `Timeline.PlanStep` | src/Main.tsx:76-101 | in a plan, sequence i is keyed and named by i, lasts the step length, receives `oldCode = steps[i-1]` (none for step 0) and `newCode = steps[i]`, has the fixed 30-frame window, and has audio exactly when `audios[i]` has a truthy `audioSrc` |
| `Timeline.MetaLabel` | src/Main.tsx:91 | a step's label is its meta string when that is non-empty and `"Unknown"` otherwise, so it is never empty |
| `Timeline.DecimalRoundTrip` | src/Main.tsx:91 | the index written into a sequence's name is all digits and reads back as the index |
| `Timeline.StepDurationIsFloor` | src/Main.tsx:90 | the step length is the most frames that fit the number of steps times into the duration |
| `Timeline.TotalOfEqualLengths` | src/Main.tsx:76-92 | back-to-back sequences of one length d take their count times d frames |
| `Timeline.PlanFitsDuration` | src/Main.tsx:76-92 | all sequences of a plan have the same length, and together they never exceed the composition's duration |
| `Timeline.PlanStartFrames` | src/Main.tsx:75-105 | played back to back, sequence i starts i step lengths in and ends within the composition |

## Left out

- Token matching, layout snapshots and keyframe computation inside the
  token-transition library are not modelled. The snapshot a run would take
  and the transitions the library returns are parameters of
  `Scene.LayoutEffect`.
- The DOM effect of `applyStyle` is not modelled. Each call is recorded as
  a `StyleCall`, and `src/utils` is not part of this model.
- Easing is not modelled. The bezier easing and Remotion's `interpolate`
  with easing are a parameter `ease`, and no property of the curve is
  claimed.
- `Scene.LayoutEffect`: requires `durationInFrames > 0` and every
  transition's `options.duration > 0`. A zero-length input range is
  refused by Remotion's `interpolate` rather than computed.
- `Scene.constructor`: requires `durationInFrames > 0` for the same reason.
  `Main` always passes 30.
- React scheduling is not modelled: rendering, the order of the passive and
  layout effects, and the re-render caused by setting the snapshot. The
  effects are methods that a caller runs in some order. The props of a
  mounted step are fixed for the mount.
- The `delayRender` timeout and the gate's behaviour on unmount are
  Remotion's. The model only records that `continueRender` was called.
- UI plumbing is not modelled: annotation handlers, the font style, `Pre`,
  `ThemeProvider`, `ProgressBar`, `RefreshOnCodeChange`, `AbsoluteFill`
  styles and `codeWidth`. `src/calculate-metadata/theme.ts` is not part of
  this model, so `ThemeColors` keeps only the background.
- Loading `audios` in `Main` is asynchronous state. `audios` is an input
  of `Timeline.Plan`.
- Network requests and JSON parsing are functions in `Network`. A script
  whose JSON is not an object is treated as a failed parse.
- In `getAudioWithStory`, the concurrent callbacks share one `let script`
  variable. Each index reads its own script, so the interleaving race is
  not modelled.
- `Scene.CaptureEffect`: effects read the scene's current state rather
  than the state of the render that scheduled them. So the mount's second
  capture, where the passive effect (src/CodeTransition.tsx:48-52) runs
  after the layout effect has captured (src/CodeTransition.tsx:55-58) and
  still sees no snapshot, is not modelled.
- `GetFiles.All`: in JavaScript, `Promise.all` rejects with whichever
  rejection comes first in time. The model reports the rejection of the
  lowest index.
- `console.log` calls are not modelled.
- Frames are natural numbers, and durations and delays are exact reals.
  Floating-point rounding is not modelled.
