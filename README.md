# remove-silence-wav, modelled in Dafny

The script `index.js` trims leading silence from every `.wav` file in its
`input` folder and writes the result, under the same name, to its `output`
folder. This project models the part of it that decides things:

- the **silence detector**: the nested frame/channel scan that finds
  `startIndex`, the first frame in which some channel's sample has an
  absolute value strictly above the threshold (`0.01`);
- the **trimmer**: every channel replaced by its `subarray(startIndex)`,
  the sample rate passed on to the encoder;
- the **batch driver** `processFile`: one file per index, in listing order,
  each skipped (its lower-cased extension is not `.wav`), failed (some step
  of the `try` block threw and the error was caught) or processed (written to
  the output folder and reported with its progress bar); the output folder removed once up front and made again
  only when a file gets past encoding.

Files:

- `audio.dfy` (module `Audio`): decoded buffers (`Wav`), `Abs`, aligned
  channel data, silent frames.
- `silence.dfy` (module `Silence`): the detector as a specification
  function `StartIndex` and as the imperative scan `FindStartIndex` (nested
  `while` loops with `break`), proved equal.
- `trimming.dfy` (module `Trimming`): `Subarray`, `Trim` and their lemmas.
- `driver.dfy` (module `Driver`): the foreign collaborators as an `Env` of
  oracles, the per-file step and the whole run as functions (`Step`,
  `Batch`, `Run`), the output folder as a class `OutputFolder` whose
  methods update it in place, and the imperative `ProcessFile` and
  `ProcessAll`, proved to follow `Step` and `Run`.

Amplitudes are `real`: the script only applies `Math.abs` and a strict `>`
to them, so no rounding is involved. The detector takes the threshold as a
parameter; the driver uses the script's constant `0.01`.

Behaviours of the code worth knowing:

- An all-silent file, or one without frames, is written back whole:
  `startIndex` keeps its initial 0 (index.js:52), so nothing is trimmed
  (`AllSilentKeepsBuffer`).
- The folder is made before `writeFileSync`, so a `.wav` entry that encodes
  but whose write fails still leaves an empty folder (index.js:72-77).
  `OutputFolderPresentIff` states it: the folder exists at the end exactly
  when `mkdirSync` can succeed and some `.wav` entry got through encoding.
- The progress display runs inside the `try` block after the write
  (index.js:79-89); `process.stdout.clearLine` exists only when standard
  output is a terminal, so otherwise it throws and the file is reported
  as an error although its output was written. The model has this as the
  failure `ProgressFailed`, and `Written` covers both that and `Processed`.

## Model

| member | source | states |
|---|---|---|
| `Audio.Abs` | index.js:56 | `Math.abs` of a sample is non-negative and is the sample or its negation |
| `Audio.Silent` | index.js:54-60 | a frame is silent exactly when every channel's sample there lies within `[-threshold, threshold]` |
| `Silence.FirstLoudFrom` | index.js:53-64 | the search from a frame finds the first frame at or after it that is not silent, every frame it passes is silent, and it reports the frame count when there is none |
| `Silence.StartIndex` | index.js:52-65 | the start index lies in `0..frameCount`, below `frameCount` when there are frames; when some frame is loud it is a loud frame and every earlier frame is silent; when none is (or there are no frames) it is 0 |
| `Silence.StartIndexIsFirstLoudFrame` | index.js:53-64 | both directions: a frame is the start index of a buffer with a loud frame exactly when it is loud and every earlier frame is silent |
| `Silence.FirstLoudFromIs` | index.js:53-64 | a loud frame preceded only by silent frames is the one the scan stops at |
| `Silence.FirstLoudFromAgrees` | index.js:54-61 | two buffers with the same frame count and the same silent frames get the same scan result |
| `Silence.StartIndexIgnoresChannelOrder` | index.js:54-60 | a frame's silence is an AND over channels, so any reordering of the channels leaves the buffer aligned and the start index unchanged; the early `break` of the channel loop does not matter |
| `Silence.FindStartIndex` | index.js:52-65 | the nested loops with their two `break`s compute `StartIndex`: the first loud frame, every earlier frame silent, and 0 when no frame is loud |
| `Trimming.Subarray` | index.js:68 | `subarray(start)` has `length - start` samples (none when `start` is past the end), each the sample `start` places further on |
| `Trimming.Trim` | index.js:68 | the channel count is kept; each channel `c` loses its first `start` samples sample for sample (`r[c][j] == channelData[c][start + j]`), and is empty when `start` is past its end |
| `Trimming.TrimKeepsAlignment` | index.js:68 | trimming an aligned buffer at a frame inside it leaves all channels of the same length `frameCount - start` |
| `Trimming.TrimAtZero` | index.js:68 | trimming at frame 0 returns the buffer unchanged |
| `Trimming.AllSilentKeepsBuffer` | index.js:52-68 | a buffer with no loud frame, or with no frames at all, is written back whole rather than emptied |
| `Trimming.TrimStartsAtFirstLoudFrame` | index.js:52-68 | when some frame is loud, the trimmed buffer starts with a loud frame and only silent frames were dropped |
| `Trimming.TrimIdempotent` | index.js:52-68 | the start index of the trimmed channel data is 0, so trimming it again gives it back unchanged (channel data only; the codec round trip is not modelled) |
| `Driver.ToLower` | index.js:36 | lower-casing keeps the length, leaves no upper-case ASCII letter, and changes a character only from upper to lower case |
| `Driver.WavExtensionIgnoresCase` | index.js:36-38 | both directions: a lower-cased extension equals `.wav` exactly when the extension is `.wav` in any mix of upper and lower case |
| `Driver.IsWavFile` | index.js:36-38 | both directions: an entry is handled as a WAV file exactly when its `extname` is `.wav` in any mix of cases |
| `Driver.Trimmed` | index.js:49-69 | the buffer handed to `wav.encode` has exactly the decoded sample rate, the same channel count, aligned channels of `frameCount - startIndex` samples equal to the decoded ones from `startIndex` on, only silent frames dropped, and is the decoded buffer itself when no frame is loud |
| `Driver.Transform` | index.js:47-69 | succeeds exactly when the bytes decode to aligned channel data whose trimmed form encodes, yielding those encoded bytes; fails only with a decode, channel or encode failure |
| `Driver.Encoded` | index.js:46-69 | fails with a read failure exactly when `readFileSync` throws; otherwise its result is the transformation of the bytes read |
| `Driver.Step` | index.js:36-92 | skipped exactly when the extension is not `.wav`, touching nothing; written exactly when the file reads, decodes, encodes, the folder exists or can be made and the write succeeds, and then the folder exists and holds its encoded bytes under its own name; reported processed exactly when written and the progress display works; an entry not written leaves the folder's files as they were |
| `Driver.Batch` | index.js:26-95 | one outcome per listing entry, in listing order, each naming its entry |
| `Driver.Run` | index.js:15-97 | after the up-front removal and `processFile(0)`: one outcome per entry in order, and the folder exists only if `mkdirSync` can succeed, holding nothing otherwise |
| `Driver.BatchAppend` | index.js:26-95 | running a listing is running its first part and then the rest from where the first left the folder: later files never change earlier outcomes |
| `Driver.FreshFolderNeedsMkdir` | index.js:15-74 | after the up-front removal, the folder exists only if `mkdirSync` can succeed, and a missing folder holds no files |
| `Driver.StepStatusDependsOnlyOnMkdir` | index.js:72-77 | a file's status depends on the folder only through whether it exists or can be made |
| `Driver.OutcomeAsIfAlone` | index.js:44-94 | failure isolation: every entry gets exactly the outcome it would get if it were the only entry, whatever happened to the entries before it |
| `Driver.OutputFilesAreWrittenFiles` | index.js:15-77 | at the end the output folder holds a name exactly when an entry of that name was written, with the bytes that entry encodes to; no stale file from an earlier run survives |
| `Driver.OutputFolderPresentIff` | index.js:15-74 | both directions: the output folder exists at the end exactly when `mkdirSync` can succeed and some `.wav` entry got through read, decode, trim and encode |
| `Driver.OutputFolder.constructor` | index.js:9 | the output folder in whatever state an earlier run left it |
| `Driver.OutputFolder.Remove` | index.js:15-17 | after `fse.removeSync` the folder and all its files are gone |
| `Driver.OutputFolder.Mkdir` | index.js:72-74 | `fs.mkdirSync` on the missing folder makes an empty folder when it succeeds and changes nothing when it throws |
| `Driver.OutputFolder.WriteFile` | index.js:77 | `fs.writeFileSync` stores the bytes under the name when it succeeds, replacing any earlier file of that name, and changes nothing when it throws |
| `Driver.ProcessFile` | index.js:32-92 | one entry of the listing, step by step as the script does it (extension test, read, decode, scan, trim, encode, mkdir when missing, write, progress display), ends with the status and folder that `Step` gives |
| `Driver.ProcessAll` | index.js:15-97 | the whole script: removal of the old folder, then `processFile(0)` walking every index in order; its outcomes and final folder are those of `Run`, so every lemma about `Run` holds of it |

## Left out

- Progress reporting (`index.js:79-89`): the percentage, the 30-cell bar and the cursor control are floating-point console rendering; the model records each file's outcome instead of printing it.
- Progress display failures: only the missing `process.stdout.clearLine` on a non-terminal is modelled (`ProgressFailed`); `Processed` means "written and reported as a success".
- Console messages (`index.js:22, 28, 39, 87, 91`): the outcome of each file stands for what is printed about it; error messages are the strings the oracles return.
- `path.resolve`, `path.join`, `path.extname`: file names are the listing's entry names, input and output paths are keyed by that name, and `extname` is an oracle in `Env`.
- `toLowerCase` is modelled for ASCII letters only; no other character lower-cases to one of `.`, `w`, `a`, `v`, so the `.wav` test is unaffected.
- `fs.readdirSync` (`index.js:20`) is the `inputFiles` parameter; `fs.existsSync` is the folder's `present` field.
- Setup errors: `fs.readdirSync` or `fse.removeSync` throwing ends the script before any file; the model assumes both succeed.
- node-wav's `decode` and `encode` (`index.js:47, 69`) are oracles in `Env` that may fail with a message; their container format and any round trip between them are not modelled.
- Whether `mkdirSync` and `writeFileSync` succeed is an oracle (one flag, and one answer per file name); a partial write, disk contents beyond the output folder and concurrent changes to the folder are not modelled.
- Zero channels: the script throws a `TypeError` at `channelData[0].length`, modelled as the failure `NoChannels`.
- Channels of different lengths: node-wav's decoder never yields them; the model treats them as the failure `ChannelLengthsDiffer` instead of modelling JavaScript's reads past a channel's end (`undefined`, then `NaN`).
- Samples are exact reals: the float32 storage of node-wav and the double threshold are not modelled, since the script only compares magnitudes.
- NaN samples: node-wav's float decoding can yield NaN, and `Math.abs(NaN) > 0.01` is false, so the script treats such a sample as silent; a `real` cannot be NaN, so the model has no such sample.
- Recursion depth: `processFile` calls itself once per entry (index.js:40, 94) and JavaScript engines do not eliminate tail calls, so a listing of some ten thousand entries overflows the stack outside any `try` and ends the run early; `ProcessAll` is a loop that always visits every entry.
- OutcomeAsIfAlone: holds because the oracles are fixed for the whole run (one `mkdirSync` answer, one `writeFileSync` answer per name); on a disk that fills up, a later write depends on earlier ones.
