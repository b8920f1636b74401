/**
 * The batch driver: every file of the input folder, in listing order, is
 * skipped (not a `.wav`), failed (some step threw, the error was caught) or
 * processed (its trimmed copy written under the same name in the output
 * folder). The output folder is removed once up front and made again only
 * when a file gets past encoding.
 */
module Driver {
  import opened Audio
  import opened Silence
  import opened Trimming

  type Byte = x: int | 0 <= x < 256
  type Bytes = seq<Byte>

  datatype Result<T, E> = Ok(value: T) | Err(error: E)

  /** The threshold of the script, in normalised amplitude. */
  const SilenceThreshold: real := 0.01

  const WavExtension: string := ".wav"

  /** The collaborators whose code is not part of this model, as oracles:
      `path.extname`, `fs.readFileSync` on the input folder, node-wav's
      `decode` and `encode`, whether `fs.mkdirSync` and `fs.writeFileSync`
      on the output folder succeed, and whether standard output is a
      terminal (`process.stdout.clearLine` exists only on one). A string
      error stands for the message of whatever they throw. */
  datatype Env = Env(
    extname: string -> string,
    readFile: string -> Result<Bytes, string>,
    decode: Bytes -> Result<Wav, string>,
    encode: Wav -> Result<Bytes, string>,
    mkdirSucceeds: bool,
    writeSucceeds: string -> bool,
    stdoutIsTTY: bool)

  /** Which step of the `try` block threw. */
  datatype Failure =
    | ReadFailed(message: string)
    | DecodeFailed(message: string)
    | NoChannels             // `channelData[0].length` on an empty channel list
    | ChannelLengthsDiffer
    | EncodeFailed(message: string)
    | MkdirFailed
    | WriteFailed
    | ProgressFailed         // the progress display threw after the write

  datatype Status = Skipped | Failed(failure: Failure) | Processed

  /** The outcome the script reports for one file: "Skipped", "Error
      processing" (possibly after its output was written), or the progress
      display of a success. */
  datatype FileOutcome = FileOutcome(file: string, status: Status)

  /** The output folder: whether it exists, and the files in it by name. */
  datatype Folder = Folder(present: bool, files: map<string, Bytes>)

  const NoFolder := Folder(false, map[])

  datatype StepResult = StepResult(status: Status, folder: Folder)

  datatype BatchState = BatchState(outcomes: seq<FileOutcome>, folder: Folder)

  /** Whether a file's output was written: it was processed, or only the
      progress display after the write threw. */
  predicate Written(status: Status) {
    status == Processed || status == Failed(ProgressFailed)
  }

  /** `toLowerCase` on one character; only ASCII letters are mapped, which
      is all the comparison with ".wav" can observe. */
  function LowerChar(c: char): char {
    if 'A' <= c <= 'Z' then (c as int + 32) as char else c
  }

  /** `toLowerCase` on a string: same length, no upper-case ASCII letter
      left, and every character either kept or moved from upper to lower
      case. */
  function ToLower(s: string): (r: string)
    ensures |r| == |s|
    ensures forall i :: 0 <= i < |s| ==>
              !('A' <= r[i] <= 'Z') &&
              (r[i] == s[i] || ('A' <= s[i] <= 'Z' && r[i] as int == s[i] as int + 32))
  {
    seq(|s|, i requires 0 <= i < |s| => LowerChar(s[i]))
  }

  /** The extension test is a case-insensitive match against ".wav". */
  lemma {:induction false} WavExtensionIgnoresCase(e: string)
    ensures ToLower(e) == WavExtension <==>
              |e| == 4 && e[0] == '.' && e[1] in "wW" && e[2] in "aA" && e[3] in "vV"
  {
    if |e| == 4 && e[0] == '.' && e[1] in "wW" && e[2] in "aA" && e[3] in "vV" {
      assert ToLower(e) == WavExtension;
    }
    if ToLower(e) == WavExtension {
      var l := ToLower(e);
      assert |e| == |l| == 4;
      assert l[0] == '.' && l[1] == 'w' && l[2] == 'a' && l[3] == 'v';
      assert LowerChar(e[0]) == '.' && LowerChar(e[1]) == 'w' && LowerChar(e[2]) == 'a' && LowerChar(e[3]) == 'v';
    }
  }

  /** An entry of the listing is handled as a WAV file exactly when its
      extension is ".wav" in any mix of cases. */
  predicate IsWavFile(env: Env, file: string)
    ensures var e := env.extname(file);
            IsWavFile(env, file) <==>
              |e| == 4 && e[0] == '.' && e[1] in "wW" && e[2] in "aA" && e[3] in "vV"
  {
    WavExtensionIgnoresCase(env.extname(file));
    ToLower(env.extname(file)) == WavExtension
  }

  /** The buffer handed to `wav.encode`: the decoded sample rate, and every
      channel cut at the start index. */
  function Trimmed(wav: Wav): (t: Wav)
    requires Aligned(wav.channelData)
    ensures t.sampleRate == wav.sampleRate
    ensures |t.channelData| == |wav.channelData| && Aligned(t.channelData)
    ensures var s := StartIndex(wav.channelData, SilenceThreshold);
            FrameCount(t.channelData) == FrameCount(wav.channelData) - s &&
            (forall c, j :: 0 <= c < |t.channelData| && 0 <= j < FrameCount(t.channelData) ==>
               t.channelData[c][j] == wav.channelData[c][s + j]) &&
            (forall j :: 0 <= j < s ==> Silent(wav.channelData, j, SilenceThreshold)) &&
            (HasLoudFrame(wav.channelData, SilenceThreshold) ==> !Silent(wav.channelData, s, SilenceThreshold))
    ensures !HasLoudFrame(wav.channelData, SilenceThreshold) ==> t == wav
  {
    var s := StartIndex(wav.channelData, SilenceThreshold);
    TrimKeepsAlignment(wav.channelData, s);
    AllSilentKeepsBuffer(wav.channelData, SilenceThreshold);
    Wav(wav.sampleRate, Trim(wav.channelData, s))
  }

  /** Decode, detect, trim and encode: what the `try` block computes from
      the bytes read, or the step that threw. It succeeds exactly when the
      bytes decode to aligned channel data whose trimmed form encodes, and
      then yields those encoded bytes; it never fails with an I/O failure. */
  function Transform(env: Env, bytes: Bytes): (r: Result<Bytes, Failure>)
    ensures r.Ok? <==>
              env.decode(bytes).Ok? && Aligned(env.decode(bytes).value.channelData) &&
              env.encode(Trimmed(env.decode(bytes).value)).Ok?
    ensures r.Ok? ==> r.value == env.encode(Trimmed(env.decode(bytes).value)).value
    ensures r.Err? ==> r.error.DecodeFailed? || r.error.NoChannels? ||
                       r.error.ChannelLengthsDiffer? || r.error.EncodeFailed?
  {
    match env.decode(bytes)
    case Err(m) => Err(DecodeFailed(m))
    case Ok(wav) =>
      if |wav.channelData| == 0 then Err(NoChannels)
      else if !Aligned(wav.channelData) then Err(ChannelLengthsDiffer)
      else match env.encode(Trimmed(wav))
        case Err(m) => Err(EncodeFailed(m))
        case Ok(out) => Ok(out)
  }

  /** Read and transform one input file: the bytes it would be written as.
      It fails with a read failure exactly when the read throws, and
      otherwise succeeds or fails as the transformation of the bytes read. */
  function Encoded(env: Env, file: string): (r: Result<Bytes, Failure>)
    ensures (r.Err? && r.error.ReadFailed?) <==> env.readFile(file).Err?
    ensures env.readFile(file).Ok? ==> r == Transform(env, env.readFile(file).value)
  {
    match env.readFile(file)
    case Err(m) => Err(ReadFailed(m))
    case Ok(bytes) => Transform(env, bytes)
  }

  /** One call of `processFile` on one file, before it recurses. A file is
      skipped exactly when its extension is not ".wav", and then nothing is
      touched. Its output is written exactly when it is a WAV file that
      reads, decodes and encodes, the folder exists or can be made, and the
      write succeeds; then the folder exists and holds its encoded bytes
      under its own name. It is reported processed exactly when it was
      written and the progress display works. A file not written leaves the
      folder's files as they were (a missing folder holds none). */
  function Step(env: Env, file: string, folder: Folder): (r: StepResult)
    ensures r.status == Skipped <==> !IsWavFile(env, file)
    ensures r.status == Skipped ==> r.folder == folder
    ensures Written(r.status) <==>
              IsWavFile(env, file) && Encoded(env, file).Ok? &&
              (folder.present || env.mkdirSucceeds) && env.writeSucceeds(file)
    ensures Written(r.status) ==>
              r.folder.present &&
              r.folder.files == (if folder.present then folder.files else map[])[file := Encoded(env, file).value]
    ensures r.status == Processed <==> Written(r.status) && env.stdoutIsTTY
    ensures !Written(r.status) && (folder.present || folder.files == map[]) ==>
              r.folder.files == folder.files
    ensures !Written(r.status) && folder.present ==> r.folder == folder
  {
    if !IsWavFile(env, file) then StepResult(Skipped, folder)
    else match Encoded(env, file)
      case Err(f) => StepResult(Failed(f), folder)
      case Ok(out) =>
        if !folder.present && !env.mkdirSucceeds then StepResult(Failed(MkdirFailed), folder)
        else
          var ready := if folder.present then folder else Folder(true, map[]);
          if !env.writeSucceeds(file) then StepResult(Failed(WriteFailed), ready)
          else
            var written := ready.(files := ready.files[file := out]);
            if env.stdoutIsTTY then StepResult(Processed, written)
            else StepResult(Failed(ProgressFailed), written)
  }

  /** The outcomes and the output folder after `processFile` has handled
      the first |files| entries of the listing. */
  function Batch(env: Env, files: seq<string>, folder: Folder): (b: BatchState)
    ensures |b.outcomes| == |files|
    ensures forall i :: 0 <= i < |files| ==> b.outcomes[i].file == files[i]
    decreases |files|
  {
    if files == [] then BatchState([], folder)
    else
      var last := |files| - 1;
      var before := Batch(env, files[..last], folder);
      var r := Step(env, files[last], before.folder);
      BatchState(before.outcomes + [FileOutcome(files[last], r.status)], r.folder)
  }

  /** A whole run: the output folder is removed first, whatever it held.
      Every entry gets one outcome, in listing order, and the folder can
      only exist at the end through a successful `mkdirSync`. */
  function Run(env: Env, files: seq<string>): (b: BatchState)
    ensures |b.outcomes| == |files|
    ensures forall i :: 0 <= i < |files| ==> b.outcomes[i].file == files[i]
    ensures b.folder.present ==> env.mkdirSucceeds
    ensures !b.folder.present ==> b.folder.files == map[]
  {
    FreshFolderNeedsMkdir(env, files);
    Batch(env, files, NoFolder)
  }

  /** Running a listing in two parts is running it at once: later files
      never change what happened to earlier ones. */
  lemma {:induction false} BatchAppend(env: Env, first: seq<string>, rest: seq<string>, folder: Folder)
    ensures var a := Batch(env, first, folder);
            var b := Batch(env, rest, a.folder);
            Batch(env, first + rest, folder) == BatchState(a.outcomes + b.outcomes, b.folder)
    decreases |rest|
  {
    if rest == [] {
      assert first + rest == first;
    } else {
      var last := |rest| - 1;
      BatchAppend(env, first, rest[..last], folder);
      assert (first + rest)[..|first + rest| - 1] == first + rest[..last];
      var a := Batch(env, first, folder);
      var b0 := Batch(env, rest[..last], a.folder);
      assert (a.outcomes + b0.outcomes) + [FileOutcome(rest[last], Step(env, rest[last], b0.folder).status)]
          == a.outcomes + (b0.outcomes + [FileOutcome(rest[last], Step(env, rest[last], b0.folder).status)]);
    }
  }

  /** After the up-front removal, the folder only comes into being through
      a successful `mkdirSync`, and while it is missing it holds nothing. */
  lemma {:induction false} FreshFolderNeedsMkdir(env: Env, files: seq<string>)
    ensures var f := Batch(env, files, NoFolder).folder;
            (f.present ==> env.mkdirSucceeds) && (!f.present ==> f.files == map[])
    decreases |files|
  {
    if files != [] {
      FreshFolderNeedsMkdir(env, files[..|files| - 1]);
    }
  }

  /** The status of a file depends on the folder only through whether it
      exists or can be made. */
  lemma StepStatusDependsOnlyOnMkdir(env: Env, file: string, f: Folder, g: Folder)
    requires (f.present || env.mkdirSucceeds) == (g.present || env.mkdirSucceeds)
    ensures Step(env, file, f).status == Step(env, file, g).status
  {
  }

  /** Failure isolation: every file's status is the one it would get if it
      were alone in the input folder, whatever happened to the files
      before it. This rests on the oracles being fixed for the whole run:
      one answer for `mkdirSync` and one per name for `writeFileSync`. On a
      real disk that fills up, a later write does depend on earlier ones. */
  lemma {:induction false} OutcomeAsIfAlone(env: Env, files: seq<string>, i: nat)
    requires i < |files|
    ensures Run(env, files).outcomes[i] == Run(env, [files[i]]).outcomes[0]
    decreases |files|
  {
    var last := |files| - 1;
    if i < last {
      OutcomeAsIfAlone(env, files[..last], i);
    } else {
      var before := Run(env, files[..last]);
      var alone := [files[i]];
      assert alone[..0] == [];
      assert Batch(env, alone[..0], NoFolder) == BatchState([], NoFolder);
      assert Run(env, [files[i]]).outcomes[0].status == Step(env, files[i], NoFolder).status;
      assert Run(env, files).outcomes[i].status == Step(env, files[i], before.folder).status;
      StepStatusDependsOnlyOnMkdir(env, files[i], before.folder, NoFolder);
    }
  }

  /** A written file's trimmed bytes, and no stale file, sit in the output
      folder at the end: a name is there exactly when some entry of that
      name was written, with the bytes its input encodes to. */
  lemma {:induction false} OutputFilesAreWrittenFiles(env: Env, files: seq<string>, name: string)
    ensures var b := Run(env, files);
            (name in b.folder.files <==>
               exists i :: 0 <= i < |files| && files[i] == name && Written(b.outcomes[i].status)) &&
            (name in b.folder.files ==> Encoded(env, name) == Ok(b.folder.files[name]))
    decreases |files|
  {
    if files != [] {
      var last := |files| - 1;
      var before := Run(env, files[..last]);
      var b := Run(env, files);
      OutputFilesAreWrittenFiles(env, files[..last], name);
      if name in b.folder.files && name !in before.folder.files {
        assert Written(b.outcomes[last].status);
      }
      if exists i :: 0 <= i < |files| && files[i] == name && Written(b.outcomes[i].status) {
        var i :| 0 <= i < |files| && files[i] == name && Written(b.outcomes[i].status);
        if i < last {
          assert before.outcomes[i] == b.outcomes[i];
        }
      }
      if name in before.folder.files {
        var i :| 0 <= i < last && files[i] == name && Written(before.outcomes[i].status);
        assert b.outcomes[i] == before.outcomes[i];
      }
    }
  }

  /** The output folder exists at the end exactly when `mkdirSync` can
      succeed and some `.wav` entry got through encoding; a run in which no
      entry does leaves no folder at all, whatever an earlier run left. */
  lemma {:induction false} OutputFolderPresentIff(env: Env, files: seq<string>)
    ensures Run(env, files).folder.present <==>
              env.mkdirSucceeds &&
              exists i :: 0 <= i < |files| && IsWavFile(env, files[i]) && Encoded(env, files[i]).Ok?
    decreases |files|
  {
    if files != [] {
      var last := |files| - 1;
      var before := Run(env, files[..last]);
      OutputFolderPresentIff(env, files[..last]);
      if exists i :: 0 <= i < |files| && IsWavFile(env, files[i]) && Encoded(env, files[i]).Ok? {
        var i :| 0 <= i < |files| && IsWavFile(env, files[i]) && Encoded(env, files[i]).Ok?;
        if i < last {
          assert files[..last][i] == files[i];
        }
      }
    }
  }

  /** The output folder on disk. */
  class OutputFolder {
    var present: bool
    var files: map<string, Bytes>

    /** A folder that does not exist holds no files. */
    ghost predicate Valid()
      reads this
    {
      !present ==> files == map[]
    }

    function State(): Folder
      reads this
    {
      Folder(present, files)
    }

    /** The folder as an earlier run may have left it. */
    constructor (present: bool, files: map<string, Bytes>)
      requires !present ==> files == map[]
      ensures Valid() && State() == Folder(present, files)
    {
      this.present := present;
      this.files := files;
    }

    /** `fse.removeSync`: the folder and everything in it go. */
    method Remove()
      modifies this
      ensures Valid() && State() == NoFolder
    {
      present := false;
      files := map[];
    }

    /** `fs.mkdirSync` on the missing folder; `succeeds` says whether the
        file system lets it. */
    method Mkdir(succeeds: bool) returns (ok: bool)
      requires Valid() && !present
      modifies this
      ensures Valid() && ok == succeeds
      ensures State() == if ok then Folder(true, map[]) else old(State())
    {
      ok := succeeds;
      if ok {
        present := true;
      }
    }

    /** `fs.writeFileSync` of one output file into the existing folder. */
    method WriteFile(name: string, data: Bytes, succeeds: bool) returns (ok: bool)
      requires Valid() && present
      modifies this
      ensures Valid() && ok == succeeds
      ensures State() == if ok then old(State()).(files := old(files)[name := data]) else old(State())
    {
      ok := succeeds;
      if ok {
        files := files[name := data];
      }
    }
  }

  /** The body of `processFile` for one entry of the listing. */
  method ProcessFile(env: Env, file: string, out: OutputFolder) returns (status: Status)
    requires out.Valid()
    modifies out
    ensures out.Valid()
    ensures StepResult(status, out.State()) == Step(env, file, old(out.State()))
  {
    var fileExtension := ToLower(env.extname(file));
    if fileExtension != WavExtension {
      return Skipped;
    }
    var inputWavData := env.readFile(file);
    if inputWavData.Err? {
      return Failed(ReadFailed(inputWavData.error));
    }
    var inputWav := env.decode(inputWavData.value);
    if inputWav.Err? {
      return Failed(DecodeFailed(inputWav.error));
    }
    var sampleRate, channelData := inputWav.value.sampleRate, inputWav.value.channelData;
    if |channelData| == 0 {
      return Failed(NoChannels);
    }
    if !Aligned(channelData) {
      return Failed(ChannelLengthsDiffer);
    }
    var startIndex := FindStartIndex(channelData, SilenceThreshold);
    var newChannelData := Trim(channelData, startIndex);
    var newWavData := env.encode(Wav(sampleRate, newChannelData));
    if newWavData.Err? {
      return Failed(EncodeFailed(newWavData.error));
    }
    if !out.present {
      var made := out.Mkdir(env.mkdirSucceeds);
      if !made {
        return Failed(MkdirFailed);
      }
    }
    var written := out.WriteFile(file, newWavData.value, env.writeSucceeds(file));
    if !written {
      return Failed(WriteFailed);
    }
    // The progress display throws when standard output is not a terminal.
    status := if env.stdoutIsTTY then Processed else Failed(ProgressFailed);
  }

  /** The script from the removal of the old output folder to "All files
      processed!": `processFile(0)`, whose tail calls walk the listing one
      index at a time whatever happens to each file. */
  method ProcessAll(env: Env, inputFiles: seq<string>, out: OutputFolder) returns (outcomes: seq<FileOutcome>)
    requires out.Valid()
    modifies out
    ensures out.Valid()
    ensures outcomes == Run(env, inputFiles).outcomes
    ensures out.State() == Run(env, inputFiles).folder
  {
    if out.present {
      out.Remove();
    }
    outcomes := [];
    var index := 0;
    while index < |inputFiles|
      invariant 0 <= index <= |inputFiles|
      invariant out.Valid()
      invariant BatchState(outcomes, out.State()) == Run(env, inputFiles[..index])
    {
      var file := inputFiles[index];
      var status := ProcessFile(env, file, out);
      outcomes := outcomes + [FileOutcome(file, status)];
      assert inputFiles[..index + 1][..index] == inputFiles[..index];
      index := index + 1;
    }
    assert inputFiles[..index] == inputFiles;
  }
}
