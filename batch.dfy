/**
 * The file level both scripts share: which names of the input folder are
 * media files, what a file's two outputs are called, how they are written
 * into the results folder, and how the batch loop sorts every file into the
 * success list or the failure list without stopping at a failure.
 *
 * The results folder is a map from output name to content. What the
 * environment does is given as oracles: `produce(name)` is what the
 * transcription of one file gives (its rendered outputs, or the message of
 * the exception it raised), and `writeError(outputName)` is the message of the
 * exception writing that output raises, if any.
 */
module Batch {
  import opened Wrappers
  import opened PyStr
  import opened Transcript

  // ---------------------------------------------------------------------------
  // Which files are processed
  // ---------------------------------------------------------------------------

  const MEDIA_EXTENSIONS: seq<string> := [".wav", ".mp3", ".m4a", ".flac", ".ogg", ".mp4", ".avi", ".mov", ".mkv"]

  /** `name.lower().endswith(extensions)` */
  predicate IsMediaFile(name: string)
  {
    EndsWithAny(Lower(name), MEDIA_EXTENSIONS)
  }

  /** `[f for f in listing if f.lower().endswith(extensions)]` */
  function MediaFiles(listing: seq<string>): (files: seq<string>)
    ensures |files| <= |listing|
    ensures forall f :: f in files <==> f in listing && IsMediaFile(f)
  {
    if listing == [] then []
    else
      var init, last := listing[..|listing| - 1], listing[|listing| - 1];
      assert listing == init + [last];
      MediaFiles(init) + (if IsMediaFile(last) then [last] else [])
  }

  /** Filtering keeps listing order: the media files of `a + b` are `a`'s, then `b`'s. */
  lemma {:induction false} MediaFilesAppend(a: seq<string>, b: seq<string>)
    ensures MediaFiles(a + b) == MediaFiles(a) + MediaFiles(b)
    decreases |b|
  {
    if b == [] {
      assert a + b == a;
    } else {
      var init, last := b[..|b| - 1], b[|b| - 1];
      assert (a + b)[..|a + b| - 1] == a + init;
      assert (a + b)[|a + b| - 1] == last;
      MediaFilesAppend(a, init);
    }
  }

  /** The extension test ignores case: names that differ only in letter case are both media files or neither. */
  lemma MediaFileIgnoresCase(a: string, b: string)
    requires CaseVariants(a, b)
    ensures IsMediaFile(a) <==> IsMediaFile(b)
  {
    LowerIgnoresCase(a, b);
  }

  /** Two names in capitals and mixed case are accepted. */
  lemma MediaFileAccepts()
    ensures IsMediaFile("meeting.WAV")
    ensures IsMediaFile("call.Mp4")
  {
    assert Lower("meeting.WAV") == "meeting.wav";
    assert EndsWith("meeting.wav", MEDIA_EXTENSIONS[0]);
    assert Lower("call.Mp4") == "call.mp4";
    assert EndsWith("call.mp4", MEDIA_EXTENSIONS[5]);
  }

  /** No extension ends in 't', and every one is at least four characters long. */
  lemma MediaFileRejects()
    ensures !IsMediaFile("notes.txt")
    ensures !IsMediaFile("wav")
  {
    forall k | 0 <= k < |MEDIA_EXTENSIONS|
      ensures |MEDIA_EXTENSIONS[k]| >= 4 && MEDIA_EXTENSIONS[k][|MEDIA_EXTENSIONS[k]| - 1] != 't'
    {
    }
    assert Lower("notes.txt")[8] == 't';
    assert |Lower("wav")| == 3;
  }

  // ---------------------------------------------------------------------------
  // Output names
  // ---------------------------------------------------------------------------

  /** `os.path.splitext(filename)[0] + ".txt"` */
  function TxtName(name: string): string
  {
    SplitextRoot(name) + ".txt"
  }

  /** `os.path.splitext(filename)[0] + ".srt"` */
  function SrtName(name: string): string
  {
    SplitextRoot(name) + ".srt"
  }

  /** A file's two outputs never overwrite each other. */
  lemma OutputNamesDiffer(name: string)
    ensures TxtName(name) != SrtName(name)
  {
    var root := SplitextRoot(name);
    assert TxtName(name)[|root| + 1] == 't';
    assert SrtName(name)[|root| + 1] == 's';
  }

  /** The outputs of `stem.ext` are `stem.txt` and `stem.srt`. */
  lemma OutputNamesOfMedia(stem: string, ext: string, k: nat)
    requires forall i :: 0 <= i < |ext| ==> ext[i] != '.' && ext[i] != '/'
    requires k < |stem| && stem[k] != '.' && forall i :: k <= i < |stem| ==> stem[i] != '/'
    ensures TxtName(stem + "." + ext) == stem + ".txt"
    ensures SrtName(stem + "." + ext) == stem + ".srt"
  {
    SplitextRootOfJoin(stem, ext, k);
  }

  /** Two media files that differ only in extension share their outputs. */
  lemma SameStemSharesOutputs()
    ensures TxtName("talk.wav") == TxtName("talk.mp3") == "talk.txt"
    ensures SrtName("talk.wav") == SrtName("talk.mp3") == "talk.srt"
  {
    assert "talk.wav" == "talk" + "." + "wav";
    assert "talk.mp3" == "talk" + "." + "mp3";
    OutputNamesOfMedia("talk", "wav", 0);
    OutputNamesOfMedia("talk", "mp3", 0);
  }

  /** A hidden file named only by its extension keeps it: `.wav` writes `.wav.txt` and `.wav.srt`. */
  lemma DotNameKeepsExtension()
    ensures IsMediaFile(".wav")
    ensures TxtName(".wav") == ".wav.txt" && SrtName(".wav") == ".wav.srt"
  {
    assert Lower(".wav") == ".wav";
    assert EndsWith(".wav", MEDIA_EXTENSIONS[0]);
    assert LastIndexOf(".wav", '/') == -1;
    SplitextKeepsWhole(".wav");
  }

  /** The run log the scripts open in the results folder. */
  const LOG_FILE: string := "log.txt"

  /** A media file with the stem `log` names its transcript after the run log. */
  lemma LogStemCollides()
    ensures IsMediaFile("log.wav") && TxtName("log.wav") == LOG_FILE
  {
    assert Lower("log.wav") == "log.wav";
    assert EndsWith("log.wav", MEDIA_EXTENSIONS[0]);
    assert "log.wav" == "log" + "." + "wav";
    OutputNamesOfMedia("log", "wav", 0);
  }

  // ---------------------------------------------------------------------------
  // Writing one file's outputs
  // ---------------------------------------------------------------------------

  type Folder = map<string, string>

  /** What one file leaves behind: the message of the exception it raised, if any, and the folder. */
  datatype FileResult = FileResult(error: Option<string>, folder: Folder)

  /**
   * The two `with open(...) as f: f.write(...)` blocks: the .txt is written
   * first; if writing it raises, nothing is stored and the .srt is not tried;
   * if writing the .srt raises, the .txt already written stays.
   */
  function SaveResult(name: string, rendered: Rendered, writeError: string -> Option<string>, folder: Folder): FileResult
  {
    var txtName := TxtName(name);
    match writeError(txtName)
    case Some(e) => FileResult(Some(e), folder)
    case None =>
      var afterTxt := folder[txtName := rendered.txt];
      match writeError(SrtName(name))
      case Some(e) => FileResult(Some(e), afterTxt)
      case None => FileResult(None, afterTxt[SrtName(name) := rendered.srt])
  }

  /** The two writes as the script performs them, one after the other. */
  method SaveOutputs(name: string, rendered: Rendered, writeError: string -> Option<string>, folder: Folder)
    returns (r: FileResult)
    ensures r == SaveResult(name, rendered, writeError, folder)
  {
    var outputTxt := TxtName(name);
    var failure := writeError(outputTxt);
    if failure.Some? {
      return FileResult(failure, folder);
    }
    var results := folder[outputTxt := rendered.txt];
    var outputSrt := SrtName(name);
    failure := writeError(outputSrt);
    if failure.Some? {
      return FileResult(failure, results);
    }
    results := results[outputSrt := rendered.srt];
    r := FileResult(None, results);
  }

  /**
   * Saving succeeds exactly when neither write raises, and then both outputs
   * hold what was rendered.
   */
  lemma SaveSucceeds(name: string, rendered: Rendered, writeError: string -> Option<string>, folder: Folder)
    ensures var r := SaveResult(name, rendered, writeError, folder);
      && (r.error.None? <==> writeError(TxtName(name)).None? && writeError(SrtName(name)).None?)
      && (r.error.None? ==> TxtName(name) in r.folder && r.folder[TxtName(name)] == rendered.txt
                            && SrtName(name) in r.folder && r.folder[SrtName(name)] == rendered.srt)
  {
    OutputNamesDiffer(name);
  }

  /** A failure writing the .srt is reported, and the .txt written before it stays. */
  lemma SrtFailureKeepsTxt(name: string, rendered: Rendered, writeError: string -> Option<string>, folder: Folder)
    requires writeError(TxtName(name)).None? && writeError(SrtName(name)).Some?
    ensures var r := SaveResult(name, rendered, writeError, folder);
      && r.error == writeError(SrtName(name))
      && TxtName(name) in r.folder && r.folder[TxtName(name)] == rendered.txt
      && (SrtName(name) !in folder ==> SrtName(name) !in r.folder)
  {
    OutputNamesDiffer(name);
  }

  /** Saving touches the file's two outputs and nothing else in the folder. */
  lemma SaveFrame(name: string, rendered: Rendered, writeError: string -> Option<string>, folder: Folder, key: string)
    requires key != TxtName(name) && key != SrtName(name)
    ensures var r := SaveResult(name, rendered, writeError, folder);
      && (key in r.folder <==> key in folder)
      && (key in folder ==> r.folder[key] == folder[key])
  {
  }

  // ---------------------------------------------------------------------------
  // One file, then the batch
  // ---------------------------------------------------------------------------

  /** The try block for one file: a failure to produce the outputs writes nothing. */
  function FileStep(name: string, produced: Result<Rendered>, writeError: string -> Option<string>, folder: Folder): FileResult
  {
    match produced
    case Failure(e) => FileResult(Some(e), folder)
    case Success(rendered) => SaveResult(name, rendered, writeError, folder)
  }

  /**
   * Whether a file fails, and with which message, in terms of the oracles
   * alone: the first of transcription, the .txt write and the .srt write to
   * raise decides.
   */
  function Outcome(name: string, produce: string -> Result<Rendered>, writeError: string -> Option<string>): Option<string>
  {
    match produce(name)
    case Failure(e) => Some(e)
    case Success(_) =>
      if writeError(TxtName(name)).Some? then writeError(TxtName(name)) else writeError(SrtName(name))
  }

  /** A file's outcome does not depend on what earlier files left in the folder. */
  lemma FileStepOutcome(name: string, produce: string -> Result<Rendered>, writeError: string -> Option<string>, folder: Folder)
    ensures FileStep(name, produce(name), writeError, folder).error == Outcome(name, produce, writeError)
  {
  }

  /** The two lists the batch loop fills: `successfully_processed` and `failed_files`. */
  datatype Report = Report(succeeded: seq<string>, failed: seq<(string, string)>)

  datatype RunResult = RunResult(report: Report, folder: Folder)

  /** The outcome of one file recorded in the report. */
  function Record(report: Report, name: string, error: Option<string>): Report
  {
    match error
    case None => Report(report.succeeded + [name], report.failed)
    case Some(e) => Report(report.succeeded, report.failed + [(name, e)])
  }

  /** The `for filename in media_files: try ... except ...` loop. */
  function Run(files: seq<string>, produce: string -> Result<Rendered>, writeError: string -> Option<string>, folder: Folder): RunResult
  {
    if files == [] then RunResult(Report([], []), folder)
    else
      var before := Run(files[..|files| - 1], produce, writeError, folder);
      var name := files[|files| - 1];
      var step := FileStep(name, produce(name), writeError, before.folder);
      RunResult(Record(before.report, name, step.error), step.folder)
  }

  lemma RunSnoc(files: seq<string>, name: string, produce: string -> Result<Rendered>,
                writeError: string -> Option<string>, folder: Folder)
    ensures var before := Run(files, produce, writeError, folder);
      var step := FileStep(name, produce(name), writeError, before.folder);
      Run(files + [name], produce, writeError, folder) == RunResult(Record(before.report, name, step.error), step.folder)
  {
    assert (files + [name])[..|files|] == files;
  }

  function FailedNames(failed: seq<(string, string)>): (names: seq<string>)
    ensures |names| == |failed| && forall i :: 0 <= i < |failed| ==> names[i] == failed[i].0
  {
    seq(|failed|, i requires 0 <= i < |failed| => failed[i].0)
  }

  /**
   * Each name in the success list is a file none of whose steps raised, and
   * each entry of the failure list carries the message its file raised.
   */
  predicate Classified(report: Report, produce: string -> Result<Rendered>, writeError: string -> Option<string>)
  {
    && (forall i :: 0 <= i < |report.succeeded| ==> Outcome(report.succeeded[i], produce, writeError).None?)
    && (forall i :: 0 <= i < |report.failed| ==>
          Outcome(report.failed[i].0, produce, writeError) == Some(report.failed[i].1))
  }

  /** Recording a file adds its name to exactly one list. */
  lemma RecordCounts(report: Report, name: string, error: Option<string>)
    ensures var r := Record(report, name, error);
      && |r.succeeded| + |r.failed| == |report.succeeded| + |report.failed| + 1
      && multiset(r.succeeded) + multiset(FailedNames(r.failed))
         == multiset(report.succeeded) + multiset(FailedNames(report.failed)) + multiset{name}
  {
    if error.Some? {
      assert FailedNames(report.failed + [(name, error.value)]) == FailedNames(report.failed) + [name];
    }
  }

  /** Recording a file under its own outcome keeps the report classified. */
  lemma RecordClassified(report: Report, name: string, produce: string -> Result<Rendered>,
                         writeError: string -> Option<string>)
    requires Classified(report, produce, writeError)
    ensures Classified(Record(report, name, Outcome(name, produce, writeError)), produce, writeError)
  {
  }

  /**
   * Every file lands in exactly one of the two lists (counting repeats), a
   * succeeded file is one none of whose steps raised, and a failed file is
   * recorded with the message of the exception it raised.
   */
  lemma {:induction false} RunPartition(files: seq<string>, produce: string -> Result<Rendered>,
                                        writeError: string -> Option<string>, folder: Folder)
    ensures var report := Run(files, produce, writeError, folder).report;
      && |report.succeeded| + |report.failed| == |files|
      && multiset(report.succeeded) + multiset(FailedNames(report.failed)) == multiset(files)
      && Classified(report, produce, writeError)
    decreases |files|
  {
    if files != [] {
      var init, name := files[..|files| - 1], files[|files| - 1];
      assert files == init + [name];
      RunPartition(init, produce, writeError, folder);
      RunSnoc(init, name, produce, writeError, folder);
      var before := Run(init, produce, writeError, folder);
      FileStepOutcome(name, produce, writeError, before.folder);
      RecordCounts(before.report, name, Outcome(name, produce, writeError));
      RecordClassified(before.report, name, produce, writeError);
    }
  }

  /**
   * A failing file never stops the loop, and order is kept: running `a + b`
   * is running `a`, then running `b` on the folder `a` left, with the two
   * reports joined.
   */
  lemma {:induction false} RunAppend(a: seq<string>, b: seq<string>, produce: string -> Result<Rendered>,
                                     writeError: string -> Option<string>, folder: Folder)
    ensures var first := Run(a, produce, writeError, folder);
      var second := Run(b, produce, writeError, first.folder);
      Run(a + b, produce, writeError, folder)
        == RunResult(Report(first.report.succeeded + second.report.succeeded,
                            first.report.failed + second.report.failed),
                     second.folder)
    decreases |b|
  {
    if b == [] {
      assert a + b == a;
    } else {
      var init, name := b[..|b| - 1], b[|b| - 1];
      assert a + b == (a + init) + [name];
      assert b == init + [name];
      RunAppend(a, init, produce, writeError, folder);
      RunSnoc(a + init, name, produce, writeError, folder);
      var first := Run(a, produce, writeError, folder);
      RunSnoc(init, name, produce, writeError, first.folder);
      var mid := Run(init, produce, writeError, first.folder);
      var step := FileStep(name, produce(name), writeError, mid.folder);
      RecordAfter(first.report, mid.report, name, step.error);
    }
  }

  /** Recording a file after a joined report is recording it after the second part. */
  lemma RecordAfter(first: Report, second: Report, name: string, error: Option<string>)
    ensures var r := Record(second, name, error);
      Record(Report(first.succeeded + second.succeeded, first.failed + second.failed), name, error)
        == Report(first.succeeded + r.succeeded, first.failed + r.failed)
  {
    match error
    case None =>
      assert first.succeeded + second.succeeded + [name] == first.succeeded + (second.succeeded + [name]);
    case Some(e) =>
      assert first.failed + second.failed + [(name, e)] == first.failed + (second.failed + [(name, e)]);
  }

  /** The results folder only gains names: nothing is ever deleted. */
  lemma {:induction false} RunKeepsNames(files: seq<string>, produce: string -> Result<Rendered>,
                                         writeError: string -> Option<string>, folder: Folder)
    ensures folder.Keys <= Run(files, produce, writeError, folder).folder.Keys
    decreases |files|
  {
    if files != [] {
      RunKeepsNames(files[..|files| - 1], produce, writeError, folder);
    }
  }

  /** Both outputs of every file in the success list are in the folder. */
  predicate OutputsExist(r: RunResult)
  {
    forall i :: 0 <= i < |r.report.succeeded| ==>
      TxtName(r.report.succeeded[i]) in r.folder && SrtName(r.report.succeeded[i]) in r.folder
  }

  /** Both outputs of every file reported as succeeded exist when the loop ends. */
  lemma {:induction false} RunOutputsExist(files: seq<string>, produce: string -> Result<Rendered>,
                                           writeError: string -> Option<string>, folder: Folder)
    ensures OutputsExist(Run(files, produce, writeError, folder))
    decreases |files|
  {
    if files != [] {
      var init, name := files[..|files| - 1], files[|files| - 1];
      RunOutputsExist(init, produce, writeError, folder);
      var before := Run(init, produce, writeError, folder);
      var step := FileStep(name, produce(name), writeError, before.folder);
      assert before.folder.Keys <= step.folder.Keys;
      if produce(name).Success? {
        SaveSucceeds(name, produce(name).value, writeError, before.folder);
      }
      var r := Run(files, produce, writeError, folder);
      assert r == RunResult(Record(before.report, name, step.error), step.folder);
      forall i | 0 <= i < |r.report.succeeded|
        ensures TxtName(r.report.succeeded[i]) in r.folder && SrtName(r.report.succeeded[i]) in r.folder
      {
        if i < |before.report.succeeded| {
          assert r.report.succeeded[i] == before.report.succeeded[i];
        }
      }
    }
  }

  /** A name that is no output of any file keeps whatever the folder held under it. */
  lemma {:induction false} RunFrame(files: seq<string>, produce: string -> Result<Rendered>,
                                    writeError: string -> Option<string>, folder: Folder, key: string)
    requires forall i :: 0 <= i < |files| ==> key != TxtName(files[i]) && key != SrtName(files[i])
    ensures var r := Run(files, produce, writeError, folder);
      && (key in r.folder <==> key in folder)
      && (key in folder ==> r.folder[key] == folder[key])
    decreases |files|
  {
    if files != [] {
      var init, name := files[..|files| - 1], files[|files| - 1];
      RunFrame(init, produce, writeError, folder, key);
      var before := Run(init, produce, writeError, folder);
      match produce(name)
      case Failure(_) =>
      case Success(rendered) => SaveFrame(name, rendered, writeError, before.folder, key);
    }
  }

  // ---------------------------------------------------------------------------
  // The closing timer line
  // ---------------------------------------------------------------------------

  /**
   * `int(elapsed_time // 60)` and `int(elapsed_time % 60)`: Python's floor
   * division and its never-negative modulo on the elapsed seconds, each then
   * truncated (the remainder is never negative, so truncation is flooring).
   */
  function ElapsedSplit(elapsed: real): (r: (int, int))
    ensures r.0 * 60 + r.1 == elapsed.Floor
    ensures 0 <= r.1 < 60
  {
    var minutes := (elapsed / 60.0).Floor;
    var rest := elapsed - 60.0 * minutes as real;
    assert 0.0 <= rest < 60.0;
    assert minutes as real * 60.0 + rest.Floor as real <= elapsed < minutes as real * 60.0 + rest.Floor as real + 1.0;
    (minutes, rest.Floor)
  }

  /** Those two numbers are the only minutes and seconds with that sum and seconds below 60. */
  lemma ElapsedSplitUnique(elapsed: real, minutes: int, seconds: int)
    requires minutes * 60 + seconds == elapsed.Floor && 0 <= seconds < 60
    ensures ElapsedSplit(elapsed) == (minutes, seconds)
  {
    var r := ElapsedSplit(elapsed);
    assert (r.0 - minutes) * 60 == seconds - r.1;
  }
}
