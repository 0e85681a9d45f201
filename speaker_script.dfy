/**
 * `wavs_to_txt_with_speaker_indetification.py`: for every media file, the
 * transcription gives timed segments, the voice clustering gives one label per
 * embedding frame, and the two are rendered into a .txt and an .srt in the
 * results folder.
 *
 * The two models are oracles: `transcribe(name)` is `result['segments']` of
 * the Whisper call (or the message of the exception it raised), and
 * `diarize(name)` is the DBSCAN label array computed from the audio file (or
 * the message of the exception loading, embedding or clustering raised).
 */
module SpeakerScript {
  import opened Wrappers
  import opened Speakers
  import opened Transcript
  import opened Batch

  /** The try block for one file, as a value: the first step to raise decides the message. */
  function SpeakerProduce(name: string, transcribe: string -> Result<seq<Segment>>,
                          diarize: string -> Result<seq<int>>): Result<Rendered>
  {
    match transcribe(name)
    case Failure(e) => Failure(e)
    case Success(segments) =>
      match diarize(name)
      case Failure(e) => Failure(e)
      case Success(labels) => SpeakerRendering(segments, labels)
  }

  /** The per-file producer the batch loop runs, one call of `SpeakerProduce` per name. */
  function Producer(transcribe: string -> Result<seq<Segment>>, diarize: string -> Result<seq<int>>)
    : string -> Result<Rendered>
  {
    name => SpeakerProduce(name, transcribe, diarize)
  }

  /**
   * The body of the `try` for one file: transcribe, cluster the voices,
   * render the segments with their speakers, then write the .txt and the .srt.
   */
  method ProcessFile(name: string, transcribe: string -> Result<seq<Segment>>, diarize: string -> Result<seq<int>>,
                     writeError: string -> Option<string>, folder: Folder)
    returns (r: FileResult)
    ensures r == FileStep(name, SpeakerProduce(name, transcribe, diarize), writeError, folder)
  {
    var result := transcribe(name);
    if result.Failure? {
      return FileResult(Some(result.error), folder);
    }
    var speakerLabels := diarize(name);
    if speakerLabels.Failure? {
      return FileResult(Some(speakerLabels.error), folder);
    }
    var rendered := RenderWithSpeakers(result.value, speakerLabels.value);
    if rendered.Failure? {
      return FileResult(Some(rendered.error), folder);
    }
    r := SaveOutputs(name, rendered.value, writeError, folder);
  }

  /**
   * The `for filename in media_files` loop: each file's outcome is appended
   * to `successfully_processed` or to `failed_files`, and the loop goes on.
   */
  method ProcessMediaFiles(mediaFiles: seq<string>, transcribe: string -> Result<seq<Segment>>,
                           diarize: string -> Result<seq<int>>, writeError: string -> Option<string>, folder: Folder)
    returns (successfullyProcessed: seq<string>, failedFiles: seq<(string, string)>, results: Folder)
    ensures RunResult(Report(successfullyProcessed, failedFiles), results)
         == Run(mediaFiles, Producer(transcribe, diarize), writeError, folder)
  {
    successfullyProcessed, failedFiles, results := [], [], folder;
    var i := 0;
    while i < |mediaFiles|
      invariant 0 <= i <= |mediaFiles|
      invariant RunResult(Report(successfullyProcessed, failedFiles), results)
             == Run(mediaFiles[..i], Producer(transcribe, diarize), writeError, folder)
      decreases |mediaFiles| - i
    {
      var filename := mediaFiles[i];
      var step := ProcessFile(filename, transcribe, diarize, writeError, results);
      SliceSnoc(mediaFiles, i);
      RunSnoc(mediaFiles[..i], filename, Producer(transcribe, diarize), writeError, folder);
      if step.error.None? {
        successfullyProcessed := successfullyProcessed + [filename];
      } else {
        failedFiles := failedFiles + [(filename, step.error.value)];
      }
      results := step.folder;
      i := i + 1;
    }
    assert mediaFiles[..i] == mediaFiles;
  }

  /** The whole script over a folder listing: filter the media files, then run the loop. */
  method ProcessFolder(listing: seq<string>, transcribe: string -> Result<seq<Segment>>,
                       diarize: string -> Result<seq<int>>, writeError: string -> Option<string>, folder: Folder)
    returns (successfullyProcessed: seq<string>, failedFiles: seq<(string, string)>, results: Folder)
    ensures RunResult(Report(successfullyProcessed, failedFiles), results)
         == Run(MediaFiles(listing), Producer(transcribe, diarize), writeError, folder)
  {
    var mediaFiles := MediaFiles(listing);
    successfullyProcessed, failedFiles, results := ProcessMediaFiles(mediaFiles, transcribe, diarize, writeError, folder);
  }

  /**
   * A file with speech but an empty label array fails with the IndexError of
   * `speaker_labels[-1]`, before anything is written.
   */
  lemma EmptyLabelsFail(name: string, transcribe: string -> Result<seq<Segment>>, diarize: string -> Result<seq<int>>,
                        writeError: string -> Option<string>, folder: Folder)
    requires transcribe(name).Success? && |transcribe(name).value| > 0
    requires diarize(name) == Success([])
    ensures FileStep(name, SpeakerProduce(name, transcribe, diarize), writeError, folder)
         == FileResult(Some(EMPTY_LABELS_ERROR), folder)
  {
  }

  /**
   * A file without segments never indexes the labels: it succeeds with two
   * empty outputs whatever the clustering gave, if both writes succeed.
   */
  lemma SilentFileSucceeds(name: string, transcribe: string -> Result<seq<Segment>>, diarize: string -> Result<seq<int>>)
    requires transcribe(name) == Success([]) && diarize(name).Success?
    ensures SpeakerProduce(name, transcribe, diarize) == Success(Rendered("", ""))
  {
    assert Align([], diarize(name).value) == Some([]);
  }
}
