/**
 * `wavs_translate_to_text.py`: for every media file, the transcription gives
 * timed segments, rendered into a .txt and an .srt in the results folder
 * without speaker names.
 *
 * The Whisper model is an oracle: `transcribe(name)` is `result['segments']`
 * of its call on the file (or the message of the exception it raised).
 */
module TranslateScript {
  import opened Wrappers
  import opened Transcript
  import opened Batch

  /** The try block for one file, as a value: a transcription failure decides the message. */
  function PlainProduce(name: string, transcribe: string -> Result<seq<Segment>>): Result<Rendered>
  {
    match transcribe(name)
    case Failure(e) => Failure(e)
    case Success(segments) => Success(PlainRendering(segments))
  }

  /** The per-file producer the batch loop runs, one call of `PlainProduce` per name. */
  function Producer(transcribe: string -> Result<seq<Segment>>): string -> Result<Rendered>
  {
    name => PlainProduce(name, transcribe)
  }

  /** The body of the `try` for one file: transcribe, render, then write the .txt and the .srt. */
  method ProcessFile(name: string, transcribe: string -> Result<seq<Segment>>,
                     writeError: string -> Option<string>, folder: Folder)
    returns (r: FileResult)
    ensures r == FileStep(name, PlainProduce(name, transcribe), writeError, folder)
  {
    var result := transcribe(name);
    if result.Failure? {
      return FileResult(Some(result.error), folder);
    }
    var rendered := RenderPlain(result.value);
    r := SaveOutputs(name, rendered, writeError, folder);
  }

  /**
   * The `for filename in media_files` loop: each file's outcome is appended
   * to `successfully_processed` or to `failed_files`, and the loop goes on.
   */
  method ProcessMediaFiles(mediaFiles: seq<string>, transcribe: string -> Result<seq<Segment>>,
                           writeError: string -> Option<string>, folder: Folder)
    returns (successfullyProcessed: seq<string>, failedFiles: seq<(string, string)>, results: Folder)
    ensures RunResult(Report(successfullyProcessed, failedFiles), results)
         == Run(mediaFiles, Producer(transcribe), writeError, folder)
  {
    successfullyProcessed, failedFiles, results := [], [], folder;
    var i := 0;
    while i < |mediaFiles|
      invariant 0 <= i <= |mediaFiles|
      invariant RunResult(Report(successfullyProcessed, failedFiles), results)
             == Run(mediaFiles[..i], Producer(transcribe), writeError, folder)
    {
      var filename := mediaFiles[i];
      var step := ProcessFile(filename, transcribe, writeError, results);
      SliceSnoc(mediaFiles, i);
      RunSnoc(mediaFiles[..i], filename, Producer(transcribe), writeError, folder);
      if step.error.None? {
        successfullyProcessed := successfullyProcessed + [filename];
      } else {
        failedFiles := failedFiles + [(filename, step.error.value)];
      }
      results := step.folder;
      i := i + 1;
    }
    assert mediaFiles[..i] == mediaFiles;
  }

  /** The whole script over a folder listing: filter the media files, then run the loop. */
  method ProcessFolder(listing: seq<string>, transcribe: string -> Result<seq<Segment>>,
                       writeError: string -> Option<string>, folder: Folder)
    returns (successfullyProcessed: seq<string>, failedFiles: seq<(string, string)>, results: Folder)
    ensures RunResult(Report(successfullyProcessed, failedFiles), results)
         == Run(MediaFiles(listing), Producer(transcribe), writeError, folder)
  {
    var mediaFiles := MediaFiles(listing);
    successfullyProcessed, failedFiles, results := ProcessMediaFiles(mediaFiles, transcribe, writeError, folder);
  }

  /**
   * Without speaker labels nothing in the render can raise: a file fails
   * exactly when its transcription or one of its two writes raises.
   */
  lemma PlainFailsOnlyOnOracles(name: string, transcribe: string -> Result<seq<Segment>>,
                                writeError: string -> Option<string>)
    ensures Outcome(name, Producer(transcribe), writeError).None?
        <==> transcribe(name).Success? && writeError(TxtName(name)).None? && writeError(SrtName(name)).None?
  {
  }
}
