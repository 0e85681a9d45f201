# translate_meetings_to_txt, modelled in Dafny

The repository holds two batch scripts that turn recorded meetings into text.
Each script lists a folder and keeps the media files, picked by a
case-insensitive extension test. It transcribes each file with Whisper and
writes two files into the results folder: a `.txt` with one
`[start - end] ...` line per speech segment, and an `.srt` subtitle file with
cues numbered from 1.

- `wavs_to_txt_with_speaker_indetification.py` also clusters voice embeddings
  with DBSCAN. It gives each segment the speaker label at the same position,
  clamped to the last label. Its lines read `Спикер n`, or
  `Неизвестный спикер` for the noise label -1.
- `wavs_translate_to_text.py` writes the same outputs without speakers.

Both scripts process one file per `try` block. A file that raises is recorded
in `failed_files` with its message and the loop moves on. A file whose two
writes both succeed is recorded in `successfully_processed`. At the end the
scripts print the elapsed time as minutes and seconds.

Modules, one per file:

- `wrappers.dfy` (`Wrappers`): `Option` and `Result`.
- `pystr.dfy` (`PyStr`): the Python string operations the scripts use.
  - decimal formatting and zero padding (`f"{n:02}"`);
  - `str.strip()` over the whitespace `str.isspace()` accepts;
  - `str.lower()` as far as extensions need it;
  - `str.endswith(tuple)` and `os.path.splitext(p)[0]`;
  - parsers that read the formatted text back.
- `timestamp.dfy` (`Timestamp`): `format_timestamp_srt` over whole milliseconds, and its inverse.
- `speakers.dfy` (`Speakers`): the label lookup `labels[min(i, len - 1)]`, speaker names, and the DBSCAN cluster count.
- `transcript.dfy` (`Transcript`): the two segment loops, as methods proved against the functions that specify their output, and lemmas on what the outputs contain.
- `batch.dfy` (`Batch`): what both scripts share at the file level.
  - the media-file filter and the output names;
  - the two writes into the results folder;
  - the batch loop as a fold over the media files;
  - the elapsed-time split.
- `speaker_script.dfy` (`SpeakerScript`) and `translate_script.dfy` (`TranslateScript`): each script's per-file `try` body and its file loop, as methods proved equal to `Batch.Run`.

The model treats the outside world as parameters:

- Whisper is `transcribe(name)`: the file's segments, or the text of the exception it raised.
- Audio loading, embedding and DBSCAN are `diarize(name)`: the label array, or the exception text.
- The results folder is a map from output name to content. `writeError(outputName)` says whether writing that output raises, and with which message.

## Model

| member | source | states |
|---|---|---|
| PyStr.NatToString | wavs_to_txt_with_speaker_indetification.py:67 | decimal digits only, at least one; a leading '0' only for 0; one digit exactly below 10 |
| PyStr.PadNat | wavs_to_txt_with_speaker_indetification.py:67 | `{n:0w}` is all digits, of width `w` or the number's own length if longer |
| PyStr.PadNatRoundTrip | wavs_to_txt_with_speaker_indetification.py:67 | reading a zero-padded number back gives the number |
| PyStr.IntToStringRoundTrip | wavs_to_txt_with_speaker_indetification.py:108 | `f"{n}"` of an integer label, negative included, reads back as the label |
| PyStr.IntToStringInjective | wavs_to_txt_with_speaker_indetification.py:108 | two labels with the same decimal text are equal |
| PyStr.Strip | wavs_to_txt_with_speaker_indetification.py:104 | the result is the window between the leading and trailing whitespace runs, with no whitespace at either end |
| PyStr.StripUnique | wavs_to_txt_with_speaker_indetification.py:104 | any window with no whitespace at its ends and only whitespace outside it is what strip returns |
| PyStr.StripIdempotent | wavs_translate_to_text.py:83 | stripping twice is stripping once |
| PyStr.Lower | wavs_to_txt_with_speaker_indetification.py:47 | same length, each character lowered on its own; what that means for callers is stated by `PyStr.LowerIgnoresCase` and `PyStr.LowerIdempotent` |
| PyStr.LowerIgnoresCase | wavs_to_txt_with_speaker_indetification.py:47 | two strings that differ only in the case of their letters (ASCII, and k/K/KELVIN SIGN) lower to the same string |
| PyStr.LowerIdempotent | wavs_to_txt_with_speaker_indetification.py:47 | lowering twice is lowering once, and the result differs from the input only in letter case |
| PyStr.EndsWithAny | wavs_to_txt_with_speaker_indetification.py:47 | true exactly when one of the suffixes ends the string |
| PyStr.LastIndexOf | wavs_to_txt_with_speaker_indetification.py:118 | the last position holding the character, or -1 when none does |
| PyStr.SplitextRoot | wavs_to_txt_with_speaker_indetification.py:118 | the root is a prefix; a cut happens exactly when the last path component has a '.' after a non-dot character, and then it is at the last '.', with no '.' or '/' after it |
| PyStr.SplitextKeepsWhole | wavs_to_txt_with_speaker_indetification.py:118 | a name whose last component has no '.' after a non-dot character (`notes`, `.wav`, `dir/..mp3`) is its own root |
| PyStr.SplitextRootOfJoin | wavs_to_txt_with_speaker_indetification.py:118 | `splitext(root + "." + ext)[0]` is `root` for an extension without '.' or '/' and a last path component that is not all dots |
| Timestamp.DecomposeExact | wavs_to_txt_with_speaker_indetification.py:64-66 | hours*3600 + minutes*60 + secs is the whole seconds; minutes and secs below 60; millis below 1000; hours not wrapped at 24 |
| Timestamp.FormatLength | wavs_to_txt_with_speaker_indetification.py:67 | a timestamp is at least 12 characters, exactly 12 below 100 hours |
| Timestamp.FormatAlphabet | wavs_to_txt_with_speaker_indetification.py:67 | a timestamp holds only digits, ':' and ',' |
| Timestamp.ParseFormatRoundTrip | wavs_to_txt_with_speaker_indetification.py:60-67 | `HH:MM:SS,mmm` reads back as the offset it was made from |
| Timestamp.FormatInjective | wavs_translate_to_text.py:50-57 | distinct offsets give distinct timestamps |
| Timestamp.FormatExamples | wavs_translate_to_text.py:50-57 | 0 ms gives `00:00:00,000` and 3661.5 s gives `01:01:01,500` |
| Speakers.PyIndex | wavs_to_txt_with_speaker_indetification.py:107 | Python indexing: defined exactly on `-len <= k < len`, negative indices counting from the end |
| Speakers.SegmentLabel | wavs_to_txt_with_speaker_indetification.py:107 | segment i takes label i while there are enough, then the last label; it fails exactly when there are no labels |
| Speakers.SpeakerName | wavs_to_txt_with_speaker_indetification.py:108 | "Неизвестный спикер" exactly for label -1, otherwise "Спикер " followed by the label |
| Speakers.SpeakerNameRoundTrip | wavs_to_txt_with_speaker_indetification.py:108 | a speaker name reads back as its label |
| Speakers.SpeakerNameInjective | wavs_to_txt_with_speaker_indetification.py:108 | distinct labels give distinct names |
| Speakers.ClusterCount | wavs_to_txt_with_speaker_indetification.py:55 | the number of distinct labels other than -1; at most the number of labels; 0 exactly when every label is -1 |
| Speakers.NoNoiseCount | wavs_to_txt_with_speaker_indetification.py:55 | the distinct non-noise labels number at most the labels minus one when -1 occurs |
| Transcript.Align | wavs_to_txt_with_speaker_indetification.py:101-108 | fails exactly when there are segments but no labels; otherwise pairs every segment, in order, with its clamped positional label |
| Transcript.AlignSnoc | wavs_to_txt_with_speaker_indetification.py:101-107 | aligning one more segment appends it with its own label |
| Transcript.LineListAt | wavs_to_txt_with_speaker_indetification.py:111 | output line i is the render of item i |
| Transcript.CueListAt | wavs_to_txt_with_speaker_indetification.py:114-115 | cue i is the render of item i numbered first + i |
| Transcript.RenderAlignedSnoc | wavs_to_txt_with_speaker_indetification.py:111-115 | one more segment appends its line to the .txt and its cue, numbered one past the previous count, to the .srt |
| Transcript.PlainRenderingSnoc | wavs_translate_to_text.py:86-91 | the same for the plain script |
| Transcript.SpeakerSegmentOutput | wavs_to_txt_with_speaker_indetification.py:102-114 | the .txt line reads back as the segment's start and end, and the cue as number `srtCounter` with those two times; both are the per-segment parts of the speaker rendering |
| Transcript.SpeakerTxtLineTimes | wavs_to_txt_with_speaker_indetification.py:111 | a speaker .txt line reads back as its segment's two times |
| Transcript.SpeakerCueHeader | wavs_to_txt_with_speaker_indetification.py:114 | a speaker cue reads back as its number and its segment's two times |
| Transcript.RenderWithSpeakers | wavs_to_txt_with_speaker_indetification.py:97-115 | the loop builds exactly the speaker rendering of the aligned segments, and fails exactly when there are segments but no labels |
| Transcript.PlainSegmentOutput | wavs_translate_to_text.py:81-91 | the .txt line reads back as the segment's start and end, and the cue as number `srtCounter` with those two times; both are the per-segment parts of the plain rendering |
| Transcript.PlainTxtLineTimes | wavs_translate_to_text.py:86 | a plain .txt line reads back as its segment's two times |
| Transcript.PlainCueHeader | wavs_translate_to_text.py:89-90 | a plain cue reads back as its number and its segment's two times |
| Transcript.RenderPlain | wavs_translate_to_text.py:76-91 | the loop builds exactly the plain rendering of the segments |
| Transcript.LineTimesOf | wavs_to_txt_with_speaker_indetification.py:111 | a line starting `[start - end]` reads back as its two times |
| Transcript.CueHeaderOf | wavs_to_txt_with_speaker_indetification.py:114 | a cue reads back as its number and its two times |
| Transcript.SpeakerLinesCarryTimes | wavs_to_txt_with_speaker_indetification.py:111 | .txt line i reads back as segment i's start and end |
| Transcript.PlainLinesCarryTimes | wavs_translate_to_text.py:86 | .txt line i reads back as segment i's start and end |
| Transcript.SpeakerCuesNumbered | wavs_to_txt_with_speaker_indetification.py:114-115 | cue i is numbered i + 1 and carries segment i's times: numbering from 1 without gaps |
| Transcript.PlainCuesNumbered | wavs_translate_to_text.py:89-91 | cue i is numbered i + 1 and carries segment i's times |
| Transcript.SpeakerRenderingAppend | wavs_to_txt_with_speaker_indetification.py:99-115 | the output for `a + b` is `a`'s followed by `b`'s, with `b`'s cues numbered on from 1 + len(a) |
| Transcript.PlainRenderingAppend | wavs_translate_to_text.py:78-91 | the same for the plain script |
| Transcript.ConcatAppend | wavs_translate_to_text.py:86 | `+=` over two runs of parts is the two results joined |
| Batch.MediaFiles | wavs_to_txt_with_speaker_indetification.py:47 | a name is kept exactly when it is in the listing and passes the case-insensitive extension test |
| Batch.MediaFilesAppend | wavs_to_txt_with_speaker_indetification.py:47 | filtering keeps listing order |
| Batch.MediaFileIgnoresCase | wavs_to_txt_with_speaker_indetification.py:47 | names that differ only in letter case are both media files or neither |
| Batch.MediaFileAccepts | wavs_to_txt_with_speaker_indetification.py:46-47 | "meeting.WAV" and "call.Mp4" are media files |
| Batch.MediaFileRejects | wavs_translate_to_text.py:42-47 | "notes.txt" and "wav" are not |
| Batch.OutputNamesDiffer | wavs_to_txt_with_speaker_indetification.py:118-123 | a file's .txt and .srt names differ |
| Batch.OutputNamesOfMedia | wavs_to_txt_with_speaker_indetification.py:118-123 | `stem.ext` gives `stem.txt` and `stem.srt` |
| Batch.DotNameKeepsExtension | wavs_to_txt_with_speaker_indetification.py:118-123 | `.wav` is a media file whose outputs are `.wav.txt` and `.wav.srt` |
| Batch.LogStemCollides | wavs_to_txt_with_speaker_indetification.py:38 | the media file `log.wav` writes its transcript under the name of the run log, `log.txt` |
| Batch.SameStemSharesOutputs | wavs_to_txt_with_speaker_indetification.py:118-125 | "talk.wav" and "talk.mp3" write the same two outputs |
| Batch.SaveOutputs | wavs_to_txt_with_speaker_indetification.py:118-125 | the two writes in order, as SaveResult: a failed .txt write stores nothing and skips the .srt; a failed .srt write keeps the .txt |
| Batch.SaveSucceeds | wavs_to_txt_with_speaker_indetification.py:118-128 | saving succeeds exactly when neither write raises, and then both outputs hold what was rendered |
| Batch.SrtFailureKeepsTxt | wavs_to_txt_with_speaker_indetification.py:122-125 | a failing .srt write reports its message, the .txt written before stays, and no .srt appears |
| Batch.SaveFrame | wavs_translate_to_text.py:93-103 | saving touches the file's two outputs and nothing else |
| Batch.FileStepOutcome | wavs_to_txt_with_speaker_indetification.py:76-133 | a file's outcome depends only on the oracles for that file (its transcription, its clustering and the write failures for its own two output names), whatever the folder holds |
| Batch.RunSnoc | wavs_to_txt_with_speaker_indetification.py:75-133 | one more file runs its step on the folder the earlier files left, and appends its outcome to one list |
| Batch.RecordCounts | wavs_to_txt_with_speaker_indetification.py:128-133 | recording a file adds its name to exactly one of the two lists |
| Batch.RecordClassified | wavs_to_txt_with_speaker_indetification.py:128-133 | recording a file under its own outcome keeps both lists truthful |
| Batch.RunPartition | wavs_to_txt_with_speaker_indetification.py:70-133 | every media file ends in exactly one list, repeats counted; a succeeded file raised nowhere; a failed file carries the message it raised |
| Batch.RunAppend | wavs_translate_to_text.py:64-111 | a failure does not stop the loop, and order is kept: running `a + b` is running `a`, then `b` on the folder it left, with the lists joined |
| Batch.RecordAfter | wavs_translate_to_text.py:106-111 | appending to joined lists is appending to the second part |
| Batch.RunKeepsNames | wavs_translate_to_text.py:93-103 | the results folder only gains names |
| Batch.RunOutputsExist | wavs_to_txt_with_speaker_indetification.py:117-128 | when the loop ends, both outputs of every succeeded file are in the folder |
| Batch.RunFrame | wavs_to_txt_with_speaker_indetification.py:117-125 | a name that is no output of any file keeps what the folder held |
| Batch.ElapsedSplit | wavs_to_txt_with_speaker_indetification.py:147-150 | minutes*60 + seconds is the floor of the elapsed seconds, seconds in 0..59 |
| Batch.ElapsedSplitUnique | wavs_translate_to_text.py:125-128 | those are the only minutes and seconds with that property |
| SpeakerScript.ProcessFile | wavs_to_txt_with_speaker_indetification.py:76-133 | transcribe, cluster, render, save: the first step to raise decides the message, and nothing is written before rendering succeeds |
| SpeakerScript.ProcessMediaFiles | wavs_to_txt_with_speaker_indetification.py:70-133 | the file loop leaves exactly the lists and folder of `Batch.Run` over the files |
| SpeakerScript.ProcessFolder | wavs_to_txt_with_speaker_indetification.py:46-133 | the script over a listing is `Batch.Run` over its media files |
| SpeakerScript.EmptyLabelsFail | wavs_to_txt_with_speaker_indetification.py:107 | a file with segments and an empty label array fails with the IndexError and writes nothing |
| SpeakerScript.SilentFileSucceeds | wavs_to_txt_with_speaker_indetification.py:101-115 | a file with no segments never indexes the labels and renders two empty outputs |
| TranslateScript.ProcessFile | wavs_translate_to_text.py:65-111 | transcribe, render, save, with the transcription's or a write's message on failure |
| TranslateScript.ProcessMediaFiles | wavs_translate_to_text.py:61-111 | the file loop leaves exactly the lists and folder of `Batch.Run` over the files |
| TranslateScript.ProcessFolder | wavs_translate_to_text.py:46-111 | the script over a listing is `Batch.Run` over its media files |
| TranslateScript.PlainFailsOnlyOnOracles | wavs_translate_to_text.py:65-111 | a file fails exactly when its transcription or one of its writes raises |
| Timestamp.Decompose | wavs_to_txt_with_speaker_indetification.py:62-66 | hours, minutes, secs and millis of an offset; stated by `Timestamp.DecomposeExact` |
| Timestamp.FormatTimestampSrt | wavs_to_txt_with_speaker_indetification.py:60-67 | `f"{hours:02}:{minutes:02}:{secs:02},{millis:03}"`; stated by `Timestamp.ParseFormatRoundTrip`, `Timestamp.FormatLength`, `Timestamp.FormatAlphabet`, `Timestamp.FormatInjective` |
| PyStr.IntToString | wavs_to_txt_with_speaker_indetification.py:108 | `str(n)` of a label; stated by `PyStr.IntToStringRoundTrip` and `PyStr.IntToStringInjective` |
| Transcript.SpeakerTxtLine | wavs_to_txt_with_speaker_indetification.py:111 | the .txt f-string of one segment; stated by `Transcript.SpeakerTxtLineTimes` |
| Transcript.SpeakerCue | wavs_to_txt_with_speaker_indetification.py:114 | the .srt f-string of one segment; stated by `Transcript.SpeakerCueHeader` |
| Transcript.PlainTxtLine | wavs_translate_to_text.py:86 | the .txt f-string of one segment; stated by `Transcript.PlainTxtLineTimes` |
| Transcript.PlainCue | wavs_translate_to_text.py:89-90 | the .srt f-string of one segment; stated by `Transcript.PlainCueHeader` |
| Transcript.SpeakerRendering | wavs_to_txt_with_speaker_indetification.py:97-115 | what the speaker loop leaves in `final_text` and `srt_content`; stated by `Transcript.RenderWithSpeakers`, `Transcript.SpeakerLinesCarryTimes`, `Transcript.SpeakerCuesNumbered`, `Transcript.SpeakerRenderingAppend` |
| Transcript.PlainRendering | wavs_translate_to_text.py:76-91 | what the plain loop leaves in `final_text` and `srt_content`; stated by `Transcript.RenderPlain`, `Transcript.PlainLinesCarryTimes`, `Transcript.PlainCuesNumbered`, `Transcript.PlainRenderingAppend` |
| Batch.IsMediaFile | wavs_to_txt_with_speaker_indetification.py:47 | `f.lower().endswith(extensions)`; stated by `Batch.MediaFileIgnoresCase`, `Batch.MediaFileAccepts`, `Batch.MediaFileRejects` |
| Batch.TxtName | wavs_to_txt_with_speaker_indetification.py:118 | `splitext(filename)[0] + ".txt"`; stated by `Batch.OutputNamesDiffer`, `Batch.OutputNamesOfMedia` |
| Batch.SrtName | wavs_to_txt_with_speaker_indetification.py:123 | `splitext(filename)[0] + ".srt"`; stated by `Batch.OutputNamesDiffer`, `Batch.OutputNamesOfMedia` |
| Batch.SaveResult | wavs_to_txt_with_speaker_indetification.py:117-125 | the two writes as a value; stated by `Batch.SaveSucceeds`, `Batch.SrtFailureKeepsTxt`, `Batch.SaveFrame` |
| Batch.FileStep | wavs_to_txt_with_speaker_indetification.py:76-133 | one `try` block: a failure before the writes stores nothing; stated by `Batch.FileStepOutcome` |
| Batch.Outcome | wavs_to_txt_with_speaker_indetification.py:76-133 | which step of a file raises first, from the oracles alone; stated by `Batch.FileStepOutcome`, `Batch.RunPartition` |
| Batch.Record | wavs_to_txt_with_speaker_indetification.py:128-133 | `successfully_processed.append` or `failed_files.append`; stated by `Batch.RecordCounts`, `Batch.RecordClassified`, `Batch.RecordAfter` |
| Batch.Run | wavs_to_txt_with_speaker_indetification.py:75-133 | the file loop as a fold; stated by `Batch.RunPartition`, `Batch.RunAppend`, `Batch.RunOutputsExist`, `Batch.RunKeepsNames`, `Batch.RunFrame` |
| SpeakerScript.SpeakerProduce | wavs_to_txt_with_speaker_indetification.py:81-115 | transcription, then clustering, then the speaker rendering, the first failure winning; stated by `SpeakerScript.EmptyLabelsFail`, `SpeakerScript.SilentFileSucceeds` |
| TranslateScript.PlainProduce | wavs_translate_to_text.py:70-91 | transcription, then the plain rendering; stated by `TranslateScript.PlainFailsOnlyOnOracles` |

## Left out

- Timestamp.FormatTimestampSrt: takes an offset in whole milliseconds. The float arithmetic of `timedelta(seconds=...)`, `int(td.total_seconds())` and `int((seconds - total_seconds) * 1000)` is not modelled. Neither is the loss of a millisecond in the float product: `(1.14 - 1) * 1000` is 139.99999999999991, so 1.14 s prints as `,139`. Segment times are `nat` milliseconds throughout.
- Batch.ElapsedSplit: the elapsed time is a `real`, not an IEEE double, and `time.time()` is not modelled. The elapsed time is a parameter.
- CUDA detection, the choice between the `medium` and `small` models, `whisper.load_model` and the construction of the `VoiceEncoder` run once, before the loop. They are setup and are not modelled.
- The per-file model calls are two oracles with one result per file. The Whisper call is `transcribe`. `torchaudio.load`, the mono downmix, `preprocess_wav`, the embeddings and the DBSCAN fit together are `diarize`.
- The detected-language lookup and its default `"неизвестно"` are not modelled: they only feed a print.
- `os.listdir` is a given listing. Its order is whatever that listing holds.
- `load_dotenv()` sets environment variables, and `os.makedirs(results_folder, exist_ok=True)` creates the results folder if it is missing. Both are setup with no effect on the modelled folder's contents, and are not modelled.
- Redirecting stdout into `log.txt`, every `print`, the `tqdm` bar, `traceback.print_exc()` and the closing report printout are not modelled. They write only to the log or the console; what the log shares with the results folder is under `Batch.RunFrame` below.
- Batch.FileStepOutcome: a write failure is a fixed function of the output name, `writeError`. It cannot depend on the content, the folder or earlier writes, so a disk that fills up during the run and fails later files because of earlier ones is not modelled. `Batch.RunPartition` and `Batch.Classified` do not rely on this.
- Writing a file is one atomic map update or one raised message. A write that raises after `open()` has already truncated an existing file, or after writing part of the content, is not modelled.
- Batch.RunFrame: the folder map leaves out `log.txt`, which each script opens in the results folder and keeps writing while the loop runs. A media file with the stem `log`, such as `log.wav`, writes its transcript to that same name (`Batch.LogStemCollides`), and what ends up on disk then depends on the two open handles, which is not modelled.
- PyStr.Lower: lowers ASCII letters and the Kelvin sign (which lowers to 'k'). Other characters are left as they are. The extension test depends on no other part of `str.lower()`.
- PyStr.SplitextRoot: follows the POSIX `os.path.splitext`. The Windows separators `\` and drive letters are not modelled.
- Exceptions are their message strings: `str(e)` is what the failure list keeps. Only the empty-label IndexError has its text fixed in the model, `Speakers.EMPTY_LABELS_ERROR`. Other messages come from the oracles.
- `all_videos_to_wav.py` and `check_cuda.py` are not part of this model: they are not part of the transcription core.
