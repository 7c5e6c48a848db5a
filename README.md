# youtube-downloader-4k: the stream selection and download core, in Dafny

This project models the part of youtube-downloader-4k that decides what is downloaded.

- **`YouTubeHelper` (helper.py).** The class builds the resolution and bit-rate label lists of a video's stream catalogue. It picks the "best" resolution and frame rate for `auto_download`. It chooses between a progressive download and a video-only download muxed with the best audio. `get_audio` picks an audio stream and converts it when another container is asked for. `readable_time` formats a duration.
- **The command-line script (runme.py).** It validates the `--quality` argument, resolves `--folder`, leaves at once on `--info`, and dispatches to the helper.

The video library (pytube) and ffmpeg are not modelled. The catalogue is a `Source` value: the streams in catalogue order, plus the two descending views the library's `order_by(...).desc()` produces. A stream without a resolution, such as an audio-only stream (pytube's `resolution` is None), has the empty resolution `""`, which is falsy as None is. `filter(...)` and `.last()` are specified by `Streams.Matches` and `Streams.LastMatch`. Whether ffmpeg was found at import time is a boolean fixed when the helper is made. Every effect `get_video` and `get_audio` have is an entry in an action log: a download, an ffmpeg mux, an ffmpeg conversion, or a file removal. The log comes with the exception the call raises, if any. `Downloads.Files` replays a log to give the files present afterwards.

The modules are:

- **Wrappers and Errors:** `Option`, `Result`, and the exceptions of the core.
- **Text:** `str.find`, `str.rfind`, Python's `<` on strings, and `split`.
- **Decimal:** `isdigit`, `int()`, `str()` and `{:02d}` on ASCII digits.
- **Clock:** `readable_time` and a parser that reads its output back.
- **Streams:** the stream record, the library's filter and last match, the catalogue labels, and their de-duplication.
- **Selection:** the scan of `auto_download`, as written and with a numeric comparison.
- **Downloads:** `get_video` and `get_audio` as functions from a catalogue to a log.
- **Helper:** the class `YouTubeHelper`. Its mutable `index` names the temporary files of each `get_video` call. Its methods are proved against the functions above.
- **Cli:** runme.py. It has the quality parser, the folder rule, the dispatcher and the whole script. Each loop and each step-by-step reassignment is a method proved equal to a function.

## Model

| member | source | states |
|---|---|---|
| `Text.Find` | helper.py:54 | the index of the first occurrence of the character, or -1 exactly when it does not occur |
| `Text.RFind` | runme.py:137 | the index of the last occurrence, or -1 exactly when the character does not occur; nothing after it is that character |
| `Text.StrLess` | helper.py:57 | a string below another in Python's string order differs from it, so the break never fires on a repeated prefix |
| `Decimal.Dec` | helper.py:180 | `str(n)` is a non-empty string of digits, one digit long exactly below 10 |
| `Decimal.IntStr` | helper.py:132 | `str(i)` of an int: the decimal spelling for a non-negative value, a leading '-' for a negative one |
| `Decimal.Pad2` | helper.py:248 | two-digit padding keeps the value, and is two characters long below 100 |
| `Decimal.ValueOfDec` | helper.py:62 | `int(str(n)) == n` |
| `Decimal.DecInjective` | helper.py:103-105 | distinct numbers have distinct decimal spellings |
| `Clock.ClockParts` | helper.py:244-247 | the floor divisions recombine to the input, minutes and seconds are below 60, and the hours are zero exactly below one hour for a non-negative input |
| `Clock.Render` | helper.py:248-249 | the text splits at ':' into the decimal hours, then the two-digit minutes and seconds, the hours field present exactly when the hours are positive |
| `Clock.ReadableTime` | helper.py:235-249 | a non-negative duration formatted by `readable_time` reads back as the same number of seconds |
| `Clock.RenderWithHours` | helper.py:248 | `H:MM:SS` reads back as hours*3600 + minutes*60 + seconds |
| `Clock.RenderWithoutHours` | helper.py:248-249 | `MM:SS` reads back as minutes*60 + seconds |
| `Clock.ReadableTimeShape` | helper.py:248-249 | three fields exactly from one hour on and two below it; the last two fields have two digits each |
| `Clock.ReadableTimeNegative` | helper.py:244-249 | a negative duration prints as its remainder modulo one hour, with no hours field |
| `Streams.Matches` | helper.py:87 | a query whose arguments are all falsy, an fps of 0 included, lets every stream through |
| `Streams.LastMatch` | helper.py:87-92 | `filter(...).last()` is None exactly when no stream matches; otherwise it is a matching stream with no match after it in catalogue order |
| `Streams.ResolutionLabel` | helper.py:177-180 | the label starts with the stream's resolution; at more than 30 fps the rest is the decimal frame rate, which reads back as that rate; otherwise the label is the resolution alone |
| `Streams.ResolutionLabels` | helper.py:176-180 | one label per stream of the view, in view order: the resolution, followed by the frame rate when it exceeds 30 |
| `Streams.AbrLabels` | helper.py:195-196 | one label per audio stream of the view, its bit-rate string, in view order |
| `Streams.Dedup` | helper.py:181-184 | the list is no longer than its input and holds only labels of the input |
| `Streams.PairLabels` | helper.py:176-185 | a two-stream view with distinct labels gives both labels, in view order |
| `Streams.DedupSnoc` | helper.py:181-184 | appending a label to the list adds it exactly when it is not there yet |
| `Streams.DedupMembers` | helper.py:181-184 | the de-duplicated list holds exactly the labels of the input |
| `Streams.DedupNoDuplicates` | helper.py:181-184 | no label appears twice |
| `Streams.DedupFirstOccurrenceOrder` | helper.py:176-185 | the labels come in the order of their first occurrence in the view |
| `Streams.ResolutionLabelsCover` | helper.py:176-185 | every label of a stream in the video-only view is listed, and every listed label is the label of some stream of the view |
| `Streams.AbrLabelsCover` | helper.py:194-199 | every bit rate of a stream in the audio view is listed, and every listed bit rate is some stream's of the view |
| `Selection.FpsText` | helper.py:56 | the text after the first 'p' is no longer than the label, and is the whole label when there is no 'p' |
| `Selection.LabelReassembles` | helper.py:54-56 | a label with a 'p' is `number`, the 'p' and `frame_per_second` put back together, and `number` holds no 'p'; without a 'p', `number` is the label minus its last character and `frame_per_second` the whole label |
| `Selection.AutoChoice` | helper.py:49-66 | the scan of `auto_download` over the whole label list fails only with a ValueError from `int()`; its result is characterised by ChoiceRaisesAt, ChoiceSucceeds and AutoChoiceOfNamedFirst |
| `Selection.FirstNamedFrom` | helper.py:59-60 | the first label with a non-empty resolution prefix, where `highest_resolution` becomes truthy |
| `Selection.StopFrom` | helper.py:57-58 | the first label whose prefix is below the recorded one; none before it is |
| `Selection.Stop` | helper.py:57-58 | the scan stops at or before the end of the list, and never at or before the first named label |
| `Selection.FirstUnparsable` | helper.py:61-64 | the first label whose frame-rate text `int()` rejects; all before it parse |
| `Selection.HighestStep` | helper.py:59-60 | the recorded prefix is truthy exactly after the first named label, and a falsy one is overwritten |
| `Selection.BreakAtStop` | helper.py:57-58 | inside the window, the break condition holds exactly at the window's end |
| `Selection.ChoiceRaisesAt` | helper.py:61-64 | the first unparsable frame rate inside the window raises ValueError naming that text |
| `Selection.ChoiceSucceeds` | helper.py:65 | with every frame rate in the window parsable, the choice is the recorded prefix plus 'p' and the window's largest frame rate |
| `Selection.ScanStep` | helper.py:57-64 | one pass of the loop body: how the recorded prefix moves on, and the error an unparsable frame rate raises |
| `Selection.FpsUpdateIsMax` | helper.py:61-64 | the two-branch update, with 0 as falsy, computes the maximum of the old and the new frame rate |
| `Selection.UpdateFps` | helper.py:61-64 | the maximum of the old and the announced frame rate, or ValueError when `int()` rejects the text |
| `Selection.SelectBest` | helper.py:50-65 | the loop, with its break and its string comparison, yields the choice of AutoChoice in the string order |
| `Selection.LabelParsesBack` | helper.py:54-56 | a label built from a library resolution splits back into its digits, and its frame rate reads back exactly when it exceeds 30 |
| `Selection.AutoChoiceOfEmpty` | helper.py:65 | an empty label list gives the resolution "Nonep" and no frame rate |
| `Selection.MaxFpsNone` | helper.py:61-64 | the frame rate stays None exactly when no label in the window announces one |
| `Selection.MaxFpsAttained` | helper.py:61-64 | a chosen frame rate is announced by some label in the window |
| `Selection.MaxFpsBound` | helper.py:61-64 | no label in the window announces a frame rate above the chosen one |
| `Selection.StopOfNamedFirst` | helper.py:57-58 | when the first prefix is named, the window runs up to the first later label whose prefix is below it |
| `Selection.AutoChoiceOfNamedFirst` | helper.py:53-66 | when the first prefix is named: the resolution is that prefix, an unparsable rate in the window raises, and the frame rate is the window's largest |
| `Selection.SplitsAfterDigits` | helper.py:54-56 | digits, 'p' and a suffix split at that 'p' into the digits and the suffix |
| `Selection.StopIs` | helper.py:57-58 | the window ends at the first label whose prefix falls below the first one |
| `Selection.ChoiceOfWindow` | helper.py:53-65 | the choice over a parsable window that starts with a named prefix |
| `Selection.MixedLabels` | helper.py:177-180 | the two labels of a mixed catalogue read back |
| `Selection.PairTakesBoth` | helper.py:53-65 | two labels, the second not below the first: both are scanned and the frame rate is the larger one |
| `Selection.PairStopsAtSecond` | helper.py:57-58 | two labels, the second below the first: only the first label is scanned |
| `Selection.MixedViewChoice` | helper.py:49-66 | a video-only view of a higher resolution at 30 fps or less and a lower one above 30 fps, the lower not below the higher as a string: the scan asks for the higher resolution at the lower one's frame rate |
| `Selection.TextualChoiceMixes` | helper.py:57 | when a lower resolution does not compare below the higher one as a string, the higher resolution is asked for at the lower one's frame rate |
| `Selection.NumericChoiceSeparates` | helper.py:57 | compared as integers, the lower resolution ends the window |
| `Selection.TextualOrderMixesResolutions` | helper.py:57 | for 1080p and 720p60, the string order asks for 1080p at 60 fps and the integer order for 1080p |
| `Selection.ScanTakesAll` | helper.py:53-65 | when no later prefix falls below the first, every label is scanned |
| `Selection.ScanStopsAtSecond` | helper.py:57-58 | when the second prefix falls below the first, the first label alone is scanned |
| `Selection.PlainLabel` | helper.py:177-180 | a resolution label without a frame rate reads back |
| `Selection.RatedLabel` | helper.py:179-180 | a label with a frame rate appended reads back with that frame rate |
| `Selection.ScanOfFive` | helper.py:53-65 | five labels none below the first, only the second rated: that rate is chosen |
| `Selection.DescendingTextual` | helper.py:57 | a descending five-label catalogue whose lower prefixes do not compare below the top one as strings: the top resolution is asked for at a frame rate only a lower one has |
| `Selection.DescendingNumeric` | helper.py:57 | the same catalogue compared as integers asks for the top resolution with no frame rate |
| `Selection.DescendingCatalogChoice` | helper.py:57 | the catalogue 1080p, 720p60, 720p, 480p, 360p gives 1080p at 60 fps as written, and 1080p with none when compared as integers |
| `Selection.NumericWindowIsTop` | helper.py:57-58 | with numeric prefixes sorted downwards, the integer window is exactly the labels at the top resolution |
| `Selection.NumericChoiceTakesTopResolution` | helper.py:53-65 | with the integer comparison, the top resolution is chosen; the frame rate is the largest one offered at that resolution, and None exactly when none is offered there |
| `Downloads.Dir` | helper.py:86 | a falsy folder is the working directory, and any other folder is kept |
| `Downloads.NormalizeFormat` | helper.py:143 | the result starts with '.'; a '.' is prepended exactly when the format does not start with one, so "..mp3" keeps both dots |
| `Downloads.NormalizeFormatIdempotent` | helper.py:143 | normalizing twice is normalizing once |
| `Downloads.VideoPlan` | helper.py:82-112 | a download, if any, comes first and takes a stream of the catalogue; a call without error downloads once (progressive) or runs the five steps of the mux, which need ffmpeg; FfmpegNotAvailable is raised exactly when ffmpeg is missing and nothing was downloaded; without ffmpeg at most one download happens; `get_video` never raises the ValueError of `int()` |
| `Downloads.AudioTarget` | helper.py:127-137 | None takes the highest-bit-rate audio stream and fails only when there is none; a non-int raises TypeError; an int takes an audio stream of exactly `<int>kbps` from the catalogue, or raises ValueError naming that bit rate |
| `Downloads.AudioPlan` | helper.py:126-151 | nothing is downloaded exactly when the stream selection fails, and then its error is raised; otherwise the selected stream is downloaded first, under the title in the folder |
| `Downloads.FetchAudio` | helper.py:140-151 | the stream is downloaded first under the title; the only error is FfmpegNotAvailable, when ffmpeg is missing; the log is the download alone or download, conversion and removal |
| `Downloads.NoStreamOfQuality` | helper.py:87-112 | when no stream has the resolution and the truthy frame rate, nothing is downloaded and ValueError names both |
| `Downloads.QualityTextNamesBoth` | helper.py:111 | the quality in the error is the resolution, followed by the frame rate exactly when it is truthy |
| `Downloads.ProgressiveDownloadsOnce` | helper.py:85-93 | a progressive match is downloaded once as `<title>.mp4` in the folder; the outcome does not depend on ffmpeg; one file is added |
| `Downloads.FfmpegCheckedFirst` | helper.py:94-96 | without a progressive match and without ffmpeg, the call raises before any search or download |
| `Downloads.NoVideoMatch` | helper.py:110-112 | with no progressive and no video-only match, nothing is downloaded and ValueError names the quality |
| `Downloads.MuxPath` | helper.py:99-109 | video and best audio are downloaded under this call's temporary names, muxed into `<title>.mp4`, and both temporary files are removed |
| `Downloads.MuxWithoutAudio` | helper.py:102-105 | with no audio stream, the temporary video is downloaded, the call fails, and that file stays |
| `Downloads.TempNamesDistinct` | helper.py:103-105 | temporary names of different calls differ, and a video name is never an audio name |
| `Downloads.AudioDefaultTakesHighest` | helper.py:127-128 | with no quality, the first stream of the descending audio view (the highest bit rate) is downloaded under the title; with an empty view the call fails first |
| `Downloads.BestAudioOfCatalog` | helper.py:128 | for views taken from the catalogue (`ViewsOf`), the best audio is an audio-only stream of the catalogue, and there is one exactly when the catalogue has an audio-only stream |
| `Downloads.AudioRejectsNonInt` | helper.py:129-130 | a quality that is neither None nor an int raises TypeError before any download |
| `Downloads.AudioExactBitrate` | helper.py:131-137 | an int quality needs an audio stream of exactly that bit rate, and the last such stream of the catalogue is downloaded; the call fails with nothing downloaded exactly when there is none |
| `Downloads.FetchAudioConverts` | helper.py:140-151 | the download is converted and removed exactly when its extension differs from the format and ffmpeg is available; without ffmpeg it fails and keeps the file |
| `Downloads.AudioConversion` | helper.py:126-151 | the same conversion rule applied to the stream `get_audio` selects |
| `Downloads.AudioWithoutFormat` | helper.py:142 | with a falsy format, the downloaded file is kept as it is |
| `Helper.YouTubeHelper.constructor` | helper.py:30-39 | a new helper holds the video and the ffmpeg flag, and its index is 0 |
| `Helper.YouTubeHelper.GetAllResolution` | helper.py:168-185 | the loop returns the de-duplicated labels of the video-only view: no duplicates, every stream's label present, nothing else |
| `Helper.YouTubeHelper.GetAllAudioQuality` | helper.py:187-199 | the loop returns the de-duplicated bit rates of the audio view: no duplicates, every stream's bit rate present, nothing else |
| `Helper.YouTubeHelper.GetVideo` | helper.py:70-112 | the index grows by one, and the call's log is the plan for the new index |
| `Helper.YouTubeHelper.AutoDownload` | helper.py:41-68 | the scan's choice is passed to GetVideo, and the log is AutoPlan for the next index; an unparsable frame rate raises before GetVideo and leaves the index unchanged, any other outcome advances it by one |
| `Helper.YouTubeHelper.GetAudio` | helper.py:114-151 | the call's log is the audio plan for the quality and the format |
| `Cli.ParseQualityText` | runme.py:102-125 | an accepted label is kept as given, has a 'p', and digits on both sides of its first 'p'; an accepted bit rate has no 'p', is all digits and is their value; a string of digits alone is always accepted; the result is never the unset quality |
| `Cli.ParseQuality` | runme.py:100-125 | the quality stays unset exactly when the argument is absent or empty |
| `Cli.CheckDigits` | runme.py:108-124 | the loop accepts exactly the strings made of digits |
| `Cli.ParseQualityArg` | runme.py:100-125 | the step-by-step validation agrees with ParseQualityText |
| `Cli.QualityAcceptance` | runme.py:102-125 | a non-empty quality is accepted exactly when it holds only digits and 'p', with at most one 'p' |
| `Cli.KbpsRoundTrip` | runme.py:119-125 | a decimal bit rate is accepted as that integer |
| `Cli.LabelRoundTrip` | runme.py:102-117 | a label `<digits>p<digits>` is accepted as given, and splits back into its two parts |
| `Cli.PathnameValid` | runme.py:18-19 | a valid pathname is never empty |
| `Cli.RStripSlashes` | runme.py:137 | the result is a prefix of the input that does not end in '/', and all that is cut off is slashes |
| `Cli.SplitPath` | runme.py:137 | the tail is what follows the last '/' and holds none; the head is what precedes the tail, with its trailing slashes removed unless it is made of slashes only |
| `Cli.KeepsTailUnlessDotted` | runme.py:138 | the condition keeps the whole path exactly when the tail does not start with '.' |
| `Cli.FolderChoice` | runme.py:137-141 | a tail starting with '.' leaves the directory part alone; any other tail keeps the cleaned joined path |
| `Cli.TargetDir` | runme.py:128-150 | a chosen directory comes from a valid folder argument by the folder rule, and it exists or can be made |
| `Cli.FolderArg` | runme.py:128-150 | the step-by-step reassignment of `target_dir` agrees with TargetDir |
| `Cli.FolderResolution` | runme.py:128-150 | an empty pathname is invalid (runme.py:18-19); an absent or invalid folder is the working directory; a valid one is the folder rule's choice, unless it is missing and cannot be made |
| `Cli.LabelFps` | runme.py:164 | the frame rate parses exactly when the text after the 'p' is digits; it is None exactly when that text is empty; otherwise ValueError names the text |
| `Cli.Dispatch` | runme.py:152-167 | the call raises exactly for a label in audio mode, a bit rate in video mode, or a label whose frame rate does not parse, and then it is TypeError or ValueError; otherwise it is an audio call exactly in audio mode, goes to the chosen folder, a video call passes the text before the 'p', and an audio call carries None without a quality or the int for a bit rate, together with the audio format |
| `Cli.DispatchCorrected` | runme.py:152-167 | it raises exactly when the as-written dispatch does, agrees with it on audio and best-quality calls, and for a video call keeps its folder and frame rate with the 'p' put back on the resolution |
| `Cli.Perform` | runme.py:152-167 | a download, if any, comes first; a video call's first download takes a stream of the catalogue; without ffmpeg a video call downloads at most once |
| `Cli.Script` | runme.py:88-167 | `--info` ends in the info; the usage exit happens exactly without `--info` on a rejected quality; the script's own exceptions are TypeError or ValueError |
| `Cli.DispatchArgs` | runme.py:152-167 | the helper call on a fresh helper ends as Dispatch and Perform say |
| `Cli.DispatchAudio` | runme.py:153-157 | the audio branch ends as Dispatch and Perform say |
| `Cli.DispatchVideo` | runme.py:158-167 | the video branch on a fresh helper ends as Dispatch and Perform say |
| `Cli.DispatchAuto` | runme.py:159-160 | no quality runs the best-quality download, whose log is AutoPlan for the helper's next index |
| `Cli.DispatchLabel` | runme.py:160-165 | a label is split at its 'p'; a frame rate that is not an integer raises ValueError before any download; otherwise the call ends as Dispatch and Perform say |
| `Cli.RunScript` | runme.py:92-167 | the whole script, reassignment by reassignment, ends as Script says |
| `Cli.InfoExitsFirst` | runme.py:92-95 | with `--info` the script shows the info and exits before parsing anything else |
| `Cli.RejectedQualityExits` | runme.py:108-124 | a quality with a non-digit other than 'p', or with two 'p's, ends in the usage exit |
| `Cli.ModeMismatchRaises` | runme.py:152-167 | a video label in audio mode, or a bit rate in video mode, raises TypeError |
| `Cli.VideoDispatchSplitsLabel` | runme.py:159-165 | no quality means the best-quality download; a label is split at its 'p' into digits and an optional frame rate |
| `Cli.DispatchOfLabel` | runme.py:162-165 | as written, the text before the 'p' is passed on; corrected, the text up to and including it |
| `Cli.LabelOfLibraryStream` | runme.py:162-164 | a catalogue label is accepted; as written it splits into the bare digits, corrected into the stream's resolution |
| `Cli.DigitsMatchNothing` | helper.py:87-100 | a resolution made of digits alone matches no stream of a catalogue whose resolutions are `<digits>p` or absent |
| `Cli.AsWrittenDispatchMissesLabelledStream` | runme.py:162-165 | as written, passing a catalogue label as the quality downloads nothing and raises |
| `Cli.CorrectedDispatchOfLabel` | runme.py:162-165 | corrected, a catalogue label asks for its stream's resolution and frame rate |
| `Cli.CorrectedDispatchFindsLabelledStream` | runme.py:162-165 | corrected, a progressive stream's label, passed as the quality, downloads a stream of that resolution |
| `Cli.AutoAsksForMissingCombination` | helper.py:49-68 | with ffmpeg, a video-only view of a higher resolution at 30 fps or less and a lower one above 30 fps, the lower not below the higher as a string, and no stream of the higher resolution at that rate: the best-quality download raises ValueError and downloads nothing |
| `Cli.AutoOnMixedCatalog` | helper.py:49-68 | the video-only streams 1080p at 30 fps and 720p at 60 fps, and no 1080p stream at 60 fps: the best-quality download raises ValueError naming "1080p60" |
| `Cli.AutoOnEmptyCatalog` | helper.py:65-68 | with no video-only stream, the best-quality download asks for "Nonep" and fails with nothing downloaded |

## Left out

- gui.py is not part of this model: the window, its threads and its message boxes.
- `get_thumbnail`, `get_info`, `get_video_length` and `get_title` are left out. They only print, fetch over the network, or return a library field. `get_video_length` is `readable_time` of the length, which is modelled.
- The library itself is left out. This covers `check_availability` at helper.py:39, the order behind `order_by(...).desc()` (given as the `Source` views), and what `download` does beyond naming its file.
  - `Downloads.Source`: the two views are inputs, not computed from `streams`. Their order (by resolution, by bit rate) is assumed from the library. That they hold exactly the catalogue's video-only and audio-only streams is the predicate `Downloads.ViewsOf`. Only `Downloads.BestAudioOfCatalog` uses it. The coverage rows (`Streams.ResolutionLabelsCover`, `Streams.AbrLabelsCover`) and the audio selection rows are stated over the views.
  - `Streams.LastMatch`: `filter(...)` is taken to constrain resolution, fps and abr only when they are truthy, as the library does.
  - A download writes `<filename><stream extension>`, which stands in for `os.path.splitext` at helper.py:144.
  - `safe_filename(title)` is the `safeTitle` field.
- All printing is left out, and so is `parser.print_help`. `argparse` is replaced by the parsed `Args` record. The pip fallback at helper.py:9-15 is left out.
- ffmpeg is not run. The probe at helper.py:17-22 becomes the `ffmpegAvailable` flag. A mux or conversion is an action in the log, and is assumed to produce its output file; its exit status is ignored, as the source ignores it.
- `os.path.join` is a (directory, name) pair, not a joined string. `os.path.normpath(os.path.join(...))`, `os.path.isdir` and whether `os.mkdir` succeeds are parameters of `PathEnv`. Among them is what happens for an empty directory part.
- Cli.PathnameValid: only the empty-string case of `is_pathname_valid` (runme.py:18-19) is modelled. The `lstat` probing at runme.py:21-73 is the environment's `valid` function.
- Decimal.IsDigit: `str.isdigit` is modelled on the ASCII digits only. Python also accepts other Unicode digits.
- Selection.Parsable: `int()` is modelled as accepting exactly the ASCII digit strings. Signs, surrounding whitespace and underscores, which Python's `int()` also accepts, are not modelled. The labels the helper builds never contain them.
- Downloads.PyValue: bools are not modelled. Python's `isinstance(True, int)` holds, and `str(True) + 'kbps'` is "Truekbps", which no `PyInt` spells.
- Clock.ReadableTime: the round trip is stated for non-negative durations only. A negative one prints as its remainder modulo one hour, which `Clock.ReadableTimeNegative` states.
- Cli.Script: `sys.exit()` with no argument exits with status 0, so a rejected quality is not signalled by the exit status. `UsageExit` carries no status.
- For the descending labels 1080p, 720p60, 720p, 480p, 360p the scan asks for 1080p at 60 fps, because the prefixes are compared as strings (`Selection.DescendingCatalogChoice`; see Findings).
- Cli.SplitPath: only POSIX `os.path.split` is modelled. Windows backslash separators and drive letters, which runme.py:21-31 has in mind, are not.
- The class and the script use the as-written members (`Selection.SelectBest` with the string order, `Cli.Dispatch` without the 'p'). Each corrected definition stands beside its as-written one with its own properties proved, and is not wired into `YouTubeHelper` or `RunScript`. That way the state-changing members stay faithful to the source.

## Findings

| source | as written | input that shows it | evidently intended | confidence | as-written member | corrected member |
|---|---|---|---|---|---|---|
| helper.py:57 | the resolution prefixes are compared as strings: `number < highest_resolution` | labels `["1080p", "720p60"]`: "720" is not below "1080" as a string, so the scan goes on and asks for 1080p at 60 fps, which the catalogue does not offer | compare the prefixes as integers, so the scan stops at the first lower resolution and keeps a frame rate offered at the top resolution | not executed | `Selection.TextualOrderMixesResolutions` | `Selection.NumericChoiceTakesTopResolution` |
| runme.py:163 | the resolution passed to `get_video` is `quality[:i]`, the text before the 'p' | `--quality 720p` on a catalogue with a 720p stream asks for resolution "720", which no stream of the library's form has, so nothing is downloaded and the call raises: ValueError with ffmpeg, FfmpegNotAvailable without it (helper.py:94-96) | `quality[:i + 1]`, keeping the 'p' as the help text's "1080p60/360p" and the library spell resolutions | not executed | `Cli.AsWrittenDispatchMissesLabelledStream` | `Cli.CorrectedDispatchFindsLabelledStream` |
