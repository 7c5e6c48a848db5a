/** The command-line script runme.py: the quality argument, the folder argument and the
    dispatch to the helper. */
module Cli {
  import opened Wrappers
  import opened Errors
  import opened Text
  import opened Decimal
  import opened Streams
  import opened Selection
  import opened Downloads
  import opened Helper

  /** The parsed command line (runme.py:76-85); argparse itself is not part of this model. */
  datatype Args = Args(
    url: string,
    folder: Option<string>,
    quality: Option<string>,
    info: bool,
    audio: bool,
    aformat: Option<string>)

  /** What `quality` holds after runme.py:99-125: nothing, the video label as given, or the
      audio bit rate as an int. */
  datatype Quality = Unset | Label(text: string) | Kbps(n: nat)

  /** runme.py:102-125 on a non-empty argument; None is the usage message and exit. */
  function ParseQualityText(s: string): (r: Option<Quality>)
    ensures r != Some(Unset)
    ensures r.Some? && r.value.Label? ==>
      r.value.text == s && 'p' in s && AllDigits(Number(s)) && AllDigits(FpsText(s))
    ensures r.Some? && r.value.Kbps? ==> 'p' !in s && AllDigits(s) && r.value.n == Value(s)
    ensures 'p' !in s && AllDigits(s) ==> r.Some?
  {
    var i := Find(s, 'p');
    if i != -1 then
      if AllDigits(s[..i]) && AllDigits(s[i + 1..]) then Some(Label(s)) else None
    else if AllDigits(s) then Some(Kbps(Value(s)))
    else None
  }

  /** runme.py:100: an absent or empty argument leaves the quality unset. */
  function ParseQuality(q: Option<string>): (r: Option<Quality>)
    ensures r == Some(Unset) <==> q.None? || q.value == ""
  {
    if q.None? || q.value == "" then Some(Unset) else ParseQualityText(q.value)
  }

  /** One digit-checking loop of runme.py:108-124, leaving at the first non-digit. */
  method CheckDigits(s: string) returns (ok: bool)
    ensures ok == AllDigits(s)
  {
    for k := 0 to |s|
      invariant AllDigits(s[..k])
    {
      if !IsDigit(s[k]) {
        return false;
      }
      assert s[..k + 1] == s[..k] + [s[k]];
    }
    assert s[..|s|] == s;
    return true;
  }

  /** runme.py:101-125 as the script runs it. */
  method ParseQualityArg(s: string) returns (q: Option<Quality>)
    ensures q == ParseQualityText(s)
  {
    var pIndex := Find(s, 'p');
    if pIndex != -1 {
      var left, right := s[..pIndex], s[pIndex + 1..];
      var ok := CheckDigits(left);
      if !ok {
        return None;
      }
      ok := CheckDigits(right);
      if !ok {
        return None;
      }
      return Some(Label(s));
    }
    var ok := CheckDigits(s);
    if !ok {
      return None;
    }
    return Some(Kbps(Value(s)));
  }

  /** A non-empty quality argument is accepted exactly when it consists of digits and at most
      one 'p'. */
  lemma QualityAcceptance(s: string)
    ensures ParseQualityText(s).Some? <==>
      && (forall k :: 0 <= k < |s| ==> IsDigit(s[k]) || s[k] == 'p')
      && (forall j, k :: 0 <= j < |s| && 0 <= k < |s| && s[j] == 'p' && s[k] == 'p' ==> j == k)
  {
    var i := Find(s, 'p');
    if i != -1 {
      var left, right := s[..i], s[i + 1..];
      assert forall k :: 0 <= k < i ==> s[k] == left[k];
      assert forall k :: i < k < |s| ==> s[k] == right[k - i - 1];
      if AllDigits(left) && AllDigits(right) {
        forall k | i < k < |s| ensures s[k] != 'p' {
          assert IsDigit(right[k - i - 1]);
        }
      }
      if (forall k :: 0 <= k < |s| ==> IsDigit(s[k]) || s[k] == 'p')
         && (forall j, k :: 0 <= j < |s| && 0 <= k < |s| && s[j] == 'p' && s[k] == 'p' ==> j == k) {
        forall k | 0 <= k < |left| ensures IsDigit(left[k]) {
          assert s[k] != 'p';
        }
        forall k | 0 <= k < |right| ensures IsDigit(right[k]) {
          assert s[k + i + 1] != 'p';
        }
      }
    }
  }

  /** An audio bit rate written in decimal reads back as itself. */
  lemma KbpsRoundTrip(n: nat)
    ensures ParseQualityText(Dec(n)) == Some(Kbps(n))
  {
    NoSeparatorInDigits(Dec(n), 'p');
    ValueOfDec(n);
  }

  /** A video label `<digits>p<digits>` is accepted as given; the text before the 'p' and the
      frame rate after it read back. */
  lemma LabelRoundTrip(digits: string, fps: Option<nat>)
    requires AllDigits(digits)
    ensures var s := digits + "p" + (if fps.Some? then Dec(fps.value) else "");
      && ParseQualityText(s) == Some(Label(s))
      && Number(s) == digits
      && FpsText(s) == (if fps.Some? then Dec(fps.value) else "")
  {
    var tail := if fps.Some? then Dec(fps.value) else "";
    var s := digits + "p" + tail;
    NoSeparatorInDigits(digits, 'p');
    assert s[..|digits|] == digits;
    assert s[|digits| + 1..] == tail;
    assert Find(s, 'p') == |digits|;
  }

  /** The environment the folder rule consults: `is_pathname_valid` beyond its first check,
      `os.path.normpath(os.path.join(...))`, `os.path.isdir` and whether `os.mkdir` succeeds. */
  datatype PathEnv = PathEnv(
    valid: string -> bool,
    normJoin: (string, string) -> string,
    isDir: string -> bool,
    mkdirSucceeds: string -> bool)

  /** runme.py:18-19: an empty pathname is invalid before the environment is consulted. */
  predicate PathnameValid(env: PathEnv, p: string): (r: bool)
    ensures r ==> p != ""
  {
    p != "" && env.valid(p)
  }

  datatype Split = Split(head: string, tail: string)

  predicate AllSlashes(s: string)
  {
    forall k :: 0 <= k < |s| ==> s[k] == '/'
  }

  /** `s.rstrip('/')`: the longest prefix not ending in '/', all that is cut off being slashes. */
  function RStripSlashes(s: string): (r: string)
    ensures |r| <= |s| && r == s[..|r|]
    ensures r == "" || r[|r| - 1] != '/'
    ensures AllSlashes(s[|r|..])
  {
    if |s| == 0 || s[|s| - 1] != '/' then s else RStripSlashes(s[..|s| - 1])
  }

  /** `os.path.split` on POSIX: the tail is what follows the last '/', the head what precedes
      it with its trailing slashes removed unless it is made of slashes only. */
  function SplitPath(p: string): (r: Split)
    ensures '/' !in r.tail
    ensures |r.tail| <= |p| && p[|p| - |r.tail|..] == r.tail
    ensures |r.tail| < |p| ==> p[|p| - |r.tail| - 1] == '/'
    ensures var i := |p| - |r.tail|;
      r.head == if p[..i] != "" && !AllSlashes(p[..i]) then RStripSlashes(p[..i]) else p[..i]
  {
    var i := RFind(p, '/') + 1;
    var head := p[..i];
    assert i > 0 ==> head[i - 1] == '/';
    Split(if head != "" && !AllSlashes(head) then RStripSlashes(head) else head, p[i..])
  }

  /** The condition of runme.py:138 under which the whole path is kept. */
  predicate KeepsTail(tail: string)
  {
    '.' !in tail || ('.' in tail && tail[0] != '.')
  }

  /** That condition says just "the tail does not start with '.'". */
  lemma KeepsTailUnlessDotted(tail: string)
    ensures KeepsTail(tail) <==> !(tail != "" && tail[0] == '.')
  {
    if tail != "" && tail[0] == '.' {
      assert tail[0] in tail;
    }
  }

  /** runme.py:137-141: the directory part alone when the tail starts with '.', the cleaned
      joined path otherwise. */
  function FolderChoice(env: PathEnv, p: string): (d: string)
    ensures var sp := SplitPath(p);
      d == if sp.tail != "" && sp.tail[0] == '.' then sp.head else env.normJoin(sp.head, sp.tail)
  {
    var sp := SplitPath(p);
    KeepsTailUnlessDotted(sp.tail);
    if KeepsTail(sp.tail) then env.normJoin(sp.head, sp.tail) else sp.head
  }

  /** runme.py:128-150: the directory handed to the helper; None is the working directory. */
  function TargetDir(env: PathEnv, folder: Option<string>): (r: Option<string>)
    ensures r.Some? ==> folder.Some? && PathnameValid(env, folder.value) && r.value == FolderChoice(env, folder.value)
    ensures r.Some? ==> env.isDir(r.value) || env.mkdirSucceeds(r.value)
  {
    if folder.None? || folder.value == "" then None
    else if !PathnameValid(env, folder.value) then None
    else
      var t := FolderChoice(env, folder.value);
      if !env.isDir(t) && !env.mkdirSucceeds(t) then None else Some(t)
  }

  /** The helper call runme.py:152-167 makes. */
  datatype Request =
    | AudioRequest(folder: Option<string>, quality: PyValue, format: Option<string>)
    | VideoRequest(resolution: string, folder: Option<string>, fps: Option<nat>)
    | AutoRequest(folder: Option<string>)

  /** runme.py:164: the int after the 'p', or None when nothing follows it. */
  function LabelFps(s: string): (r: Result<Option<nat>, Error>)
    ensures r.Ok? <==> AllDigits(FpsText(s))
    ensures r == Ok(None) <==> FpsText(s) == ""
    ensures r.Err? ==> r.error == NotAnInteger(FpsText(s))
  {
    var text := FpsText(s);
    if text == "" then Ok(None)
    else if AllDigits(text) then Ok(Some(Value(text)))
    else Err(NotAnInteger(text))
  }

  /** runme.py:152-167 as written: the resolution passed on is the text before the 'p'. */
  function Dispatch(audio: bool, quality: Quality, target: Option<string>, aformat: Option<string>): (r: Result<Request, Error>)
    ensures r.Err? <==> (audio && quality.Label?) || (!audio && quality.Kbps?)
                        || (!audio && quality.Label? && LabelFps(quality.text).Err?)
    ensures r.Err? ==> r.error.TypeError? || r.error.NotAnInteger?
    ensures r.Ok? ==> (r.value.AudioRequest? <==> audio) && r.value.folder == target
    ensures r.Ok? && r.value.VideoRequest? ==> quality.Label? && r.value.resolution == Number(quality.text)
    ensures r.Ok? && r.value.AudioRequest? ==>
      r.value.quality == (if quality.Kbps? then PyInt(quality.n) else PyNone) && r.value.format == aformat
  {
    if audio then
      match quality
      case Label(_) => Err(TypeError("audio quality should be a positive integer"))
      case Unset => Ok(AudioRequest(target, PyNone, aformat))
      case Kbps(n) => Ok(AudioRequest(target, PyInt(n), aformat))
    else
      match quality
      case Unset => Ok(AutoRequest(target))
      case Kbps(_) => Err(TypeError("video quality should be in form of 1080p60/360p, etc."))
      case Label(s) =>
        match LabelFps(s)
        case Err(e) => Err(e)
        case Ok(fps) => Ok(VideoRequest(Number(s), target, fps))
  }

  /** The resolution the help text documents ("1080p60/360p"): the label up to and including the
      'p', as the library spells resolutions. */
  function LabelResolution(s: string): string
  {
    var i := Find(s, 'p');
    if i == -1 then s else s[..i + 1]
  }

  /** runme.py:152-167 with the 'p' kept in the resolution. */
  function DispatchCorrected(audio: bool, quality: Quality, target: Option<string>, aformat: Option<string>): (r: Result<Request, Error>)
    ensures r.Err? <==> Dispatch(audio, quality, target, aformat).Err?
    ensures r.Ok? && !r.value.VideoRequest? ==> r == Dispatch(audio, quality, target, aformat)
    ensures r.Ok? && r.value.VideoRequest? ==>
      && Dispatch(audio, quality, target, aformat).value.VideoRequest?
      && r.value.fps == Dispatch(audio, quality, target, aformat).value.fps
      && r.value.folder == target
      && ('p' in quality.text ==> r.value.resolution == Dispatch(audio, quality, target, aformat).value.resolution + "p")
  {
    match Dispatch(audio, quality, target, aformat)
    case Ok(VideoRequest(_, folder, fps)) =>
      var i := Find(quality.text, 'p');
      assert i != -1 ==> quality.text[..i + 1] == quality.text[..i] + "p";
      Ok(VideoRequest(LabelResolution(quality.text), folder, fps))
    case other => other
  }

  /** What a run of the script ends in. */
  datatype Outcome =
    | InfoShown           // runme.py:92-95: the info is printed and the script exits
    | UsageExit           // the quality argument was rejected: help and exit
    | Raised(error: Error) // an exception of the script itself
    | Ran(run: Run)       // the helper call and what it did

  /** The helper call on a fresh helper, whose index is 0. */
  function Perform(yt: Source, ffmpegAvailable: bool, request: Request): (r: Run)
    ensures r.actions != [] ==> r.actions[0].Download?
    ensures !request.AudioRequest? && r.actions != [] ==> r.actions[0].stream in yt.streams
    ensures !request.AudioRequest? && !ffmpegAvailable ==> |r.actions| <= 1
  {
    match request
    case AudioRequest(folder, quality, format) => AudioPlan(yt, ffmpegAvailable, folder, quality, format)
    case VideoRequest(resolution, folder, fps) => VideoPlan(yt, ffmpegAvailable, 1, resolution, folder, fps)
    case AutoRequest(folder) => AutoPlan(yt, ffmpegAvailable, 1, folder)
  }

  /** The script from runme.py:88 on, for the video behind the url. */
  function Script(args: Args, env: PathEnv, yt: Source, ffmpegAvailable: bool): (r: Outcome)
    ensures args.info ==> r == InfoShown
    ensures r == UsageExit <==> !args.info && ParseQuality(args.quality).None?
    ensures r.Raised? ==> r.error.TypeError? || r.error.NotAnInteger?
  {
    if args.info then InfoShown
    else
      match ParseQuality(args.quality)
      case None => UsageExit
      case Some(q) =>
        Finish(yt, ffmpegAvailable, Dispatch(args.audio, q, TargetDir(env, args.folder), args.aformat))
  }

  /** runme.py:128-150: `target_dir` reassigned step by step. */
  method FolderArg(env: PathEnv, folder: Option<string>) returns (targetDir: Option<string>)
    ensures targetDir == TargetDir(env, folder)
  {
    targetDir := None;
    if folder.Some? && folder.value != "" {
      targetDir := folder;
      if !PathnameValid(env, folder.value) {
        targetDir := None;
      } else {
        var sp := SplitPath(folder.value);
        var dirPart, tail := sp.head, sp.tail;
        if '.' !in tail || ('.' in tail && tail[0] != '.') {
          targetDir := Some(env.normJoin(dirPart, tail));
        } else {
          targetDir := Some(dirPart);
        }
        if !env.isDir(targetDir.value) && !env.mkdirSucceeds(targetDir.value) {
          targetDir := None;
        }
      }
    }
  }

  /** How the script ends once the helper call is decided. */
  function Finish(yt: Source, ffmpegAvailable: bool, call: Result<Request, Error>): Outcome
  {
    match call
    case Err(e) => Raised(e)
    case Ok(request) => Ran(Perform(yt, ffmpegAvailable, request))
  }

  /** runme.py:152-167 on a helper nobody has used yet. */
  method DispatchArgs(downloader: YouTubeHelper, audio: bool, quality: Quality, targetDir: Option<string>,
                      aformat: Option<string>) returns (outcome: Outcome)
    requires downloader.index == 0
    modifies downloader
    ensures outcome == Finish(downloader.yt, downloader.ffmpegAvailable, Dispatch(audio, quality, targetDir, aformat))
  {
    if audio {
      outcome := DispatchAudio(downloader, quality, targetDir, aformat);
    } else {
      outcome := DispatchVideo(downloader, quality, targetDir, aformat);
    }
  }

  /** runme.py:153-157: the audio branch. */
  method DispatchAudio(downloader: YouTubeHelper, quality: Quality, targetDir: Option<string>,
                       aformat: Option<string>) returns (outcome: Outcome)
    requires downloader.index == 0
    modifies downloader
    ensures outcome == Finish(downloader.yt, downloader.ffmpegAvailable, Dispatch(true, quality, targetDir, aformat))
  {
    var run: Run;
    match quality {
      case Label(_) =>
        return Raised(TypeError("audio quality should be a positive integer"));
      case Unset =>
        run := downloader.GetAudio(targetDir, PyNone, aformat);
      case Kbps(n) =>
        run := downloader.GetAudio(targetDir, PyInt(n), aformat);
    }
    return Ran(run);
  }

  /** runme.py:158-167: the video branch. */
  method DispatchVideo(downloader: YouTubeHelper, quality: Quality, targetDir: Option<string>,
                       aformat: Option<string>) returns (outcome: Outcome)
    requires downloader.index == 0
    modifies downloader
    ensures outcome == Finish(downloader.yt, downloader.ffmpegAvailable, Dispatch(false, quality, targetDir, aformat))
  {
    match quality {
      case Unset =>
        outcome := DispatchAuto(downloader, targetDir);
        FinishOfAuto(downloader.yt, downloader.ffmpegAvailable, old(downloader.index) + 1, targetDir, aformat);
      case Label(s) =>
        outcome := DispatchLabel(downloader, s, targetDir, aformat);
      case Kbps(_) =>
        outcome := Raised(TypeError("video quality should be in form of 1080p60/360p, etc."));
    }
  }

  /** The video branch without a quality is the best-quality download on a fresh helper. */
  lemma FinishOfAuto(yt: Source, ffmpegAvailable: bool, idx: nat, targetDir: Option<string>, aformat: Option<string>)
    requires idx == 1
    ensures Finish(yt, ffmpegAvailable, Dispatch(false, Unset, targetDir, aformat))
         == Ran(AutoPlan(yt, ffmpegAvailable, idx, targetDir))
  {
  }

  /** runme.py:159-160: no quality, the best-quality download. */
  method DispatchAuto(downloader: YouTubeHelper, targetDir: Option<string>) returns (outcome: Outcome)
    modifies downloader
    ensures outcome == Ran(AutoPlan(downloader.yt, downloader.ffmpegAvailable, old(downloader.index) + 1, targetDir))
  {
    var run := downloader.AutoDownload(targetDir);
    outcome := Ran(run);
  }

  /** runme.py:160-165: a video label split at its 'p'. */
  method DispatchLabel(downloader: YouTubeHelper, s: string, targetDir: Option<string>,
                       aformat: Option<string>) returns (outcome: Outcome)
    requires downloader.index == 0
    modifies downloader
    ensures outcome == Finish(downloader.yt, downloader.ffmpegAvailable, Dispatch(false, Label(s), targetDir, aformat))
  {
    var res := Number(s);
    var text := FpsText(s);
    var fps: Option<nat> := None;
    if text != "" {
      if !AllDigits(text) {
        return Raised(NotAnInteger(text));
      }
      fps := Some(Value(text));
    }
    var run := downloader.GetVideo(res, targetDir, fps);
    return Ran(run);
  }

  /** runme.py:88-167: `--info` leaves first, then the quality, the folder and the call. */
  method RunScript(args: Args, env: PathEnv, yt: Source, ffmpegAvailable: bool) returns (outcome: Outcome)
    ensures outcome == Script(args, env, yt, ffmpegAvailable)
  {
    var quality: Quality := Unset;
    if args.info {
      return InfoShown;
    }
    var downloader := new YouTubeHelper(yt, ffmpegAvailable);
    if args.quality.Some? && args.quality.value != "" {
      var parsed := ParseQualityArg(args.quality.value);
      if parsed.None? {
        return UsageExit;
      }
      quality := parsed.value;
    }
    assert ParseQuality(args.quality) == Some(quality);
    var targetDir := FolderArg(env, args.folder);
    outcome := DispatchArgs(downloader, args.audio, quality, targetDir, args.aformat);
  }

  /** runme.py:92-95: with `--info` the script exits before it parses anything else or calls a
      download. */
  lemma InfoExitsFirst(args: Args, env: PathEnv, yt: Source, ffmpegAvailable: bool)
    requires args.info
    ensures Script(args, env, yt, ffmpegAvailable) == InfoShown
  {
  }

  /** runme.py:108-124: a quality with a character that is neither a digit nor 'p', or with two
      'p's, ends in the usage exit, whatever the other arguments. */
  lemma RejectedQualityExits(args: Args, env: PathEnv, yt: Source, ffmpegAvailable: bool)
    requires !args.info && args.quality.Some?
    requires var s := args.quality.value;
      || (exists k :: 0 <= k < |s| && !IsDigit(s[k]) && s[k] != 'p')
      || (exists j, k :: 0 <= j < k < |s| && s[j] == 'p' && s[k] == 'p')
    ensures Script(args, env, yt, ffmpegAvailable) == UsageExit
  {
    QualityAcceptance(args.quality.value);
  }

  /** runme.py:154-155 and runme.py:166-167: a video label in audio mode and a bit rate in video
      mode raise TypeError before any download. */
  lemma ModeMismatchRaises(quality: Quality, target: Option<string>, aformat: Option<string>)
    ensures quality.Label? ==> Dispatch(true, quality, target, aformat).Err?
                               && Dispatch(true, quality, target, aformat).error.TypeError?
    ensures quality.Kbps? ==> Dispatch(false, quality, target, aformat).Err?
                              && Dispatch(false, quality, target, aformat).error.TypeError?
  {
  }

  /** runme.py:159-165: in video mode no quality means the best-quality download, and an accepted
      label is split at its 'p': the resolution is the text before it, without the 'p', and the
      frame rate is the number after it, or None when nothing follows. */
  lemma VideoDispatchSplitsLabel(s: string, target: Option<string>, aformat: Option<string>)
    requires ParseQualityText(s) == Some(Label(s))
    ensures Dispatch(false, Unset, target, aformat) == Ok(AutoRequest(target))
    ensures var d := Dispatch(false, Label(s), target, aformat);
      && d.Ok? && d.value.VideoRequest? && d.value.folder == target
      && s == d.value.resolution + "p" + FpsText(s)
      && AllDigits(d.value.resolution)
      && (d.value.fps.None? <==> FpsText(s) == "")
      && (d.value.fps.Some? ==> AllDigits(FpsText(s)) && d.value.fps.value == Value(FpsText(s)))
  {
    var i := Find(s, 'p');
    assert s == s[..i] + "p" + s[i + 1..];
  }

  /** A video label whose frame-rate text is empty or a number: the as-written dispatch passes on
      the text before the 'p', the corrected one the text up to and including it. */
  lemma DispatchOfLabel(s: string, target: Option<string>, aformat: Option<string>)
    requires LabelFps(s).Ok?
    ensures Dispatch(false, Label(s), target, aformat) == Ok(VideoRequest(Number(s), target, LabelFps(s).value))
    ensures DispatchCorrected(false, Label(s), target, aformat)
         == Ok(VideoRequest(LabelResolution(s), target, LabelFps(s).value))
  {
  }

  /** A catalog resolution as the library spells it: digits followed by 'p'. */
  predicate LibraryResolution(r: string)
  {
    |r| > 1 && r[|r| - 1] == 'p' && AllDigits(r[..|r| - 1])
  }

  /** The label of a stream of the library's form is an accepted quality; the as-written split
      gives its digits, the corrected one its resolution, and both its appended frame rate. */
  lemma LabelOfLibraryStream(v: Stream)
    requires LibraryResolution(v.resolution)
    ensures var s := ResolutionLabel(v);
      && ParseQualityText(s) == Some(Label(s))
      && Number(s) == v.resolution[..|v.resolution| - 1]
      && LabelResolution(s) == v.resolution
      && LabelFps(s) == Ok(if v.fps > 30 then Some(v.fps) else None)
  {
    var digits := v.resolution[..|v.resolution| - 1];
    assert v.resolution == digits + "p";
    var fps := if v.fps > 30 then Some(v.fps) else None;
    LabelRoundTrip(digits, fps);
    var s := ResolutionLabel(v);
    assert s == digits + "p" + (if fps.Some? then Dec(fps.value) else "");
    NoSeparatorInDigits(digits, 'p');
    assert Find(s, 'p') == |digits|;
    assert s[..|digits| + 1] == v.resolution;
    if fps.Some? {
      ValueOfDec(fps.value);
    }
  }

  /** A resolution of digits alone matches no stream of a catalog of the library's form, where
      a stream without a resolution (an audio stream; None in the library) has "". */
  lemma DigitsMatchNothing(yt: Source, digits: string, fps: Option<nat>)
    requires forall s :: s in yt.streams ==> s.resolution == "" || LibraryResolution(s.resolution)
    requires AllDigits(digits) && digits != ""
    ensures LastMatch(yt.streams, ProgressiveQuery(digits, fps)).None?
    ensures LastMatch(yt.streams, VideoOnlyQuery(digits, fps)).None?
  {
    forall k | 0 <= k < |yt.streams| ensures yt.streams[k].resolution != digits {
      var r := yt.streams[k].resolution;
      assert r == "" || LibraryResolution(r);
      assert |r| != |digits| || r[|r| - 1] != digits[|r| - 1];
    }
  }

  /** runme.py:163 as written: the label of a catalog stream, passed as the quality, asks for a
      resolution without its 'p', which no stream of the library's form has, so nothing is
      downloaded. */
  lemma AsWrittenDispatchMissesLabelledStream(yt: Source, ffmpegAvailable: bool, v: Stream, target: Option<string>,
                                              aformat: Option<string>)
    requires forall s :: s in yt.streams ==> s.resolution == "" || LibraryResolution(s.resolution)
    requires LibraryResolution(v.resolution)
    ensures var s := ResolutionLabel(v);
      && ParseQualityText(s) == Some(Label(s))
      && Dispatch(false, Label(s), target, aformat).Ok?
      && var run := Perform(yt, ffmpegAvailable, Dispatch(false, Label(s), target, aformat).value);
         run.actions == [] && run.error.Some?
  {
    LabelOfLibraryStream(v);
    var s := ResolutionLabel(v);
    var d := Dispatch(false, Label(s), target, aformat).value;
    DigitsMatchNothing(yt, d.resolution, d.fps);
  }

  /** The corrected dispatch asks for the resolution and the frame rate a label was built from. */
  lemma CorrectedDispatchOfLabel(v: Stream, target: Option<string>, aformat: Option<string>)
    requires LibraryResolution(v.resolution)
    ensures var s := ResolutionLabel(v);
      && ParseQualityText(s) == Some(Label(s))
      && DispatchCorrected(false, Label(s), target, aformat)
         == Ok(VideoRequest(v.resolution, target, if v.fps > 30 then Some(v.fps) else None))
  {
    LabelOfLibraryStream(v);
    DispatchOfLabel(ResolutionLabel(v), target, aformat);
  }

  /** The corrected dispatch: the label of a progressive catalog stream, passed as the quality,
      asks for that stream's resolution and frame rate, and the progressive download happens. */
  lemma CorrectedDispatchFindsLabelledStream(yt: Source, ffmpegAvailable: bool, v: Stream, target: Option<string>,
                                             aformat: Option<string>)
    requires v in yt.streams && v.progressive
    requires LibraryResolution(v.resolution)
    ensures var s := ResolutionLabel(v);
      && ParseQualityText(s) == Some(Label(s))
      && DispatchCorrected(false, Label(s), target, aformat)
         == Ok(VideoRequest(v.resolution, target, if v.fps > 30 then Some(v.fps) else None))
      && var run := Perform(yt, ffmpegAvailable, DispatchCorrected(false, Label(s), target, aformat).value);
         run.error == None && |run.actions| == 1 && run.actions[0].Download?
         && run.actions[0].stream.resolution == v.resolution
  {
    CorrectedDispatchOfLabel(v, target, aformat);
    var fps := if v.fps > 30 then Some(v.fps) else None;
    var request := VideoRequest(v.resolution, target, fps);
    assert Perform(yt, ffmpegAvailable, request) == VideoPlan(yt, ffmpegAvailable, 1, v.resolution, target, fps);
    var k :| 0 <= k < |yt.streams| && yt.streams[k] == v;
    assert Matches(yt.streams[k], ProgressiveQuery(v.resolution, fps));
    ProgressiveDownloadsOnce(yt, ffmpegAvailable, 1, v.resolution, target, fps);
  }

  /** helper.py:65 reached from the script: with no video-only stream the best-quality download
      asks for the resolution "Nonep", which matches nothing in a catalog of the library's form. */
  lemma AutoOnEmptyCatalog(yt: Source, ffmpegAvailable: bool, folder: Option<string>)
    requires |yt.videoByResolution| == 0
    requires forall s :: s in yt.streams ==> s.resolution != "Nonep"
    ensures Perform(yt, ffmpegAvailable, AutoRequest(folder))
         == Run([], Some(if ffmpegAvailable then NoMatch("Nonep") else FfmpegNotAvailable))
  {
    assert ResolutionLabels(yt.videoByResolution) == [];
    AutoChoiceOfEmpty(Textual);
    assert !Matches(Stream("", 0, "", false, false, false, ""), ProgressiveQuery("Nonep", None)) by {
      assert "Nonep" != "";
    }
    assert LastMatch(yt.streams, ProgressiveQuery("Nonep", None)).None? by {
      assert forall i :: 0 <= i < |yt.streams| ==> yt.streams[i] in yt.streams;
    }
    assert LastMatch(yt.streams, VideoOnlyQuery("Nonep", None)).None? by {
      assert forall i :: 0 <= i < |yt.streams| ==> yt.streams[i] in yt.streams;
    }
  }

  /** A best-quality request raises the error of the scan, or performs `get_video` with its
      choice. */
  lemma PerformAuto(yt: Source, ffmpegAvailable: bool, folder: Option<string>)
    ensures var c := AutoChoice(Textual, Dedup(ResolutionLabels(yt.videoByResolution)));
      Perform(yt, ffmpegAvailable, AutoRequest(folder))
      == if c.Err? then Run([], Some(c.error)) else VideoPlan(yt, ffmpegAvailable, 1, c.value.resolution, folder, c.value.fps)
  {
  }

  /** helper.py:57 reached from the script: a video-only view offering `hi` at a plain frame rate
      and then `lo`, not below `hi` as a string, at frame rate `f` makes the best-quality download
      ask for `hi` at `f`; when the catalog has no stream of that resolution and frame rate,
      nothing is downloaded and the error names the combination. */
  lemma {:induction false} AutoAsksForMissingCombination(yt: Source, hi: string, lo: string, f: nat,
                                                          folder: Option<string>)
    requires AllDigits(hi) && AllDigits(lo) && hi != "" && !StrLess(lo, hi) && f > 30
    requires |yt.videoByResolution| == 2
    requires yt.videoByResolution[0].resolution == hi + "p" && yt.videoByResolution[0].fps <= 30
    requires yt.videoByResolution[1].resolution == lo + "p" && yt.videoByResolution[1].fps == f
    requires forall s :: s in yt.streams ==> !(s.resolution == hi + "p" && s.fps == f)
    ensures Perform(yt, true, AutoRequest(folder)) == Run([], Some(NoMatch(hi + "p" + Dec(f))))
  {
    MixedViewChoice(yt.videoByResolution, hi, lo, f);
    PerformAuto(yt, true, folder);
    NoStreamOfQuality(yt, 1, hi + "p", folder, f);
  }

  /** The catalog whose video-only view is 1080p at 30 fps and then 720p at 60 fps, with no
      1080p stream at 60 fps: the best-quality download asks for "1080p60" and fails. */
  lemma AutoOnMixedCatalog(yt: Source, hi: string, lo: string, f: nat, folder: Option<string>)
    requires hi == "1080" && lo == "720" && f == 60
    requires |yt.videoByResolution| == 2
    requires yt.videoByResolution[0].resolution == hi + "p" && yt.videoByResolution[0].fps == 30
    requires yt.videoByResolution[1].resolution == lo + "p" && yt.videoByResolution[1].fps == f
    requires forall s :: s in yt.streams ==> !(s.resolution == hi + "p" && s.fps == f)
    ensures Perform(yt, true, AutoRequest(folder)) == Run([], Some(NoMatch(hi + "p" + Dec(f))))
  {
    assert AllDigits(hi) && AllDigits(lo);
    assert !StrLess(lo, hi);
    AutoAsksForMissingCombination(yt, hi, lo, f, folder);
  }

  /** runme.py:18-19 and runme.py:128-134: an empty or invalid folder means the working
      directory; a valid one is the folder rule's choice, unless it is missing and cannot be
      made. */
  lemma FolderResolution(env: PathEnv, p: string)
    ensures !PathnameValid(env, "")
    ensures TargetDir(env, None) == None && TargetDir(env, Some("")) == None
    ensures !PathnameValid(env, p) ==> TargetDir(env, Some(p)) == None
    ensures PathnameValid(env, p) ==>
      TargetDir(env, Some(p)) == if env.isDir(FolderChoice(env, p)) || env.mkdirSucceeds(FolderChoice(env, p))
                                 then Some(FolderChoice(env, p)) else None
  {
  }
}
