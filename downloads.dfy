/** The decisions of `get_video` and `get_audio` (helper.py:70-151): which streams are
    downloaded under which names, when ffmpeg runs, which files are removed, and which error is
    raised, as a log of actions. */
module Downloads {
  import opened Wrappers
  import opened Errors
  import opened Decimal
  import opened Streams

  /** What the core reads from the library's video handle. */
  datatype Source = Source(
    safeTitle: string,              // safe_filename(yt.title)
    streams: seq<Stream>,           // yt.streams, catalog order
    videoByResolution: seq<Stream>, // yt.streams.filter(only_video=True).order_by('resolution').desc()
    audioByAbr: seq<Stream>)        // yt.streams.filter(only_audio=True).order_by('abr').desc()

  /** A file: its directory (None for the working directory) and its name. */
  datatype Path = Path(dir: Option<string>, name: string)

  /** A folder argument: None and "" are falsy and both mean the working directory. */
  function Dir(folder: Option<string>): (d: Option<string>)
    ensures d.Some? <==> folder.Some? && folder.value != ""
    ensures d.Some? ==> d == folder
  {
    if folder.Some? && folder.value != "" then folder else None
  }

  /** The path `stream.download(output_path=..., filename=...)` returns. */
  function Written(s: Stream, at: Path): Path
  {
    Path(at.dir, at.name + s.ext)
  }

  datatype Action =
    | Download(stream: Stream, at: Path)         // stream.download(...)
    | Mux(video: Path, audio: Path, output: Path) // ffmpeg -i video -i audio -acodec aac -vsync vfr -preset veryfast output
    | Convert(input: Path, output: Path)         // ffmpeg -i input output
    | Remove(file: Path)                         // os.remove(file)

  /** The actions a call performed, in order, and the exception it raised after them, if any. */
  datatype Run = Run(actions: seq<Action>, error: Option<Error>)

  /** The files present after one action. */
  function Step(files: set<Path>, a: Action): set<Path>
  {
    match a
    case Download(s, at) => files + {Written(s, at)}
    case Mux(_, _, out) => files + {out}
    case Convert(_, out) => files + {out}
    case Remove(f) => files - {f}
  }

  /** The files present after the actions, starting from `before`. */
  function Files(actions: seq<Action>, before: set<Path>): set<Path>
  {
    if |actions| == 0 then before
    else Step(Files(actions[..|actions| - 1], before), actions[|actions| - 1])
  }

  /** `filter(only_audio=True).order_by('abr').last()`: the first of the descending view. */
  function BestAudio(yt: Source): Option<Stream>
  {
    if |yt.audioByAbr| == 0 then None else Some(yt.audioByAbr[0])
  }

  /** The two views hold exactly the catalog's video-only and audio-only streams, as the
      library's `filter(only_video=True)` and `filter(only_audio=True)` select them. */
  predicate ViewsOf(yt: Source)
  {
    && (forall s :: s in yt.videoByResolution ==> s in yt.streams && s.onlyVideo)
    && (forall s :: s in yt.streams && s.onlyVideo ==> s in yt.videoByResolution)
    && (forall s :: s in yt.audioByAbr ==> s in yt.streams && s.onlyAudio)
    && (forall s :: s in yt.streams && s.onlyAudio ==> s in yt.audioByAbr)
  }

  /** For views taken from the catalog, the best audio is an audio stream of the catalog, and
      there is one exactly when the catalog has an audio stream. */
  lemma BestAudioOfCatalog(yt: Source)
    requires ViewsOf(yt)
    ensures BestAudio(yt).Some? <==> exists s :: s in yt.streams && s.onlyAudio
    ensures BestAudio(yt).Some? ==> BestAudio(yt).value in yt.streams && BestAudio(yt).value.onlyAudio
  {
    if |yt.audioByAbr| > 0 {
      assert yt.audioByAbr[0] in yt.audioByAbr;
    }
  }

  function ProgressiveQuery(resolution: string, fps: Option<nat>): Query
  {
    Query(true, false, false, resolution, fps, "")
  }

  function VideoOnlyQuery(resolution: string, fps: Option<nat>): Query
  {
    Query(false, true, false, resolution, fps, "")
  }

  function AudioQuery(abr: string): Query
  {
    Query(false, false, true, "", None, abr)
  }

  /** helper.py:111: the quality named in the error, with the fps only when it is truthy. */
  function QualityText(resolution: string, fps: Option<nat>): string
  {
    if FpsTruthy(fps) then resolution + Dec(fps.value) else resolution
  }

  /** The temporary names of helper.py:103 and helper.py:105. */
  function VideoName(idx: nat): string
  {
    "video" + Dec(idx)
  }

  function AudioName(idx: nat): string
  {
    "audio" + Dec(idx)
  }

  /** `get_video` after `self.index` has become `idx` (helper.py:83-112). */
  function VideoPlan(yt: Source, ffmpegAvailable: bool, idx: nat, resolution: string,
                     folder: Option<string>, fps: Option<nat>): (r: Run)
    ensures r.actions == [] || (r.actions[0].Download? && r.actions[0].stream in yt.streams)
    ensures r.error.None? ==> |r.actions| == 1 || (ffmpegAvailable && |r.actions| == 5)
    ensures r.error == Some(FfmpegNotAvailable) <==> !ffmpegAvailable && r.actions == []
    ensures !ffmpegAvailable ==> |r.actions| <= 1
    ensures r.error.Some? ==> !r.error.value.NotAnInteger?
  {
    var dir := Dir(folder);
    var target := Path(dir, yt.safeTitle + ".mp4");
    match LastMatch(yt.streams, ProgressiveQuery(resolution, fps))
    case Some(p) => Run([Download(p, target)], None)
    case None =>
      if !ffmpegAvailable then Run([], Some(FfmpegNotAvailable))
      else
        match LastMatch(yt.streams, VideoOnlyQuery(resolution, fps))
        case None => Run([], Some(NoMatch(QualityText(resolution, fps))))
        case Some(v) =>
          var videoAt := Path(dir, VideoName(idx));
          var fetchVideo := Download(v, videoAt);
          match BestAudio(yt)
          case None => Run([fetchVideo], Some(NoStream))
          case Some(a) =>
            var audioAt := Path(dir, AudioName(idx));
            var videoPath, audioPath := Written(v, videoAt), Written(a, audioAt);
            Run([fetchVideo, Download(a, audioAt), Mux(videoPath, audioPath, target),
                 Remove(videoPath), Remove(audioPath)], None)
  }

  /** A Python value passed as `quality`: None, an int, or a value of any other type. */
  datatype PyValue = PyNone | PyInt(i: int) | PyOther

  /** The stream `get_audio` selects (helper.py:127-137). */
  function AudioTarget(yt: Source, quality: PyValue): (r: Result<Stream, Error>)
    ensures quality.PyOther? ==> r.Err? && r.error.TypeError?
    ensures quality.PyNone? ==> (r.Ok? <==> |yt.audioByAbr| > 0) && (r.Ok? ==> r.value == yt.audioByAbr[0])
    ensures quality.PyNone? && r.Err? ==> r.error == NoStream
    ensures quality.PyInt? && r.Ok? ==>
      r.value in yt.streams && r.value.onlyAudio && r.value.abr == IntStr(quality.i) + "kbps"
    ensures quality.PyInt? && r.Err? ==> r.error == NoMatch(IntStr(quality.i) + "kbps")
  {
    match quality
    case PyNone =>
      (match BestAudio(yt)
       case None => Err(NoStream)
       case Some(a) => Ok(a))
    case PyOther => Err(TypeError("quality should be int"))
    case PyInt(q) =>
      var abr := IntStr(q) + "kbps";
      match LastMatch(yt.streams, AudioQuery(abr))
      case None => Err(NoMatch(abr))
      case Some(s) => Ok(s)
  }

  /** helper.py:143: a format gets a leading '.' unless it has one. */
  function NormalizeFormat(format: string): (r: string)
    requires format != ""
    ensures |r| > 0 && r[0] == '.'
    ensures r == format || r == "." + format
    ensures format[0] == '.' <==> r == format
  {
    if format[0] == '.' then format else "." + format
  }

  /** `get_audio` (helper.py:126-151). */
  function AudioPlan(yt: Source, ffmpegAvailable: bool, folder: Option<string>,
                     quality: PyValue, audioFormat: Option<string>): (r: Run)
    ensures AudioTarget(yt, quality).Err? <==> r.actions == []
    ensures AudioTarget(yt, quality).Err? ==> r.error == Some(AudioTarget(yt, quality).error)
    ensures AudioTarget(yt, quality).Ok? ==>
      r.actions[0] == Download(AudioTarget(yt, quality).value, Path(Dir(folder), yt.safeTitle))
  {
    match AudioTarget(yt, quality)
    case Err(e) => Run([], Some(e))
    case Ok(t) => FetchAudio(t, ffmpegAvailable, Dir(folder), yt.safeTitle, audioFormat)
  }

  /** helper.py:140-151: download the selected stream under the title, then convert it when the
      requested format differs from its extension. */
  function FetchAudio(t: Stream, ffmpegAvailable: bool, dir: Option<string>, title: string,
                      audioFormat: Option<string>): (r: Run)
    ensures |r.actions| > 0 && r.actions[0] == Download(t, Path(dir, title))
    ensures r.error.Some? ==> r.error == Some(FfmpegNotAvailable) && !ffmpegAvailable
    ensures |r.actions| == 1 || (ffmpegAvailable && r.error.None? && |r.actions| == 3)
  {
    var at := Path(dir, title);
    var audioPath := Written(t, at);
    var fetched := [Download(t, at)];
    if audioFormat.None? || audioFormat.value == "" then Run(fetched, None)
    else
      var format := NormalizeFormat(audioFormat.value);
      if t.ext == format then Run(fetched, None)
      else if !ffmpegAvailable then Run(fetched, Some(FfmpegNotAvailable))
      else Run(fetched + [Convert(audioPath, Path(dir, title + format)), Remove(audioPath)], None)
  }

  lemma FilesOfOne(a0: Action, before: set<Path>)
    ensures Files([a0], before) == Step(before, a0)
  {
    assert [a0][..0] == [];
  }

  lemma FilesOfThree(a0: Action, a1: Action, a2: Action, before: set<Path>)
    ensures Files([a0, a1, a2], before) == Step(Step(Step(before, a0), a1), a2)
  {
    assert [a0, a1, a2][..2] == [a0, a1];
    assert [a0, a1][..1] == [a0];
    FilesOfOne(a0, before);
  }

  lemma FilesOfFive(a0: Action, a1: Action, a2: Action, a3: Action, a4: Action, before: set<Path>)
    ensures Files([a0, a1, a2, a3, a4], before)
         == Step(Step(Files([a0, a1, a2], before), a3), a4)
  {
    assert [a0, a1, a2, a3, a4][..4] == [a0, a1, a2, a3];
    assert [a0, a1, a2, a3][..3] == [a0, a1, a2];
  }

  /** The quality in the error of helper.py:111 is the resolution, followed by the decimal fps
      exactly when the fps is truthy. */
  lemma QualityTextNamesBoth(resolution: string, fps: Option<nat>)
    ensures var q := QualityText(resolution, fps);
      && |resolution| <= |q| && q[..|resolution|] == resolution
      && (FpsTruthy(fps) ==> AllDigits(q[|resolution|..]) && |q| > |resolution|
                              && Value(q[|resolution|..]) == fps.value)
      && (!FpsTruthy(fps) ==> q == resolution)
  {
    var q := QualityText(resolution, fps);
    if FpsTruthy(fps) {
      assert q[..|resolution|] == resolution && q[|resolution|..] == Dec(fps.value);
      ValueOfDec(fps.value);
    }
  }

  /** helper.py:85-93: a progressive match is downloaded once, as `<title>.mp4` in the folder,
      and ffmpeg plays no part. */
  lemma ProgressiveDownloadsOnce(yt: Source, ffmpegAvailable: bool, idx: nat, resolution: string,
                                 folder: Option<string>, fps: Option<nat>)
    requires LastMatch(yt.streams, ProgressiveQuery(resolution, fps)).Some?
    ensures var r := VideoPlan(yt, ffmpegAvailable, idx, resolution, folder, fps);
      && r.error == None && |r.actions| == 1 && r.actions[0].Download?
      && r.actions[0].at == Path(Dir(folder), yt.safeTitle + ".mp4")
      && r.actions[0].stream in yt.streams && r.actions[0].stream.progressive
      && (resolution != "" ==> r.actions[0].stream.resolution == resolution)
      && (FpsTruthy(fps) ==> r.actions[0].stream.fps == fps.value)
      && r == VideoPlan(yt, !ffmpegAvailable, idx, resolution, folder, fps)
      && forall before :: Files(r.actions, before) == before + {Written(r.actions[0].stream, r.actions[0].at)}
  {
    var r := VideoPlan(yt, ffmpegAvailable, idx, resolution, folder, fps);
    assert r.actions == [r.actions[0]];
    forall before
      ensures Files(r.actions, before) == before + {Written(r.actions[0].stream, r.actions[0].at)}
    {
      FilesOfOne(r.actions[0], before);
    }
  }

  /** helper.py:94-96: without a progressive match and without ffmpeg the call raises before it
      searches the video-only streams or downloads anything, whether or not one would match. */
  lemma FfmpegCheckedFirst(yt: Source, idx: nat, resolution: string, folder: Option<string>, fps: Option<nat>)
    requires LastMatch(yt.streams, ProgressiveQuery(resolution, fps)).None?
    ensures VideoPlan(yt, false, idx, resolution, folder, fps) == Run([], Some(FfmpegNotAvailable))
  {
  }

  /** helper.py:110-112: with ffmpeg, no progressive and no video-only match, nothing is
      downloaded and the error names the requested quality. */
  lemma NoVideoMatch(yt: Source, idx: nat, resolution: string, folder: Option<string>, fps: Option<nat>)
    requires LastMatch(yt.streams, ProgressiveQuery(resolution, fps)).None?
    requires forall s :: s in yt.streams ==> !Matches(s, VideoOnlyQuery(resolution, fps))
    ensures VideoPlan(yt, true, idx, resolution, folder, fps) == Run([], Some(NoMatch(QualityText(resolution, fps))))
  {
    assert LastMatch(yt.streams, VideoOnlyQuery(resolution, fps)).None?;
  }

  /** helper.py:110-112 for a resolution and a truthy frame rate that no stream of the catalog
      has together: nothing is downloaded and the error names both. */
  lemma NoStreamOfQuality(yt: Source, idx: nat, resolution: string, folder: Option<string>, f: nat)
    requires resolution != "" && f != 0
    requires forall s :: s in yt.streams ==> !(s.resolution == resolution && s.fps == f)
    ensures VideoPlan(yt, true, idx, resolution, folder, Some(f)) == Run([], Some(NoMatch(resolution + Dec(f))))
  {
    assert LastMatch(yt.streams, ProgressiveQuery(resolution, Some(f))).None? by {
      assert forall i :: 0 <= i < |yt.streams| ==> yt.streams[i] in yt.streams;
    }
    NoVideoMatch(yt, idx, resolution, folder, Some(f));
  }

  /** helper.py:99-109: the mux path downloads the video-only match and the best audio under the
      temporary names of this call, muxes them into `<title>.mp4`, then removes both temporary
      files; the muxed file survives unless its path is one of the temporary ones. */
  lemma MuxPath(yt: Source, idx: nat, resolution: string, folder: Option<string>, fps: Option<nat>)
    requires LastMatch(yt.streams, ProgressiveQuery(resolution, fps)).None?
    requires LastMatch(yt.streams, VideoOnlyQuery(resolution, fps)).Some?
    requires |yt.audioByAbr| > 0
    ensures var r := VideoPlan(yt, true, idx, resolution, folder, fps);
      var v := LastMatch(yt.streams, VideoOnlyQuery(resolution, fps)).value;
      var a := yt.audioByAbr[0];
      var d := Dir(folder);
      var videoPath, audioPath := Written(v, Path(d, VideoName(idx))), Written(a, Path(d, AudioName(idx)));
      var target := Path(d, yt.safeTitle + ".mp4");
      && v in yt.streams && v.onlyVideo
      && r.error == None
      && r.actions == [Download(v, Path(d, VideoName(idx))), Download(a, Path(d, AudioName(idx))),
                       Mux(videoPath, audioPath, target), Remove(videoPath), Remove(audioPath)]
      && forall before :: Files(r.actions, before) == (before + {target}) - {videoPath, audioPath}
  {
    var r := VideoPlan(yt, true, idx, resolution, folder, fps);
    var acts := r.actions;
    forall before
      ensures Files(acts, before) == Step(Step(Step(Step(Step(before, acts[0]), acts[1]), acts[2]), acts[3]), acts[4])
    {
      FilesOfFive(acts[0], acts[1], acts[2], acts[3], acts[4], before);
      FilesOfThree(acts[0], acts[1], acts[2], before);
    }
  }

  /** helper.py:102-105: without an audio stream the temporary video is downloaded, the call then
      fails, and the temporary video is left behind. */
  lemma MuxWithoutAudio(yt: Source, idx: nat, resolution: string, folder: Option<string>, fps: Option<nat>)
    requires LastMatch(yt.streams, ProgressiveQuery(resolution, fps)).None?
    requires LastMatch(yt.streams, VideoOnlyQuery(resolution, fps)).Some?
    requires |yt.audioByAbr| == 0
    ensures var r := VideoPlan(yt, true, idx, resolution, folder, fps);
      var v := LastMatch(yt.streams, VideoOnlyQuery(resolution, fps)).value;
      && r == Run([Download(v, Path(Dir(folder), VideoName(idx)))], Some(NoStream))
      && forall before :: Written(v, Path(Dir(folder), VideoName(idx))) in Files(r.actions, before)
  {
    var r := VideoPlan(yt, true, idx, resolution, folder, fps);
    forall before
      ensures Files(r.actions, before) == before + {Written(r.actions[0].stream, r.actions[0].at)}
    {
      FilesOfOne(r.actions[0], before);
    }
  }

  /** helper.py:103 and helper.py:105: the temporary names of different indices differ, and a
      temporary video name is never a temporary audio name. */
  lemma TempNamesDistinct(i: nat, j: nat)
    ensures i != j ==> VideoName(i) != VideoName(j) && AudioName(i) != AudioName(j)
    ensures VideoName(i) != AudioName(j)
  {
    assert VideoName(i)[0] == 'v' && AudioName(j)[0] == 'a';
    if i != j {
      DecInjective(i, j);
      assert VideoName(i)[5..] == Dec(i) && VideoName(j)[5..] == Dec(j);
      assert AudioName(i)[5..] == Dec(i) && AudioName(j)[5..] == Dec(j);
    }
  }

  /** helper.py:127-128: with no quality the highest-bit-rate audio stream is downloaded under the
      title; a catalog without audio fails before any download. */
  lemma AudioDefaultTakesHighest(yt: Source, ffmpegAvailable: bool, folder: Option<string>, audioFormat: Option<string>)
    ensures var r := AudioPlan(yt, ffmpegAvailable, folder, PyNone, audioFormat);
      && (|yt.audioByAbr| == 0 ==> r == Run([], Some(NoStream)))
      && (|yt.audioByAbr| > 0 ==> |r.actions| > 0 && r.actions[0] == Download(yt.audioByAbr[0], Path(Dir(folder), yt.safeTitle)))
  {
  }

  /** helper.py:129-130: a quality that is neither None nor an int raises TypeError before any
      download. */
  lemma AudioRejectsNonInt(yt: Source, ffmpegAvailable: bool, folder: Option<string>, audioFormat: Option<string>)
    ensures AudioPlan(yt, ffmpegAvailable, folder, PyOther, audioFormat).actions == []
    ensures AudioPlan(yt, ffmpegAvailable, folder, PyOther, audioFormat).error.Some?
    ensures AudioPlan(yt, ffmpegAvailable, folder, PyOther, audioFormat).error.value.TypeError?
  {
  }

  /** helper.py:131-137: an int quality `q` needs an audio stream whose bit rate is exactly
      `"{q}kbps"`, and the last such stream of the catalogue is taken; without one nothing is
      downloaded and the error names that bit rate. */
  lemma AudioExactBitrate(yt: Source, ffmpegAvailable: bool, folder: Option<string>, q: int, audioFormat: Option<string>)
    ensures var r := AudioPlan(yt, ffmpegAvailable, folder, PyInt(q), audioFormat);
      var abr := IntStr(q) + "kbps";
      && ((forall s :: s in yt.streams ==> !(s.onlyAudio && s.abr == abr)) <==> r == Run([], Some(NoMatch(abr))))
      && (r.actions != [] ==> r.actions[0].Download? && r.actions[0].stream in yt.streams
                              && r.actions[0].stream.onlyAudio && r.actions[0].stream.abr == abr)
      && (r.actions != [] ==>
            exists i :: 0 <= i < |yt.streams| && yt.streams[i] == r.actions[0].stream
              && forall j :: i < j < |yt.streams| ==> !(yt.streams[j].onlyAudio && yt.streams[j].abr == abr))
  {
    var abr := IntStr(q) + "kbps";
    assert abr != "";
    var m := LastMatch(yt.streams, AudioQuery(abr));
    var r := AudioPlan(yt, ffmpegAvailable, folder, PyInt(q), audioFormat);
    assert AudioTarget(yt, PyInt(q)) == if m.None? then Err(NoMatch(abr)) else Ok(m.value);
    if m.Some? {
      assert r.actions != [] && r.actions[0].stream == m.value;
      var i :| 0 <= i < |yt.streams| && yt.streams[i] == m.value && Matches(m.value, AudioQuery(abr))
               && forall j :: i < j < |yt.streams| ==> !Matches(yt.streams[j], AudioQuery(abr));
      assert forall j :: i < j < |yt.streams| ==> !(yt.streams[j].onlyAudio && yt.streams[j].abr == abr);
    }
    assert m.None? <==> forall s :: s in yt.streams ==> !(s.onlyAudio && s.abr == abr) by {
      forall s | s in yt.streams && s.onlyAudio && s.abr == abr ensures m.Some? {
        var i :| 0 <= i < |yt.streams| && yt.streams[i] == s;
        assert Matches(yt.streams[i], AudioQuery(abr));
      }
    }
  }

  /** helper.py:142-151: the downloaded file is converted, and then removed, exactly when its
      extension differs from the normalized format and ffmpeg is available; when the extensions
      differ and ffmpeg is missing the call fails after the download and keeps that file. */
  lemma FetchAudioConverts(t: Stream, ffmpegAvailable: bool, dir: Option<string>, title: string, format: string)
    requires format != ""
    ensures var r := FetchAudio(t, ffmpegAvailable, dir, title, Some(format));
      var native := Written(t, Path(dir, title));
      var converted := Path(dir, title + NormalizeFormat(format));
      var differs := t.ext != NormalizeFormat(format);
      && |r.actions| > 0 && r.actions[0] == Download(t, Path(dir, title))
      && (|r.actions| == 3 <==> differs && ffmpegAvailable)
      && (|r.actions| == 1 <==> !(differs && ffmpegAvailable))
      && (r.error == Some(FfmpegNotAvailable) <==> differs && !ffmpegAvailable)
      && (r.error.Some? ==> r.error == Some(FfmpegNotAvailable))
      && forall before :: var after := Files(r.actions, before);
           && (differs && ffmpegAvailable ==> converted in after && native !in after)
           && (!(differs && ffmpegAvailable) ==> after == before + {native})
  {
    var r := FetchAudio(t, ffmpegAvailable, dir, title, Some(format));
    var native := Written(t, Path(dir, title));
    var converted := Path(dir, title + NormalizeFormat(format));
    var download := Download(t, Path(dir, title));
    if t.ext != NormalizeFormat(format) && ffmpegAvailable {
      assert native.name[|title|..] == t.ext;
      assert converted.name[|title|..] == NormalizeFormat(format);
      assert r.actions == [download, Convert(native, converted), Remove(native)];
      forall before ensures Files(r.actions, before) == before + {native} + {converted} - {native} {
        FilesOfThree(download, Convert(native, converted), Remove(native), before);
      }
    } else {
      assert r.actions == [download];
      forall before ensures Files(r.actions, before) == before + {native} {
        FilesOfOne(download, before);
      }
    }
  }

  /** The conversion rule applied to the stream `get_audio` selects, in the folder, under the
      title. */
  lemma AudioConversion(yt: Source, ffmpegAvailable: bool, folder: Option<string>, quality: PyValue, format: string)
    requires AudioTarget(yt, quality).Ok?
    requires format != ""
    ensures var r := AudioPlan(yt, ffmpegAvailable, folder, quality, Some(format));
      var t := AudioTarget(yt, quality).value;
      var native := Written(t, Path(Dir(folder), yt.safeTitle));
      var differs := t.ext != NormalizeFormat(format);
      && |r.actions| > 0 && r.actions[0] == Download(t, Path(Dir(folder), yt.safeTitle))
      && (r.error == Some(FfmpegNotAvailable) <==> differs && !ffmpegAvailable)
      && (|r.actions| == 3 <==> differs && ffmpegAvailable)
      && forall before :: (native in Files(r.actions, before) <==> !(differs && ffmpegAvailable))
  {
    var t := AudioTarget(yt, quality).value;
    FetchAudioConverts(t, ffmpegAvailable, Dir(folder), yt.safeTitle, format);
  }

  /** helper.py:142: with a falsy format the downloaded file is kept as it is and ffmpeg is not
      needed. */
  lemma AudioWithoutFormat(yt: Source, ffmpegAvailable: bool, folder: Option<string>, quality: PyValue, audioFormat: Option<string>)
    requires AudioTarget(yt, quality).Ok?
    requires audioFormat.None? || audioFormat.value == ""
    ensures AudioPlan(yt, ffmpegAvailable, folder, quality, audioFormat)
         == Run([Download(AudioTarget(yt, quality).value, Path(Dir(folder), yt.safeTitle))], None)
  {
  }

  /** helper.py:143: normalizing twice is normalizing once. */
  lemma NormalizeFormatIdempotent(format: string)
    requires format != ""
    ensures NormalizeFormat(NormalizeFormat(format)) == NormalizeFormat(format)
  {
  }
}
