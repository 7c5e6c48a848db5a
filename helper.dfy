/** `YouTubeHelper` (helper.py:29-232): the catalog label lists, the best-quality download and
    the video and audio downloads, over a stream catalog and an ffmpeg flag fixed when the
    object is made. */
module Helper {
  import opened Wrappers
  import opened Errors
  import opened Decimal
  import opened Streams
  import opened Selection
  import opened Downloads

  /** What `auto_download` does as the `idx`-th GetVideo call (helper.py:49-68): the scan's error
      with nothing downloaded, or GetVideo with the scan's choice. It specifies
      `YouTubeHelper.AutoDownload`, whose ensures state what it promises. */
  function AutoPlan(yt: Source, ffmpegAvailable: bool, idx: nat, folder: Option<string>): Run
  {
    match AutoChoice(Textual, Dedup(ResolutionLabels(yt.videoByResolution)))
    case Err(e) => Run([], Some(e))
    case Ok(c) => VideoPlan(yt, ffmpegAvailable, idx, c.resolution, folder, c.fps)
  }

  class YouTubeHelper {
    /** The library's handle on the video, as far as the core reads it. */
    const yt: Source
    /** FFMPEG_AVAILABLE, fixed by the probe at import time (helper.py:17-22). */
    const ffmpegAvailable: bool
    /** Counts the calls of GetVideo; names its temporary files. */
    var index: nat

    /** helper.py:37-39; the availability check of the library is not part of this model. */
    constructor (yt: Source, ffmpegAvailable: bool)
      ensures this.yt == yt && this.ffmpegAvailable == ffmpegAvailable
      ensures index == 0
    {
      this.yt := yt;
      this.ffmpegAvailable := ffmpegAvailable;
      index := 0;
    }

    /** helper.py:175-185: the label of every video-only stream, in the order of the descending
        view, each kept at its first occurrence. */
    method GetAllResolution() returns (labels: seq<string>)
      ensures labels == Dedup(ResolutionLabels(yt.videoByResolution))
      ensures NoDuplicates(labels)
      ensures forall s :: s in yt.videoByResolution ==> ResolutionLabel(s) in labels
      ensures forall l :: l in labels ==> exists s :: s in yt.videoByResolution && ResolutionLabel(s) == l
    {
      var view := yt.videoByResolution;
      labels := [];
      var i := 0;
      while i < |view|
        invariant i <= |view|
        invariant labels == Dedup(ResolutionLabels(view[..i]))
      {
        var res := view[i].resolution;
        var fps := view[i].fps;
        if fps > 30 {
          res := res + Dec(fps);
        }
        ResolutionLabelsSnoc(view, i);
        DedupSnoc(ResolutionLabels(view[..i]), res);
        if res !in labels {
          labels := labels + [res];
        }
        i := i + 1;
      }
      assert view[..i] == view;
      DedupNoDuplicates(ResolutionLabels(view));
      ResolutionLabelsCover(view);
    }

    /** helper.py:194-199: the bit rate of every audio-only stream, in the order of the
        descending view, each kept at its first occurrence. */
    method GetAllAudioQuality() returns (audios: seq<string>)
      ensures audios == Dedup(AbrLabels(yt.audioByAbr))
      ensures NoDuplicates(audios)
      ensures forall s :: s in yt.audioByAbr ==> s.abr in audios
      ensures forall l :: l in audios ==> exists s :: s in yt.audioByAbr && s.abr == l
    {
      var view := yt.audioByAbr;
      audios := [];
      var i := 0;
      while i < |view|
        invariant i <= |view|
        invariant audios == Dedup(AbrLabels(view[..i]))
      {
        var bytesPerSecond := view[i].abr;
        AbrLabelsSnoc(view, i);
        DedupSnoc(AbrLabels(view[..i]), bytesPerSecond);
        if bytesPerSecond !in audios {
          audios := audios + [bytesPerSecond];
        }
        i := i + 1;
      }
      assert view[..i] == view;
      DedupNoDuplicates(AbrLabels(view));
      AbrLabelsCover(view);
    }

    /** helper.py:82-112. The index grows by one on every call, also on the calls that raise,
        and the temporary files of this call are named after the new index. */
    method GetVideo(resolution: string, folder: Option<string>, fps: Option<nat>) returns (run: Run)
      modifies this
      ensures index == old(index) + 1
      ensures run == VideoPlan(yt, ffmpegAvailable, index, resolution, folder, fps)
    {
      index := index + 1;
      var idx := index;
      var dir := Dir(folder);
      var target := Path(dir, yt.safeTitle + ".mp4");
      var progressive := LastMatch(yt.streams, ProgressiveQuery(resolution, fps));
      if progressive.Some? {
        return Run([Download(progressive.value, target)], None);
      }
      if !ffmpegAvailable {
        return Run([], Some(FfmpegNotAvailable));
      }
      var found := LastMatch(yt.streams, VideoOnlyQuery(resolution, fps));
      if found.Some? {
        var videoAt := Path(dir, VideoName(idx));
        var log := [Download(found.value, videoAt)];
        var audio := BestAudio(yt);
        if audio.None? {
          return Run(log, Some(NoStream));
        }
        var audioAt := Path(dir, AudioName(idx));
        log := log + [Download(audio.value, audioAt)];
        var videoPath, audioPath := Written(found.value, videoAt), Written(audio.value, audioAt);
        log := log + [Mux(videoPath, audioPath, target)];
        log := log + [Remove(videoPath), Remove(audioPath)];
        run := Run(log, None);
      } else {
        run := Run([], Some(NoMatch(QualityText(resolution, fps))));
      }
    }

    /** helper.py:49-68: the scan over the labels of GetAllResolution, then GetVideo with its
        result. A frame rate that does not parse raises before GetVideo, so the index is
        unchanged then. */
    method AutoDownload(folder: Option<string>) returns (run: Run)
      modifies this
      ensures var c := AutoChoice(Textual, Dedup(ResolutionLabels(yt.videoByResolution)));
        && (c.Err? ==> run == Run([], Some(c.error)) && index == old(index))
        && (c.Ok? ==> index == old(index) + 1
                      && run == VideoPlan(yt, ffmpegAvailable, index, c.value.resolution, folder, c.value.fps))
      ensures run == AutoPlan(yt, ffmpegAvailable, old(index) + 1, folder)
    {
      var resolutions := GetAllResolution();
      var choice := SelectBest(resolutions);
      if choice.Err? {
        return Run([], Some(choice.error));
      }
      run := GetVideo(choice.value.resolution, folder, choice.value.fps);
    }

    /** helper.py:126-151. */
    method GetAudio(folder: Option<string>, quality: PyValue, audioFormat: Option<string>) returns (run: Run)
      ensures run == AudioPlan(yt, ffmpegAvailable, folder, quality, audioFormat)
    {
      var filename := yt.safeTitle;
      var target: Stream;
      match quality {
        case PyNone =>
          if |yt.audioByAbr| == 0 {
            return Run([], Some(NoStream));
          }
          target := yt.audioByAbr[0];
        case PyOther =>
          return Run([], Some(TypeError("quality should be int")));
        case PyInt(q) =>
          var abr := IntStr(q) + "kbps";
          var searchResult := LastMatch(yt.streams, AudioQuery(abr));
          if searchResult.None? {
            return Run([], Some(NoMatch(abr)));
          }
          target := searchResult.value;
      }
      var dir := Dir(folder);
      var audioPath := Written(target, Path(dir, filename));
      var log := [Download(target, Path(dir, filename))];
      if audioFormat.Some? && audioFormat.value != "" {
        var format := NormalizeFormat(audioFormat.value);
        if target.ext != format {
          if !ffmpegAvailable {
            return Run(log, Some(FfmpegNotAvailable));
          }
          var outputPath := Path(dir, filename + format);
          log := log + [Convert(audioPath, outputPath), Remove(audioPath)];
        }
      }
      run := Run(log, None);
    }
  }
}
