/** The stream catalog as the source sees it through the video library: records, the library's
    `filter(...)` and `.last()` (their semantics taken as given), and the catalog labels that
    helper.py builds from them. */
module Streams {
  import opened Wrappers
  import opened Decimal

  /** One catalog entry. `ext` is the extension `os.path.splitext` reports for the file the
      library writes when this stream is downloaded (possibly empty). */
  datatype Stream = Stream(
    resolution: string,
    fps: nat,
    abr: string,
    progressive: bool,
    onlyVideo: bool,
    onlyAudio: bool,
    ext: string)

  /** The keyword arguments of `streams.filter(...)` that the source passes. As in the library,
      resolution, fps and abr constrain only when they are truthy, so an fps of None or 0 and an
      empty resolution or abr leave that attribute unconstrained. */
  datatype Query = Query(
    progressive: bool,
    onlyVideo: bool,
    onlyAudio: bool,
    resolution: string,
    fps: Option<nat>,
    abr: string)

  predicate FpsTruthy(fps: Option<nat>)
  {
    fps.Some? && fps.value != 0
  }

  /** Whether stream `s` passes `filter(**q)`. A query whose arguments are all falsy, an fps
      of 0 included, lets every stream through. */
  predicate Matches(s: Stream, q: Query): (r: bool)
    ensures (!q.progressive && !q.onlyVideo && !q.onlyAudio && q.resolution == "" && !FpsTruthy(q.fps)
             && q.abr == "") ==> r
  {
    && (q.progressive ==> s.progressive)
    && (q.onlyVideo ==> s.onlyVideo)
    && (q.onlyAudio ==> s.onlyAudio)
    && (q.resolution != "" ==> s.resolution == q.resolution)
    && (FpsTruthy(q.fps) ==> s.fps == q.fps.value)
    && (q.abr != "" ==> s.abr == q.abr)
  }

  /** `streams.filter(**q).last()`: None when nothing matches (the filtered query is falsy),
      otherwise the last matching stream in catalog order. */
  function LastMatch(streams: seq<Stream>, q: Query): (r: Option<Stream>)
    ensures r.None? <==> forall i :: 0 <= i < |streams| ==> !Matches(streams[i], q)
    ensures r.Some? ==> exists i :: 0 <= i < |streams| && streams[i] == r.value && Matches(r.value, q)
                           && forall j :: i < j < |streams| ==> !Matches(streams[j], q)
  {
    LastMatchBefore(streams, q, |streams|)
  }

  /** The last stream among the first `n` that matches `q`. */
  function LastMatchBefore(streams: seq<Stream>, q: Query, n: nat): (r: Option<Stream>)
    requires n <= |streams|
    ensures r.None? <==> forall i :: 0 <= i < n ==> !Matches(streams[i], q)
    ensures r.Some? ==> exists i :: 0 <= i < n && streams[i] == r.value && Matches(r.value, q)
                           && forall j :: i < j < n ==> !Matches(streams[j], q)
  {
    if n == 0 then None
    else if Matches(streams[n - 1], q) then
      assert streams[n - 1] == streams[n - 1];
      Some(streams[n - 1])
    else LastMatchBefore(streams, q, n - 1)
  }

  /** helper.py:177-180: the resolution, followed by the frame rate only when it exceeds 30. */
  function ResolutionLabel(s: Stream): (r: string)
    ensures |s.resolution| <= |r| && r[..|s.resolution|] == s.resolution
    ensures s.fps > 30 ==> AllDigits(r[|s.resolution|..]) && Value(r[|s.resolution|..]) == s.fps
    ensures s.fps <= 30 ==> r == s.resolution
  {
    if s.fps > 30 then
      ValueOfDec(s.fps);
      var r := s.resolution + Dec(s.fps);
      assert r[|s.resolution|..] == Dec(s.fps);
      r
    else s.resolution
  }

  function ResolutionLabels(view: seq<Stream>): (r: seq<string>)
    ensures |r| == |view| && forall i :: 0 <= i < |view| ==> r[i] == ResolutionLabel(view[i])
  {
    seq(|view|, i requires 0 <= i < |view| => ResolutionLabel(view[i]))
  }

  /** helper.py:196: an audio stream is labelled by its bit-rate string as the library reports it. */
  function AbrLabels(view: seq<Stream>): (r: seq<string>)
    ensures |r| == |view| && forall i :: 0 <= i < |view| ==> r[i] == view[i].abr
  {
    seq(|view|, i requires 0 <= i < |view| => view[i].abr)
  }

  /** The list of distinct elements of `s` that the source builds by appending each element
      not already present. */
  function Dedup<T(==)>(s: seq<T>): (r: seq<T>)
    ensures |r| <= |s|
    ensures forall i :: 0 <= i < |r| ==> r[i] in s
  {
    if |s| == 0 then []
    else
      var d := Dedup(s[..|s| - 1]);
      if s[|s| - 1] in d then d else d + [s[|s| - 1]]
  }

  predicate NoDuplicates<T(==)>(s: seq<T>)
  {
    forall i, j :: 0 <= i < j < |s| ==> s[i] != s[j]
  }

  function FirstIndex<T(==)>(s: seq<T>, x: T): (i: nat)
    requires x in s
    ensures i < |s| && s[i] == x && x !in s[..i]
  {
    if s[0] == x then 0
    else
      var i := FirstIndex(s[1..], x) + 1;
      assert s[..i] == [s[0]] + s[1..][..i - 1];
      i
  }

  lemma FirstIndexSnoc<T>(p: seq<T>, y: T, x: T)
    requires x in p
    ensures FirstIndex(p + [y], x) == FirstIndex(p, x)
  {
    var s := p + [y];
    var i, k := FirstIndex(s, x), FirstIndex(p, x);
    assert s[..k] == p[..k];
    assert s[k] == x;
  }

  /** Appending one element: it joins the de-duplicated list unless it is already there. */
  lemma DedupSnoc<T>(p: seq<T>, y: T)
    ensures Dedup(p + [y]) == if y in Dedup(p) then Dedup(p) else Dedup(p) + [y]
  {
    assert (p + [y])[..|p|] == p;
  }

  lemma ResolutionLabelsSnoc(view: seq<Stream>, i: nat)
    requires i < |view|
    ensures ResolutionLabels(view[..i + 1]) == ResolutionLabels(view[..i]) + [ResolutionLabel(view[i])]
  {
  }

  lemma AbrLabelsSnoc(view: seq<Stream>, i: nat)
    requires i < |view|
    ensures AbrLabels(view[..i + 1]) == AbrLabels(view[..i]) + [view[i].abr]
  {
  }

  /** The distinct resolution labels of a view name every stream of it, and only them. */
  lemma ResolutionLabelsCover(view: seq<Stream>)
    ensures forall s :: s in view ==> ResolutionLabel(s) in Dedup(ResolutionLabels(view))
    ensures forall l :: l in Dedup(ResolutionLabels(view)) ==>
      exists s :: s in view && ResolutionLabel(s) == l
  {
    var r := ResolutionLabels(view);
    DedupMembers(r);
    forall s | s in view
      ensures ResolutionLabel(s) in r
    {
      var j :| 0 <= j < |view| && view[j] == s;
      assert r[j] == ResolutionLabel(s);
    }
    forall l | l in Dedup(r)
      ensures exists s :: s in view && ResolutionLabel(s) == l
    {
      var j :| 0 <= j < |r| && r[j] == l;
      assert view[j] in view;
    }
  }

  /** The distinct bit rates of a view name every stream of it, and only them. */
  lemma AbrLabelsCover(view: seq<Stream>)
    ensures forall s :: s in view ==> s.abr in Dedup(AbrLabels(view))
    ensures forall l :: l in Dedup(AbrLabels(view)) ==> exists s :: s in view && s.abr == l
  {
    var r := AbrLabels(view);
    DedupMembers(r);
    forall s | s in view
      ensures s.abr in r
    {
      var j :| 0 <= j < |view| && view[j] == s;
      assert r[j] == s.abr;
    }
    forall l | l in Dedup(r)
      ensures exists s :: s in view && s.abr == l
    {
      var j :| 0 <= j < |r| && r[j] == l;
      assert view[j] in view;
    }
  }

  /** A view of two streams with different labels lists both labels, in view order. */
  lemma PairLabels(view: seq<Stream>, a: string, b: string)
    requires |view| == 2 && ResolutionLabel(view[0]) == a && ResolutionLabel(view[1]) == b && a != b
    ensures Dedup(ResolutionLabels(view)) == [a, b]
  {
    assert ResolutionLabels(view) == [a, b];
    DedupSnoc([], a);
    assert [a] == [] + [a];
    DedupSnoc([a], b);
    assert [a, b] == [a] + [b];
  }

  /** Every element of the input appears in the de-duplicated list, and nothing else does. */
  lemma {:induction false} DedupMembers<T>(s: seq<T>)
    ensures forall x :: x in Dedup(s) <==> x in s
  {
    if |s| > 0 {
      var p := s[..|s| - 1];
      DedupMembers(p);
      assert s == p + [s[|s| - 1]];
    }
  }

  /** No label appears twice. */
  lemma {:induction false} DedupNoDuplicates<T>(s: seq<T>)
    ensures NoDuplicates(Dedup(s))
  {
    if |s| > 0 {
      DedupNoDuplicates(s[..|s| - 1]);
    }
  }

  /** The labels come in the order of their first occurrence in the input. */
  lemma {:induction false} DedupFirstOccurrenceOrder<T>(s: seq<T>)
    ensures forall x :: x in Dedup(s) ==> x in s
    ensures forall i, j :: 0 <= i < j < |Dedup(s)| ==>
      FirstIndex(s, Dedup(s)[i]) < FirstIndex(s, Dedup(s)[j])
  {
    DedupMembers(s);
    if |s| > 0 {
      var p, y := s[..|s| - 1], s[|s| - 1];
      assert s == p + [y];
      DedupFirstOccurrenceOrder(p);
      DedupMembers(p);
      var d := Dedup(p);
      forall x | x in d
        ensures FirstIndex(s, x) == FirstIndex(p, x) && FirstIndex(p, x) < |p|
      {
        FirstIndexSnoc(p, y, x);
      }
      if y !in d {
        assert y !in p;
        assert s[..|p|] == p;
      }
    }
  }
}
