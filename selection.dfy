/** The best-quality scan of `auto_download` (helper.py:49-66) over the resolution labels. */
module Selection {
  import opened Wrappers
  import opened Errors
  import opened Text
  import opened Decimal
  import opened Streams

  /** `res[:i]` with `i = res.find('p')` (helper.py:54-55). Without a 'p', `i` is -1 and the
      slice drops the last character. */
  function Number(res: string): string
  {
    var i := Find(res, 'p');
    if i == -1 then (if |res| == 0 then "" else res[..|res| - 1]) else res[..i]
  }

  /** `res[i + 1:]` (helper.py:56): what follows the first 'p', or the whole res without one. */
  function FpsText(res: string): (r: string)
    ensures |r| <= |res|
    ensures 'p' !in res ==> r == res
  {
    var i := Find(res, 'p');
    res[i + 1..]
  }

  /** A res with a 'p' is its prefix, which has no 'p', the 'p' and its frame-rate text put back
      together; a res without one is its prefix and its last character. */
  lemma LabelReassembles(res: string)
    ensures 'p' in res ==> res == Number(res) + "p" + FpsText(res) && 'p' !in Number(res)
    ensures 'p' !in res && res != "" ==> res == Number(res) + [res[|res| - 1]] && FpsText(res) == res
  {
    var i := Find(res, 'p');
    if i != -1 {
      assert res == res[..i] + [res[i]] + res[i + 1..];
    } else if res != "" {
      assert res == res[..|res| - 1] + [res[|res| - 1]];
    }
  }

  /** `int(text)` on ASCII digits. */
  predicate Parsable(res: string)
  {
    AllDigits(FpsText(res))
  }

  /** The frame rate a res announces, None when nothing follows the 'p'. */
  function FpsOf(res: string): Option<nat>
    requires Parsable(res)
  {
    if FpsText(res) == "" then None else Some(Value(FpsText(res)))
  }

  /** The resolution prefix and the frame rate that `auto_download` hands to `get_video`. */
  datatype Choice = Choice(resolution: string, fps: Option<nat>)

  /** How two resolution prefixes are compared: as strings, as helper.py:57 does, or as the
      integers they spell. */
  datatype Order = Textual | Numeric

  predicate Below(order: Order, a: string, b: string)
  {
    match order
    case Textual => StrLess(a, b)
    case Numeric => AllDigits(a) && AllDigits(b) && Value(a) < Value(b)
  }

  /** The first res at or after `from` whose prefix is not empty. */
  function FirstNamedFrom(labels: seq<string>, from: nat): (f: nat)
    requires from <= |labels|
    ensures from <= f <= |labels|
    ensures forall j :: from <= j < f ==> Number(labels[j]) == ""
    ensures f < |labels| ==> Number(labels[f]) != ""
    decreases |labels| - from
  {
    if from == |labels| || Number(labels[from]) != "" then from
    else FirstNamedFrom(labels, from + 1)
  }

  function FirstNamed(labels: seq<string>): nat
  {
    FirstNamedFrom(labels, 0)
  }

  /** The first res at or after `from` whose prefix is below `top`, or the end of the list. */
  function StopFrom(order: Order, labels: seq<string>, top: string, from: nat): (k: nat)
    requires from <= |labels|
    ensures from <= k <= |labels|
    ensures forall j :: from <= j < k ==> !Below(order, Number(labels[j]), top)
    ensures k < |labels| ==> Below(order, Number(labels[k]), top)
    decreases |labels| - from
  {
    if from == |labels| || Below(order, Number(labels[from]), top) then from
    else StopFrom(order, labels, top, from + 1)
  }

  /** How many labels the scan takes in before it stops: the scan can stop only once a
      non-empty prefix has been recorded, and it stops at the first res whose prefix is below
      that one. */
  function Stop(order: Order, labels: seq<string>): (k: nat)
    ensures k <= |labels|
    ensures FirstNamed(labels) < |labels| ==> FirstNamed(labels) < k
  {
    var f := FirstNamed(labels);
    if f == |labels| then |labels| else StopFrom(order, labels, Number(labels[f]), f + 1)
  }

  /** The value of `highest_resolution` after the first `n` labels: None before any, then the
      first non-empty prefix once there is one (an empty prefix is falsy and is overwritten). */
  function Highest(labels: seq<string>, n: nat): Option<string>
    requires n <= |labels|
  {
    var f := FirstNamed(labels);
    if n == 0 then None
    else if f < n then Some(Number(labels[f]))
    else Some("")
  }

  /** `str(highest_resolution)` (helper.py:65). */
  function ResolutionText(h: Option<string>): string
  {
    match h
    case None => "None"
    case Some(s) => s
  }

  function MaxOpt(a: Option<nat>, b: Option<nat>): Option<nat>
  {
    match (a, b)
    case (None, _) => b
    case (_, None) => a
    case (Some(x), Some(y)) => Some(if x < y then y else x)
  }

  /** The largest frame rate announced by the first `n` labels, None if none announces one. */
  function MaxFps(labels: seq<string>, n: nat): Option<nat>
    requires n <= |labels|
    requires forall j :: 0 <= j < n ==> Parsable(labels[j])
  {
    if n == 0 then None else MaxOpt(MaxFps(labels, n - 1), FpsOf(labels[n - 1]))
  }

  /** The first label at or after `from` and before `n` whose frame-rate text is not an
      integer, or `n`. */
  function FirstUnparsable(labels: seq<string>, from: nat, n: nat): (b: nat)
    requires from <= n <= |labels|
    ensures from <= b <= n
    ensures forall j :: from <= j < b ==> Parsable(labels[j])
    ensures b < n ==> !Parsable(labels[b])
    decreases n - from
  {
    if from == n || !Parsable(labels[from]) then from else FirstUnparsable(labels, from + 1, n)
  }

  /** What the scan of helper.py:53-66 yields, stated over the whole list: the scanned window is
      the first Stop labels; the first unparsable frame rate in it raises, otherwise the
      resolution is the first non-empty prefix and the frame rate the largest one in the window. */
  function AutoChoice(order: Order, labels: seq<string>): (r: Result<Choice, Error>)
    ensures r.Err? ==> r.error.NotAnInteger?
  {
    var k := Stop(order, labels);
    var b := FirstUnparsable(labels, 0, k);
    if b < k then Err(NotAnInteger(FpsText(labels[b])))
    else Ok(Choice(ResolutionText(Highest(labels, k)) + "p", MaxFps(labels, k)))
  }

  predicate Truthy(h: Option<string>)
  {
    h.Some? && h.value != ""
  }

  /** Recording the prefix of label `i`: the recorded prefix is truthy exactly once a
      non-empty prefix has been seen, and a falsy one is overwritten. */
  lemma {:induction false} HighestStep(labels: seq<string>, i: nat)
    requires i < |labels|
    ensures Truthy(Highest(labels, i)) <==> FirstNamed(labels) < i
    ensures Highest(labels, i + 1) ==
      if Truthy(Highest(labels, i)) then Highest(labels, i) else Some(Number(labels[i]))
  {
  }

  /** While label `i` lies inside the window, the source's break condition holds exactly at
      the window's end. */
  lemma {:induction false} BreakAtStop(order: Order, labels: seq<string>, i: nat)
    requires i < |labels| && i <= Stop(order, labels)
    ensures (Truthy(Highest(labels, i)) && Below(order, Number(labels[i]), Highest(labels, i).value))
      <==> i == Stop(order, labels)
  {
    HighestStep(labels, i);
  }

  lemma {:induction false} ChoiceRaisesAt(order: Order, labels: seq<string>, i: nat)
    requires i < Stop(order, labels)
    requires forall j :: 0 <= j < i ==> Parsable(labels[j])
    requires !Parsable(labels[i])
    ensures AutoChoice(order, labels) == Err(NotAnInteger(FpsText(labels[i])))
  {
    var b := FirstUnparsable(labels, 0, Stop(order, labels));
    assert b == i;
  }

  lemma {:induction false} ChoiceSucceeds(order: Order, labels: seq<string>)
    requires forall j :: 0 <= j < Stop(order, labels) ==> Parsable(labels[j])
    ensures var k := Stop(order, labels);
      AutoChoice(order, labels) == Ok(Choice(ResolutionText(Highest(labels, k)) + "p", MaxFps(labels, k)))
  {
  }

  /** One label inside the window: how the recorded prefix and the frame rate move on, and
      the error raised when the label's frame rate is not an integer. */
  lemma {:induction false} ScanStep(labels: seq<string>, i: nat)
    requires i < Stop(Textual, labels)
    requires forall j :: 0 <= j < i ==> Parsable(labels[j])
    ensures Highest(labels, i + 1) ==
      if Truthy(Highest(labels, i)) then Highest(labels, i) else Some(Number(labels[i]))
    ensures !Parsable(labels[i]) ==> AutoChoice(Textual, labels) == Err(NotAnInteger(FpsText(labels[i])))
  {
    HighestStep(labels, i);
    if !Parsable(labels[i]) {
      ChoiceRaisesAt(Textual, labels, i);
    }
  }

  /** The frame-rate update of helper.py:61-64, truthiness of 0 included, keeps the maximum. */
  lemma FpsUpdateIsMax(fps: Option<nat>, res: string)
    requires Parsable(res)
    ensures var text := FpsText(res);
      MaxOpt(fps, FpsOf(res)) ==
        if !FpsTruthy(fps) && text != "" then Some(Value(text))
        else if text != "" && Value(text) > fps.value then Some(Value(text))
        else fps
  {
  }

  /** helper.py:61-64: the frame-rate update for one label; `int()` raises on a suffix that is
      not a number. */
  method UpdateFps(fps: Option<nat>, res: string) returns (r: Result<Option<nat>, Error>)
    ensures Parsable(res) ==> r == Ok(MaxOpt(fps, FpsOf(res)))
    ensures !Parsable(res) ==> r == Err(NotAnInteger(FpsText(res)))
  {
    var text := FpsText(res);
    if Parsable(res) {
      FpsUpdateIsMax(fps, res);
    }
    if !FpsTruthy(fps) && text != "" {
      if !AllDigits(text) {
        return Err(NotAnInteger(text));
      }
      return Ok(Some(Value(text)));
    } else if text != "" {
      if !AllDigits(text) {
        return Err(NotAnInteger(text));
      }
      if Value(text) > fps.value {
        return Ok(Some(Value(text)));
      }
    }
    return Ok(fps);
  }

  lemma ParsableExtends(labels: seq<string>, i: nat)
    requires i < |labels| && Parsable(labels[i])
    requires forall j :: 0 <= j < i ==> Parsable(labels[j])
    ensures forall j :: 0 <= j < i + 1 ==> Parsable(labels[j])
  {
  }

  /** The loop of helper.py:53-64 as written, with its `break` and its string comparison. */
  method SelectBest(labels: seq<string>) returns (r: Result<Choice, Error>)
    ensures r == AutoChoice(Textual, labels)
  {
    var highest: Option<string> := None;
    var fps: Option<nat> := None;
    ghost var k := Stop(Textual, labels);
    var i := 0;
    while i < |labels|
      invariant i <= k
      invariant highest == Highest(labels, i)
      invariant forall j :: 0 <= j < i ==> Parsable(labels[j])
      invariant fps == MaxFps(labels, i)
    {
      var number := Number(labels[i]);
      BreakAtStop(Textual, labels, i);
      if Truthy(highest) && StrLess(number, highest.value) {
        break;
      }
      ScanStep(labels, i);
      if !Truthy(highest) {
        highest := Some(number);
      }
      var updated := UpdateFps(fps, labels[i]);
      if updated.Err? {
        assert !Parsable(labels[i]);
        return Err(updated.error);
      }
      ParsableExtends(labels, i);
      assert MaxFps(labels, i + 1) == MaxOpt(fps, FpsOf(labels[i]));
      fps := updated.value;
      i := i + 1;
    }
    assert i == k;
    ChoiceSucceeds(Textual, labels);
    r := Ok(Choice(ResolutionText(highest) + "p", fps));
  }

  /** The labels `get_all_resolution` builds parse back: for a resolution of the library's form
      (digits then 'p') the prefix is the digits, and the frame rate reads back exactly when it
      was appended, that is when it exceeds 30. */
  lemma {:induction false} LabelParsesBack(s: Stream, digits: string)
    requires AllDigits(digits) && s.resolution == digits + "p"
    ensures Number(ResolutionLabel(s)) == digits
    ensures Parsable(ResolutionLabel(s))
    ensures FpsOf(ResolutionLabel(s)) == if s.fps > 30 then Some(s.fps) else None
  {
    var res := ResolutionLabel(s);
    var tail := if s.fps > 30 then Dec(s.fps) else "";
    assert res == digits + "p" + tail;
    assert 'p' !in digits by {
      NoSeparatorInDigits(digits, 'p');
    }
    assert res[..|digits|] == digits;
    assert res[|digits| + 1..] == tail;
    assert Find(res, 'p') == |digits|;
    if s.fps > 30 {
      ValueOfDec(s.fps);
    }
  }

  /** An empty label list yields the resolution "Nonep" and no frame rate (helper.py:65). */
  lemma AutoChoiceOfEmpty(order: Order)
    ensures AutoChoice(order, []) == Ok(Choice("Nonep", None))
  {
    assert Stop(order, []) == 0 && Highest([], 0) == None;
    assert ResolutionText(None) + "p" == "Nonep";
  }

  /** MaxFps is None exactly when none of the first `n` labels announces a frame rate. */
  lemma {:induction false} MaxFpsNone(labels: seq<string>, n: nat)
    requires n <= |labels|
    requires forall j :: 0 <= j < n ==> Parsable(labels[j])
    ensures MaxFps(labels, n).None? <==> forall j :: 0 <= j < n ==> FpsText(labels[j]) == ""
  {
    if n > 0 {
      MaxFpsNone(labels, n - 1);
    }
  }

  /** MaxFps, when there is one, is the frame rate of one of the first `n` labels. */
  lemma {:induction false} MaxFpsAttained(labels: seq<string>, n: nat)
    requires n <= |labels|
    requires forall j :: 0 <= j < n ==> Parsable(labels[j])
    ensures MaxFps(labels, n).Some? ==> exists j :: 0 <= j < n && FpsOf(labels[j]) == MaxFps(labels, n)
  {
    if n > 0 {
      MaxFpsAttained(labels, n - 1);
      if MaxFps(labels, n) == MaxFps(labels, n - 1) && MaxFps(labels, n - 1).Some? {
        var j :| 0 <= j < n - 1 && FpsOf(labels[j]) == MaxFps(labels, n - 1);
        assert FpsOf(labels[j]) == MaxFps(labels, n);
      } else {
        assert FpsOf(labels[n - 1]) == MaxFps(labels, n);
      }
    }
  }

  /** None of the first `n` labels announces a frame rate above MaxFps. */
  lemma {:induction false} MaxFpsBound(labels: seq<string>, n: nat)
    requires n <= |labels|
    requires forall j :: 0 <= j < n ==> Parsable(labels[j])
    ensures forall j :: 0 <= j < n && FpsOf(labels[j]).Some? ==>
      MaxFps(labels, n).Some? && FpsOf(labels[j]).value <= MaxFps(labels, n).value
  {
    if n > 0 {
      MaxFpsBound(labels, n - 1);
      var m, f := MaxFps(labels, n - 1), FpsOf(labels[n - 1]);
      assert MaxFps(labels, n) == MaxOpt(m, f);
      assert m.Some? ==> MaxOpt(m, f).Some? && m.value <= MaxOpt(m, f).value;
      assert f.Some? ==> MaxOpt(m, f).Some? && f.value <= MaxOpt(m, f).value;
    }
  }

  /** For a non-empty list whose first label has a non-empty prefix, the window runs up to,
      not including, the first later label whose prefix is below that one. */
  lemma {:induction false} StopOfNamedFirst(order: Order, labels: seq<string>)
    requires |labels| > 0 && Number(labels[0]) != ""
    ensures var k := Stop(order, labels);
      && 1 <= k <= |labels|
      && (forall j :: 1 <= j < k ==> !Below(order, Number(labels[j]), Number(labels[0])))
      && (k < |labels| ==> Below(order, Number(labels[k]), Number(labels[0])))
  {
    assert FirstNamed(labels) == 0;
  }

  /** For a non-empty list whose first label has a non-empty prefix: the scan keeps that prefix
      as the resolution; it takes in the labels up to, not including, the first later label
      whose prefix is below it; an unparsable frame rate among those raises; otherwise the frame
      rate is the largest one among them (MaxFpsBound). */
  lemma {:induction false} AutoChoiceOfNamedFirst(order: Order, labels: seq<string>)
    requires |labels| > 0 && Number(labels[0]) != ""
    ensures var k := Stop(order, labels);
      && 1 <= k <= |labels|
      && (forall j :: 1 <= j < k ==> !Below(order, Number(labels[j]), Number(labels[0])))
      && (k < |labels| ==> Below(order, Number(labels[k]), Number(labels[0])))
      && ((exists j :: 0 <= j < k && !Parsable(labels[j])) ==> AutoChoice(order, labels).Err?)
      && ((forall j :: 0 <= j < k ==> Parsable(labels[j])) ==>
            AutoChoice(order, labels) == Ok(Choice(Number(labels[0]) + "p", MaxFps(labels, k))))
  {
    var k := Stop(order, labels);
    StopOfNamedFirst(order, labels);
    assert FirstNamed(labels) == 0;
    if exists j :: 0 <= j < k && !Parsable(labels[j]) {
      var b := FirstUnparsable(labels, 0, k);
      assert b < k;
    } else {
      ChoiceSucceeds(order, labels);
    }
  }

  /** A label made of digits, a 'p' and a suffix splits at that 'p'. */
  lemma {:induction false} SplitsAfterDigits(digits: string, suffix: string)
    requires AllDigits(digits)
    ensures Number(digits + "p" + suffix) == digits && FpsText(digits + "p" + suffix) == suffix
  {
    var s := digits + "p" + suffix;
    NoSeparatorInDigits(digits, 'p');
    assert s[..|digits|] == digits;
    assert s[|digits| + 1..] == suffix;
    assert Find(s, 'p') == |digits|;
  }

  /** The window ends at `k` when the labels before it stay at or above the first prefix and the
      one at `k`, if any, falls below it. */
  lemma {:induction false} StopIs(order: Order, labels: seq<string>, k: nat)
    requires |labels| > 0 && Number(labels[0]) != ""
    requires 1 <= k <= |labels|
    requires forall j :: 1 <= j < k ==> !Below(order, Number(labels[j]), Number(labels[0]))
    requires k < |labels| ==> Below(order, Number(labels[k]), Number(labels[0]))
    ensures Stop(order, labels) == k
  {
    StopOfNamedFirst(order, labels);
  }

  /** The choice made over a window of parsable labels that starts with a named prefix. */
  lemma {:induction false} ChoiceOfWindow(order: Order, labels: seq<string>, k: nat, fps: Option<nat>)
    requires |labels| > 0 && Number(labels[0]) != ""
    requires Stop(order, labels) == k
    requires forall j :: 0 <= j < k ==> Parsable(labels[j])
    requires k <= |labels| && MaxFps(labels, k) == fps
    ensures AutoChoice(order, labels) == Ok(Choice(Number(labels[0]) + "p", fps))
  {
    StopOfNamedFirst(order, labels);
    assert FirstNamed(labels) == 0;
    ChoiceSucceeds(order, labels);
  }

  /** The two labels of a catalog offering resolution `hi` at a plain frame rate and `lo` at
      frame rate `f`, both read back. */
  lemma {:induction false} MixedLabels(hi: string, lo: string, f: nat)
    requires AllDigits(hi) && AllDigits(lo)
    ensures var labels := [hi + "p", lo + "p" + Dec(f)];
      && Number(labels[0]) == hi && Parsable(labels[0]) && FpsOf(labels[0]) == None
      && Number(labels[1]) == lo && Parsable(labels[1]) && FpsOf(labels[1]) == Some(f)
  {
    PlainLabel(hi + "p", hi);
    SplitsAfterDigits(lo, Dec(f));
    ValueOfDec(f);
  }

  /** A two-label list whose second prefix is not below the first: the scan takes in both
      labels and keeps the larger of their frame rates. */
  lemma {:induction false} PairTakesBoth(order: Order, a: string, b: string)
    requires Number(a) != "" && Parsable(a) && Parsable(b)
    requires !Below(order, Number(b), Number(a))
    ensures AutoChoice(order, [a, b]) == Ok(Choice(Number(a) + "p", MaxOpt(FpsOf(a), FpsOf(b))))
  {
    var labels := [a, b];
    StopIs(order, labels, 2);
    assert MaxFps(labels, 1) == FpsOf(a);
    ChoiceOfWindow(order, labels, 2, MaxOpt(FpsOf(a), FpsOf(b)));
  }

  /** A two-label list whose second prefix is below the first: the scan stops at the second
      label and keeps the first one's frame rate. */
  lemma {:induction false} PairStopsAtSecond(order: Order, a: string, b: string)
    requires Number(a) != "" && Parsable(a)
    requires Below(order, Number(b), Number(a))
    ensures AutoChoice(order, [a, b]) == Ok(Choice(Number(a) + "p", FpsOf(a)))
  {
    var labels := [a, b];
    StopIs(order, labels, 1);
    ChoiceOfWindow(order, labels, 1, FpsOf(a));
  }

  /** helper.py:57 compares prefixes as strings: when the lower resolution `lo` does not compare
      below `hi` as a string, the scan takes in both labels and asks for `hi` at the frame rate
      only `lo` offers. */
  lemma {:induction false} TextualChoiceMixes(hi: string, lo: string, f: nat)
    requires AllDigits(hi) && AllDigits(lo) && hi != ""
    requires !StrLess(lo, hi)
    ensures AutoChoice(Textual, [hi + "p", lo + "p" + Dec(f)]) == Ok(Choice(hi + "p", Some(f)))
  {
    MixedLabels(hi, lo, f);
    PairTakesBoth(Textual, hi + "p", lo + "p" + Dec(f));
  }

  /** The same two labels built from a video-only view, as `auto_download` builds them. */
  lemma {:induction false} MixedViewChoice(view: seq<Stream>, hi: string, lo: string, f: nat)
    requires AllDigits(hi) && AllDigits(lo) && hi != "" && !StrLess(lo, hi) && f > 30
    requires |view| == 2
    requires view[0].resolution == hi + "p" && view[0].fps <= 30
    requires view[1].resolution == lo + "p" && view[1].fps == f
    ensures AutoChoice(Textual, Dedup(ResolutionLabels(view))) == Ok(Choice(hi + "p", Some(f)))
  {
    var a, b := hi + "p", lo + "p" + Dec(f);
    MixedLabels(hi, lo, f);
    assert a != b;
    PairLabels(view, a, b);
    TextualChoiceMixes(hi, lo, f);
  }

  /** Compared as integers, the lower resolution ends the window and the frame rate stays unset. */
  lemma {:induction false} NumericChoiceSeparates(hi: string, lo: string, f: nat)
    requires AllDigits(hi) && AllDigits(lo) && hi != ""
    requires Value(lo) < Value(hi)
    ensures AutoChoice(Numeric, [hi + "p", lo + "p" + Dec(f)]) == Ok(Choice(hi + "p", None))
  {
    MixedLabels(hi, lo, f);
    PairStopsAtSecond(Numeric, hi + "p", lo + "p" + Dec(f));
  }

  lemma Value720()
    ensures Value("720") == 720
  {
    ValueSnoc("", '7'); assert "" + ['7'] == "7";
    ValueSnoc("7", '2'); assert "7" + ['2'] == "72";
    ValueSnoc("72", '0'); assert "72" + ['0'] == "720";
  }

  lemma Value1080()
    ensures Value("1080") == 1080
  {
    ValueSnoc("", '1'); assert "" + ['1'] == "1";
    ValueSnoc("1", '0'); assert "1" + ['0'] == "10";
    ValueSnoc("10", '8'); assert "10" + ['8'] == "108";
    ValueSnoc("108", '0'); assert "108" + ['0'] == "1080";
  }

  /** The catalog offering 1080p at 30 fps and 720p at 60 fps: "720" is not below "1080" as a
      string, so the scan asks for 1080p at 60 fps, a combination the catalog does not have;
      compared as integers it asks for 1080p. */
  lemma TextualOrderMixesResolutions(hi: string, lo: string, f: nat)
    requires hi == "1080" && lo == "720" && f == 60
    ensures AutoChoice(Textual, [hi + "p", lo + "p" + Dec(f)]) == Ok(Choice(hi + "p", Some(f)))
    ensures AutoChoice(Numeric, [hi + "p", lo + "p" + Dec(f)]) == Ok(Choice(hi + "p", None))
  {
    assert AllDigits(hi) && AllDigits(lo);
    assert !StrLess(lo, hi);
    TextualChoiceMixes(hi, lo, f);
    Value720();
    Value1080();
    NumericChoiceSeparates(hi, lo, f);
  }

  /** When no later prefix falls below the first one, the scan takes in every label and keeps
      the largest frame rate of all. */
  lemma {:induction false} ScanTakesAll(order: Order, labels: seq<string>)
    requires |labels| > 0 && Number(labels[0]) != ""
    requires forall j :: 0 <= j < |labels| ==> Parsable(labels[j])
    requires forall j :: 1 <= j < |labels| ==> !Below(order, Number(labels[j]), Number(labels[0]))
    ensures AutoChoice(order, labels) == Ok(Choice(Number(labels[0]) + "p", MaxFps(labels, |labels|)))
  {
    StopIs(order, labels, |labels|);
    ChoiceOfWindow(order, labels, |labels|, MaxFps(labels, |labels|));
  }

  /** When the second prefix falls below the first, the scan keeps the first label alone. */
  lemma {:induction false} ScanStopsAtSecond(order: Order, labels: seq<string>)
    requires |labels| > 1 && Number(labels[0]) != "" && Parsable(labels[0])
    requires Below(order, Number(labels[1]), Number(labels[0]))
    ensures AutoChoice(order, labels) == Ok(Choice(Number(labels[0]) + "p", FpsOf(labels[0])))
  {
    StopIs(order, labels, 1);
    assert MaxFps(labels, 1) == FpsOf(labels[0]);
    ChoiceOfWindow(order, labels, 1, FpsOf(labels[0]));
  }

  /** A resolution label without a frame rate: its prefix, and nothing after the 'p'. */
  lemma PlainLabel(l: string, digits: string)
    requires AllDigits(digits) && l == digits + "p"
    ensures Number(l) == digits && FpsText(l) == ""
    ensures Parsable(l) && FpsOf(l) == None
  {
    SplitsAfterDigits(digits, "");
    assert digits + "p" + "" == l;
  }

  /** A resolution label with frame rate `f` appended, read back. */
  lemma RatedLabel(l: string, digits: string, f: nat)
    requires AllDigits(digits) && l == digits + "p" + Dec(f)
    ensures Number(l) == digits && Parsable(l) && FpsOf(l) == Some(f)
  {
    SplitsAfterDigits(digits, Dec(f));
    ValueOfDec(f);
  }

  /** Five labels none of whose prefixes falls below the first, of which only the second
      announces a frame rate: the scan takes in all five and asks for that frame rate. */
  lemma {:induction false} ScanOfFive(order: Order, labels: seq<string>, f: nat)
    requires |labels| == 5 && Number(labels[0]) != ""
    requires Parsable(labels[0]) && Parsable(labels[1]) && Parsable(labels[2])
    requires Parsable(labels[3]) && Parsable(labels[4])
    requires !Below(order, Number(labels[1]), Number(labels[0])) && !Below(order, Number(labels[2]), Number(labels[0]))
    requires !Below(order, Number(labels[3]), Number(labels[0])) && !Below(order, Number(labels[4]), Number(labels[0]))
    requires FpsOf(labels[1]) == Some(f)
    requires FpsOf(labels[0]) == None && FpsOf(labels[2]) == None
    requires FpsOf(labels[3]) == None && FpsOf(labels[4]) == None
    ensures AutoChoice(order, labels) == Ok(Choice(Number(labels[0]) + "p", Some(f)))
  {
    forall j | 0 <= j < 5
      ensures Parsable(labels[j])
      ensures 1 <= j ==> !Below(order, Number(labels[j]), Number(labels[0]))
    {
      if j == 0 {
      } else if j == 1 {
      } else if j == 2 {
      } else if j == 3 {
      } else {
      }
    }
    assert MaxFps(labels, 1) == None;
    assert MaxFps(labels, 2) == Some(f);
    assert MaxFps(labels, 3) == Some(f);
    assert MaxFps(labels, 4) == Some(f);
    ScanTakesAll(order, labels);
  }

  /** A descending catalogue `hi`, `mid` at frame rate `f`, `mid`, `low`, `lowest` in which no
      prefix compares below `hi` as a string: the scan takes in all five labels and asks for
      `hi` at the frame rate only `mid` offers. */
  lemma {:induction false} DescendingTextual(labels: seq<string>, hi: string, mid: string, low: string, lowest: string,
                                             f: nat)
    requires AllDigits(hi) && AllDigits(mid) && AllDigits(low) && AllDigits(lowest) && hi != ""
    requires |labels| == 5 && labels[0] == hi + "p" && labels[1] == mid + "p" + Dec(f)
    requires labels[2] == mid + "p" && labels[3] == low + "p" && labels[4] == lowest + "p"
    requires !StrLess(mid, hi) && !StrLess(low, hi) && !StrLess(lowest, hi)
    ensures AutoChoice(Textual, labels) == Ok(Choice(hi + "p", Some(f)))
  {
    PlainLabel(labels[0], hi);
    RatedLabel(labels[1], mid, f);
    PlainLabel(labels[2], mid);
    PlainLabel(labels[3], low);
    PlainLabel(labels[4], lowest);
    ScanOfFive(Textual, labels, f);
  }

  /** The same catalogue compared as integers, `mid` below `hi`: the window is the first label
      alone and no frame rate is asked for. */
  lemma {:induction false} DescendingNumeric(labels: seq<string>, hi: string, mid: string, f: nat)
    requires AllDigits(hi) && AllDigits(mid) && hi != ""
    requires |labels| > 1 && labels[0] == hi + "p" && labels[1] == mid + "p" + Dec(f)
    requires Value(mid) < Value(hi)
    ensures AutoChoice(Numeric, labels) == Ok(Choice(hi + "p", None))
  {
    PlainLabel(labels[0], hi);
    SplitsAfterDigits(mid, Dec(f));
    ScanStopsAtSecond(Numeric, labels);
  }

  /** The descending catalogue 1080p, 720p60, 720p, 480p, 360p. No prefix compares below "1080"
      as a string, so the scan asks for 1080p at 60 fps, which the catalogue does not offer;
      compared as integers it asks for 1080p without a frame rate. */
  lemma DescendingCatalogChoice(labels: seq<string>, hi: string, mid: string, low: string, lowest: string, f: nat)
    requires hi == "1080" && mid == "720" && low == "480" && lowest == "360" && f == 60
    requires |labels| == 5 && labels[0] == hi + "p" && labels[1] == mid + "p" + Dec(f)
    requires labels[2] == mid + "p" && labels[3] == low + "p" && labels[4] == lowest + "p"
    ensures AutoChoice(Textual, labels) == Ok(Choice(hi + "p", Some(f)))
    ensures AutoChoice(Numeric, labels) == Ok(Choice(hi + "p", None))
  {
    assert AllDigits(hi) && AllDigits(mid) && AllDigits(low) && AllDigits(lowest);
    assert !StrLess(mid, hi) && !StrLess(low, hi) && !StrLess(lowest, hi);
    DescendingTextual(labels, hi, mid, low, lowest, f);
    Value720();
    Value1080();
    DescendingNumeric(labels, hi, mid, f);
  }

  /** On numeric prefixes sorted from the highest down, the numeric window is exactly the
      labels at the top value. */
  lemma {:induction false} NumericWindowIsTop(labels: seq<string>)
    requires |labels| > 0
    requires forall j :: 0 <= j < |labels| ==> Number(labels[j]) != "" && AllDigits(Number(labels[j]))
    requires forall i, j :: 0 <= i < j < |labels| ==> Value(Number(labels[j])) <= Value(Number(labels[i]))
    ensures var k, top := Stop(Numeric, labels), Value(Number(labels[0]));
      && 1 <= k
      && (forall j :: 0 <= j < k ==> Value(Number(labels[j])) == top)
      && (forall j :: k <= j < |labels| ==> Value(Number(labels[j])) < top)
  {
    var k, top := Stop(Numeric, labels), Value(Number(labels[0]));
    StopOfNamedFirst(Numeric, labels);
    forall j | 0 <= j < k
      ensures Value(Number(labels[j])) == top
    {
      if j > 0 {
        assert !Below(Numeric, Number(labels[j]), Number(labels[0]));
      }
    }
    forall j | k <= j < |labels|
      ensures Value(Number(labels[j])) < top
    {
      assert Below(Numeric, Number(labels[k]), Number(labels[0]));
      assert j == k || Value(Number(labels[j])) <= Value(Number(labels[k]));
    }
  }

  /** The corrected comparison: on labels whose prefixes are numbers sorted from the highest
      resolution down, the scan takes in exactly the labels at the highest resolution, so the
      chosen frame rate is the largest announced at that resolution, and None exactly when
      none is announced there. */
  lemma {:induction false} NumericChoiceTakesTopResolution(labels: seq<string>)
    requires |labels| > 0
    requires forall j :: 0 <= j < |labels| ==> Number(labels[j]) != "" && AllDigits(Number(labels[j]))
    requires forall i, j :: 0 <= i < j < |labels| ==> Value(Number(labels[j])) <= Value(Number(labels[i]))
    requires forall j :: 0 <= j < |labels| ==> Parsable(labels[j])
    ensures var k, top := Stop(Numeric, labels), Value(Number(labels[0]));
      && (forall j :: 0 <= j < k ==> Value(Number(labels[j])) == top)
      && (forall j :: k <= j < |labels| ==> Value(Number(labels[j])) < top)
    ensures AutoChoice(Numeric, labels).Ok?
    ensures var c := AutoChoice(Numeric, labels).value;
      && c.resolution == Number(labels[0]) + "p"
      && (c.fps.Some? ==> exists j :: 0 <= j < |labels| && FpsOf(labels[j]) == c.fps
                                      && Value(Number(labels[j])) == Value(Number(labels[0])))
      && (forall j :: (0 <= j < |labels| && Value(Number(labels[j])) == Value(Number(labels[0]))
                       && FpsOf(labels[j]).Some?) ==> c.fps.Some? && FpsOf(labels[j]).value <= c.fps.value)
      && (c.fps.None? <==>
            forall j :: (0 <= j < |labels| && Value(Number(labels[j])) == Value(Number(labels[0]))) ==>
              FpsText(labels[j]) == "")
  {
    var k := Stop(Numeric, labels);
    NumericWindowIsTop(labels);
    assert FirstNamed(labels) == 0;
    ChoiceSucceeds(Numeric, labels);
    MaxFpsAttained(labels, k);
    MaxFpsBound(labels, k);
    MaxFpsNone(labels, k);
    var c := AutoChoice(Numeric, labels).value;
    assert c.fps == MaxFps(labels, k);
    if c.fps.Some? {
      var j :| 0 <= j < k && FpsOf(labels[j]) == c.fps;
      assert Value(Number(labels[j])) == Value(Number(labels[0]));
    }
  }
}
