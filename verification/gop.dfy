/**
 * Keyframe interval (`ABRVideoProcessor._get_gop_size`): two seconds' worth
 * of frames at the average frame rate of the first video stream, with 60 as
 * the answer whenever any step fails.
 */
module Gop {
  import opened Wrappers
  import opened PyStr

  /** One entry of the probe's `streams` list: its string-valued fields. */
  type Stream = map<string, string>

  const DefaultRate := "30/1"
  const FallbackGop := 60

  predicate HasCodecType(s: Stream) { "codec_type" in s }

  predicate IsVideo(s: Stream) { HasCodecType(s) && s["codec_type"] == "video" }

  /**
   * `next(s for s in streams if s['codec_type'] == 'video')`. `None` both
   * when no stream is video (StopIteration) and when a stream examined
   * before the first video one has no `codec_type` (KeyError).
   */
  function FirstVideo(streams: seq<Stream>): (r: Option<Stream>)
    ensures r.Some? ==> r.value in streams && IsVideo(r.value)
    ensures (forall k :: 0 <= k < |streams| ==> HasCodecType(streams[k]) && !IsVideo(streams[k])) ==> r.None?
  {
    if streams == [] then None
    else if !HasCodecType(streams[0]) then None
    else if IsVideo(streams[0]) then Some(streams[0])
    else FirstVideo(streams[1..])
  }

  /** Only the first video stream counts: what follows it is never examined. */
  lemma {:induction false} FirstVideoOf(pre: seq<Stream>, s: Stream, post: seq<Stream>)
    requires forall k :: 0 <= k < |pre| ==> HasCodecType(pre[k]) && !IsVideo(pre[k])
    ensures FirstVideo(pre + [s] + post) ==
      if !HasCodecType(s) then None else if IsVideo(s) then Some(s) else FirstVideo(post)
    decreases |pre|
  {
    if pre == [] {
      assert pre + [s] + post == [s] + post;
      assert ([s] + post)[1..] == post;
    } else {
      FirstVideoOf(pre[1..], s, post);
      assert (pre + [s] + post)[1..] == pre[1..] + [s] + post;
    }
  }

  /** `video_stream.get('avg_frame_rate', '30/1')`. */
  function RateOf(video: Stream): string
  {
    if "avg_frame_rate" in video then video["avg_frame_rate"] else DefaultRate
  }

  /** `num, den = map(int, rate.split('/'))`; `None` where Python raises ValueError. */
  function ParseRate(rate: string): (r: Option<(int, int)>)
    ensures r.Some? ==> '/' in rate
  {
    var parts := Split(rate, '/');
    if |parts| != 2 then None
    else
      match (ParseInt(parts[0]), ParseInt(parts[1]))
      case (Some(num), Some(den)) =>
        Some((num, den))
      case _ => None
  }

  /** A rate printed as "num/den" parses back to (num, den). */
  lemma RateRoundTrip(num: int, den: int)
    ensures ParseRate(IntToString(num) + "/" + IntToString(den)) == Some((num, den))
  {
    var a, b := IntToString(num), IntToString(den);
    IntToStringChars(num);
    IntToStringChars(den);
    SplitCons(a, '/', b);
    assert a + "/" + b == a + ['/'] + b;
    assert Split(b, '/') == [b];
    ParseIntOfIntToString(num);
    ParseIntOfIntToString(den);
  }

  /**
   * `r` is `p / q` rounded to the nearest integer, ties to the even one
   * (Python's `round`): |r - p/q| <= 1/2, and r is even at exactly 1/2.
   */
  predicate RoundsTo(p: int, q: int, r: int)
    requires q > 0
  {
    var e := r * q - p;
    -q <= 2 * e <= q && (2 * e == q || 2 * e == -q ==> r % 2 == 0)
  }

  function RoundHalfEven(p: int, q: int): (r: int)
    requires q > 0
    ensures RoundsTo(p, q, r)
  {
    var fl, rem := p / q, p % q;
    assert p == fl * q + rem;
    if 2 * rem < q then fl
    else if 2 * rem > q then fl + 1
    else if fl % 2 == 0 then fl
    else fl + 1
  }

  lemma {:induction false} MulAtLeast(k: int, q: int)
    requires k >= 1 && q > 0
    ensures k * q >= q
    decreases k
  {
    if k > 1 {
      MulAtLeast(k - 1, q);
      assert k * q == (k - 1) * q + q;
    }
  }

  lemma MulStep(a: int, b: int, q: int)
    requires q > 0 && a < b
    ensures a * q + q <= b * q
  {
    MulAtLeast(b - a, q);
    assert b * q == a * q + (b - a) * q;
  }

  /** At most one integer rounds `p / q`, so `RoundsTo` pins the result down. */
  lemma RoundsToUnique(p: int, q: int, r1: int, r2: int)
    requires q > 0
    requires RoundsTo(p, q, r1) && RoundsTo(p, q, r2)
    ensures r1 == r2
  {
    if r1 < r2 {
      MulStep(r1, r2, q);
      if r1 + 1 < r2 { MulStep(r1 + 1, r2, q); }
    } else if r2 < r1 {
      MulStep(r2, r1, q);
      if r2 + 1 < r1 { MulStep(r2 + 1, r1, q); }
    }
  }

  /** `int(round(2 * num / den))`, with `den <= 0` read as 30 fps and a bad rate as the fallback. */
  function GopOfRate(rate: string): (g: int)
    ensures ParseRate(rate).None? ==> g == FallbackGop
    ensures ParseRate(rate).Some? && ParseRate(rate).value.1 <= 0 ==> g == 60
    ensures ParseRate(rate).Some? && ParseRate(rate).value.1 > 0 ==>
      RoundsTo(2 * ParseRate(rate).value.0, ParseRate(rate).value.1, g)
  {
    match ParseRate(rate)
    case None => FallbackGop
    case Some((num, den)) => if den > 0 then RoundHalfEven(2 * num, den) else RoundHalfEven(2 * 30, 1)
  }

  /**
   * The probe result is `None` when `ffmpeg.probe` raised or gave no
   * `streams`. Every failure yields 60.
   */
  function GopSize(probe: Option<seq<Stream>>): (g: int)
    ensures probe.None? ==> g == FallbackGop
    ensures probe.Some? && FirstVideo(probe.value).None? ==> g == FallbackGop
    ensures probe.Some? && FirstVideo(probe.value).Some? ==> g == GopOfRate(RateOf(FirstVideo(probe.value).value))
  {
    match probe
    case None => FallbackGop
    case Some(streams) =>
      match FirstVideo(streams)
      case None => FallbackGop
      case Some(video) => GopOfRate(RateOf(video))
  }

  /** For any rate "num/den" with den > 0, the GOP is 2·num/den rounded half to even. */
  lemma GopOfFraction(num: int, den: int)
    requires den > 0
    ensures GopOfRate(IntToString(num) + "/" + IntToString(den)) == RoundHalfEven(2 * num, den)
  {
    RateRoundTrip(num, den);
    RoundsToUnique(2 * num, den, GopOfRate(IntToString(num) + "/" + IntToString(den)), RoundHalfEven(2 * num, den));
  }

  /** A non-positive denominator means 30 fps, so 60 frames. */
  lemma GopOfNonPositiveDen(num: int, den: int)
    requires den <= 0
    ensures GopOfRate(IntToString(num) + "/" + IntToString(den)) == 60
  {
    RateRoundTrip(num, den);
  }

  /** A rate without '/' or with more than one '/' is malformed and falls back. */
  lemma MalformedRate(rate: string)
    requires '/' !in rate || |Split(rate, '/')| > 2
    ensures GopOfRate(rate) == FallbackGop
  {
  }

  /** NTSC 59.94 fps ("60000/1001") gives 120 frames per two seconds. */
  lemma NtscGop()
    ensures GopSize(Some([map["codec_type" := "audio"], map["codec_type" := "video", "avg_frame_rate" := "60000/1001"]])) == 120
  {
    var audio: Stream := map["codec_type" := "audio"];
    var video: Stream := map["codec_type" := "video", "avg_frame_rate" := "60000/1001"];
    VideoAfterOther(audio, video);
    assert IntToString(60000) == "60000";
    assert IntToString(1001) == "1001";
    GopOfText(60000, 1001, RateOf(video));
    assert RoundHalfEven(2 * 60000, 1001) == 120;
  }

  /** A stream that is not video, then a video one: the second is the first video stream. */
  lemma VideoAfterOther(other: Stream, video: Stream)
    requires HasCodecType(other) && !IsVideo(other) && IsVideo(video)
    ensures FirstVideo([other, video]) == Some(video)
  {
    FirstVideoOf([other], video, []);
    assert [other] + [video] + [] == [other, video];
  }

  /** `GopOfFraction` for a rate text already known to print (num, den). */
  lemma GopOfText(num: int, den: int, rate: string)
    requires den > 0 && rate == IntToString(num) + "/" + IntToString(den)
    ensures GopOfRate(rate) == RoundHalfEven(2 * num, den)
  {
    GopOfFraction(num, den);
  }

  /** A video stream without `avg_frame_rate` is read as "30/1": 60 frames. */
  lemma DefaultRateGop(video: Stream)
    requires IsVideo(video) && "avg_frame_rate" !in video
    ensures GopSize(Some([video])) == 60
  {
    assert IntToString(30) + "/" + IntToString(1) == DefaultRate;
    GopOfFraction(30, 1);
  }

  /** Ties round to even: "5/4" fps is 2.5 frames per two seconds, which rounds to 2. */
  lemma TieRoundsToEven()
    ensures GopOfRate("5/4") == 2
  {
    assert IntToString(5) + "/" + IntToString(4) == "5/4";
    GopOfFraction(5, 4);
  }
}
