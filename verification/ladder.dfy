/**
 * The ABR ladder (`ABR_LADDER`) and the job each of its variants becomes:
 * the keyword options `process` hands to `ffmpeg.output` for one variant.
 */
module Ladder {
  import opened Wrappers
  import opened PyStr
  import opened Paths
  import opened Hardware

  /** One ladder entry; `bitrate` is kept as the authored string such as "4500k". */
  datatype Tier = Tier(name: string, width: int, height: int, bitrate: string)

  /** The ladder, in authored order; `process` encodes every entry in this order. */
  const AbrLadder: seq<Tier> := [
    Tier("1080p", 1920, 1080, "4500k"),
    Tier("720p", 1280, 720, "2500k"),
    Tier("480p", 854, 480, "1000k")
  ]

  /** `int(bitrate.replace('k', ''))`; `None` where Python raises ValueError. */
  function Kbps(bitrate: string): Option<int>
  {
    ParseInt(RemoveAll(bitrate, 'k'))
  }

  predicate WellFormed(t: Tier)
  {
    Kbps(t.bitrate).Some?
  }

  /** BANDWIDTH of the variant's STREAM-INF line, in bits per second. */
  function Bandwidth(t: Tier): int
    requires WellFormed(t)
  {
    Kbps(t.bitrate).value * 1000
  }

  /** The `bufsize` option: twice the kbps figure, followed by 'k'. */
  function BufSize(t: Tier): string
    requires WellFormed(t)
  {
    IntToString(Kbps(t.bitrate).value * 2) + "k"
  }

  /** A figure printed and suffixed with 'k' reads back as that figure. */
  lemma KbpsOfPrinted(n: int)
    ensures Kbps(IntToString(n) + "k") == Some(n)
  {
    var s := IntToString(n);
    IntToStringChars(n);
    RemoveAllAppend(s, "k", 'k');
    RemoveAllAbsent(s, 'k');
    assert RemoveAll("k", 'k') == RemoveAll([], 'k');
    assert RemoveAll(s + "k", 'k') == s;
    ParseIntOfIntToString(n);
  }

  /**
   * A bitrate written as "<n>k" has bandwidth n·1000 bits per second, and its
   * bufsize reads back as twice its kbps figure.
   */
  lemma BitrateFigures(t: Tier, n: int)
    requires t.bitrate == IntToString(n) + "k"
    ensures WellFormed(t)
    ensures Bandwidth(t) == n * 1000
    ensures BufSize(t) == IntToString(2 * n) + "k"
    ensures Kbps(BufSize(t)) == Some(2 * n)
  {
    KbpsOfPrinted(n);
    KbpsOfPrinted(2 * n);
  }

  /** The 1080p entry: 4500000 bits per second, bufsize "9000k". */
  lemma Figures1080p()
    ensures WellFormed(AbrLadder[0]) && Bandwidth(AbrLadder[0]) == 4500000 && BufSize(AbrLadder[0]) == "9000k"
  {
    var t := AbrLadder[0];
    assert t.bitrate == "4500k";
    assert IntToString(4500) == "4500";
    assert IntToString(9000) == "9000";
    BitrateFigures(t, 4500);
  }

  /** The 720p entry: 2500000 bits per second, bufsize "5000k". */
  lemma Figures720p()
    ensures WellFormed(AbrLadder[1]) && Bandwidth(AbrLadder[1]) == 2500000 && BufSize(AbrLadder[1]) == "5000k"
  {
    var t := AbrLadder[1];
    assert t.bitrate == "2500k";
    assert IntToString(2500) == "2500";
    assert IntToString(5000) == "5000";
    BitrateFigures(t, 2500);
  }

  /** The 480p entry: 1000000 bits per second, bufsize "2000k". */
  lemma Figures480p()
    ensures WellFormed(AbrLadder[2]) && Bandwidth(AbrLadder[2]) == 1000000 && BufSize(AbrLadder[2]) == "2000k"
  {
    var t := AbrLadder[2];
    assert t.bitrate == "1000k";
    assert IntToString(1000) == "1000";
    assert IntToString(2000) == "2000";
    BitrateFigures(t, 1000);
  }

  /** Every ladder entry's bitrate parses, so `process` never raises on it. */
  lemma LadderWellFormed()
    ensures forall i :: 0 <= i < |AbrLadder| ==> WellFormed(AbrLadder[i])
  {
    forall i | 0 <= i < |AbrLadder|
      ensures WellFormed(AbrLadder[i])
    {
      if i == 0 {
        Figures1080p();
      } else if i == 1 {
        Figures720p();
      } else {
        Figures480p();
      }
    }
  }

  /** Names that are single path components without newlines. */
  lemma LadderNames()
    ensures forall i :: 0 <= i < |AbrLadder| ==> '/' !in AbrLadder[i].name && '\n' !in AbrLadder[i].name
  {
  }

  /**
   * The keyword options `process` spells out for one variant, each field
   * named after the ffmpeg option it sets.
   */
  datatype VariantOptions = VariantOptions(
    format: string,           // format
    hlsTime: int,             // hls_time, seconds per segment
    hlsListSize: int,         // hls_list_size, 0 keeps every segment listed
    segmentPattern: string,   // hls_segment_filename
    videoFilter: string,      // vf
    videoBitrate: string,     // b:v
    maxrate: string,          // maxrate
    bufsize: string,          // bufsize
    gop: int,                 // g
    keyintMin: int,           // keyint_min
    scThreshold: int,         // sc_threshold, 0 disables scene-cut keyframes
    audioCodec: string,       // c:a
    audioBitrate: string)     // b:a

  /** The ffmpeg keyword names of the fields of `VariantOptions`. */
  const JobKeys: set<string> := {
    "format", "hls_time", "hls_list_size", "hls_segment_filename", "vf",
    "b:v", "maxrate", "bufsize", "g", "keyint_min", "sc_threshold", "c:a", "b:a"
  }

  /**
   * One `ffmpeg.output(stream, output, **options)` call on the input file:
   * the variant's own options plus the encoder configuration's keywords.
   */
  datatype TranscodeJob = TranscodeJob(input: string, output: string, options: VariantOptions, encoder: map<string, Value>)

  /**
   * No encoder configuration repeats one of the variant's keywords, so the
   * call never raises TypeError for a repeated keyword argument and the
   * configuration reaches ffmpeg unchanged.
   */
  lemma HardwareKeysDisjoint(hw: map<string, Value>)
    requires IsHardwareConfig(hw)
    ensures hw.Keys !! JobKeys
  {
  }

  /** The directory of one variant's playlist and segments. */
  function VariantDir(baseDir: string, t: Tier): string
  {
    Join(baseDir, t.name)
  }

  /** The job of one variant (loop body of `process`); `TranscodeJobOptions` states what it holds. */
  function TranscodeJobFor(inputPath: string, baseDir: string, t: Tier, gop: int, hw: map<string, Value>): TranscodeJob
    requires WellFormed(t)
    requires hw.Keys !! JobKeys
  {
    var dir := VariantDir(baseDir, t);
    var options := VariantOptions(
      "hls", 2, 0, Join(dir, "seg_%03d.ts"),
      "scale=" + IntToString(t.width) + ":-2",
      t.bitrate, t.bitrate, BufSize(t),
      gop, gop, 0,
      "aac", "128k");
    TranscodeJob(inputPath, Join(dir, "index.m3u8"), options, hw)
  }

  /**
   * A variant job reads the input, writes `index.m3u8` and numbered `.ts`
   * segments of 2 seconds into the variant's directory, keeps every segment
   * in the playlist, scales to the tier's width keeping the aspect ratio,
   * caps the rate at the tier's bitrate with a buffer of twice that, puts a
   * keyframe exactly every `gop` frames with no scene-cut keyframes, and
   * passes the encoder options on unchanged.
   */
  lemma TranscodeJobOptions(inputPath: string, baseDir: string, t: Tier, gop: int, hw: map<string, Value>)
    requires WellFormed(t)
    requires hw.Keys !! JobKeys
    ensures var job := TranscodeJobFor(inputPath, baseDir, t, gop, hw);
      && job.input == inputPath
      && job.output == Join(VariantDir(baseDir, t), "index.m3u8")
      && job.encoder == hw
      && job.options.format == "hls" && job.options.hlsTime == 2 && job.options.hlsListSize == 0
      && job.options.segmentPattern == Join(VariantDir(baseDir, t), "seg_%03d.ts")
      && job.options.videoFilter == "scale=" + IntToString(t.width) + ":-2"
      && job.options.videoBitrate == job.options.maxrate == t.bitrate
      && job.options.bufsize == IntToString(2 * Kbps(t.bitrate).value) + "k"
      && Kbps(job.options.bufsize) == Some(2 * Kbps(t.bitrate).value)
      && job.options.gop == job.options.keyintMin == gop
      && job.options.scThreshold == 0
      && job.options.audioCodec == "aac" && job.options.audioBitrate == "128k"
  {
    KbpsOfPrinted(2 * Kbps(t.bitrate).value);
  }
}
