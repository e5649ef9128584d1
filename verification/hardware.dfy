/**
 * Encoder selection (`ABRVideoProcessor._detect_hardware`): the text that
 * `ffmpeg -encoders` printed, or the failure to run it, and the name of the
 * operating system decide which of three fixed encoder configurations
 * every variant job will use.
 */
module Hardware {
  import opened PyStr

  /** A value of an ffmpeg keyword option: a string or an int. */
  datatype Value = Str(s: string) | Num(n: int)

  /** What running `ffmpeg -encoders` gave: its standard output, or an exception. */
  datatype EncoderQuery = QueryFailed | QueryOutput(stdout: string)

  const NvencConfig: map<string, Value> :=
    map["c:v" := Str("h264_nvenc"), "preset" := Str("p4"), "rc" := Str("vbr")]
  const VideoToolboxConfig: map<string, Value> :=
    map["c:v" := Str("h264_videotoolbox"), "q" := Num(60), "allow_sw" := Num(1)]
  const SoftwareConfig: map<string, Value> :=
    map["c:v" := Str("libx264"), "preset" := Str("veryfast")]

  predicate IsHardwareConfig(cfg: map<string, Value>)
  {
    cfg == NvencConfig || cfg == VideoToolboxConfig || cfg == SoftwareConfig
  }

  /**
   * NVENC wins whenever the listing names it, whatever the system;
   * VideoToolbox only on Darwin when it is listed and NVENC is not;
   * otherwise, and whenever the query failed, libx264 with the veryfast preset.
   */
  function DetectHardware(query: EncoderQuery, system: string): (cfg: map<string, Value>)
    ensures IsHardwareConfig(cfg)
    ensures cfg == NvencConfig <==>
      query.QueryOutput? && exists i :: OccursAt(query.stdout, "h264_nvenc", i)
    ensures cfg == VideoToolboxConfig <==>
      && query.QueryOutput?
      && !(exists i :: OccursAt(query.stdout, "h264_nvenc", i))
      && system == "Darwin"
      && exists i :: OccursAt(query.stdout, "h264_videotoolbox", i)
    ensures query.QueryFailed? ==> cfg == SoftwareConfig
  {
    assert NvencConfig["c:v"] != VideoToolboxConfig["c:v"];
    assert NvencConfig["c:v"] != SoftwareConfig["c:v"];
    assert VideoToolboxConfig["c:v"] != SoftwareConfig["c:v"];
    match query
    case QueryFailed => SoftwareConfig
    case QueryOutput(output) =>
      if Contains(output, "h264_nvenc") then NvencConfig
      else if system == "Darwin" && Contains(output, "h264_videotoolbox") then VideoToolboxConfig
      else SoftwareConfig
  }

  /** Every configuration names its video codec under "c:v", which the progress log reads. */
  lemma ConfigNamesCodec(cfg: map<string, Value>)
    requires IsHardwareConfig(cfg)
    ensures "c:v" in cfg && cfg["c:v"].Str?
  {
  }

  /** A listing that names both accelerated encoders, in either order, selects NVENC, even on Darwin. */
  lemma NvencTakesPriority(before: string, between: string, after: string)
    ensures DetectHardware(QueryOutput(before + "h264_nvenc" + between + "h264_videotoolbox" + after), "Darwin")
            == NvencConfig
    ensures DetectHardware(QueryOutput(before + "h264_videotoolbox" + between + "h264_nvenc" + after), "Darwin")
            == NvencConfig
  {
    var out := before + "h264_nvenc" + between + "h264_videotoolbox" + after;
    assert out[|before|..|before| + |"h264_nvenc"|] == "h264_nvenc";
    assert OccursAt(out, "h264_nvenc", |before|);
    var rev := before + "h264_videotoolbox" + between + "h264_nvenc" + after;
    var k := |before| + |"h264_videotoolbox"| + |between|;
    assert rev[k..k + |"h264_nvenc"|] == "h264_nvenc";
    assert OccursAt(rev, "h264_nvenc", k);
  }

  /** Off Darwin, a listing without NVENC selects the software encoder whatever else it names. */
  lemma SoftwareOffDarwin(output: string, system: string)
    requires system != "Darwin"
    requires !Contains(output, "h264_nvenc")
    ensures DetectHardware(QueryOutput(output), system) == SoftwareConfig
  {
  }
}
