/**
 * `ABRVideoProcessor`: the encoder configuration chosen once at
 * construction, and `process`, which lays out one video's HLS output and
 * accumulates its master playlist, one ladder variant at a time.
 */
module Processor {
  import opened Wrappers
  import opened PyStr
  import opened Paths
  import opened Hardware
  import opened Gop
  import opened Ladder
  import opened Playlist

  /** What `process` asks of the file system and of ffmpeg, in order. */
  datatype Effect =
    | MakeDirs(path: string)                        // os.makedirs(path, exist_ok=True)
    | ExtractPoster(input: string, poster: string)  // first frame as a still, q=2
    | Transcode(job: TranscodeJob)                  // ffmpeg.output(...).run()
    | WriteFile(path: string, content: string)      // open(path, 'w').write(content)

  /** The JSON object printed on success. */
  datatype RunResult = RunResult(status: string, videoId: string, streamUrl: string, posterUrl: string)

  function StreamUrl(id: string): string
  {
    "/videos/" + id + "/master.m3u8"
  }

  function PosterUrl(id: string): string
  {
    "/videos/" + id + "/poster.jpg"
  }

  /** Both URLs are the path /videos/<id>/<file>, with the id as one whole segment. */
  lemma UrlSegments(id: string)
    requires '/' !in id
    ensures Split(StreamUrl(id), '/') == ["", "videos", id, "master.m3u8"]
    ensures Split(PosterUrl(id), '/') == ["", "videos", id, "poster.jpg"]
  {
    UrlOfFile(id, "master.m3u8", StreamUrl(id));
    UrlOfFile(id, "poster.jpg", PosterUrl(id));
  }

  lemma UrlOfFile(id: string, file: string, url: string)
    requires '/' !in id && '/' !in file && url == "/videos/" + id + "/" + file
    ensures Split(url, '/') == ["", "videos", id, file]
  {
    UrlSegmentsOf(id, file);
  }

  lemma UrlSegmentsOf(id: string, file: string)
    requires '/' !in id && '/' !in file
    ensures Split("/videos/" + id + "/" + file, '/') == ["", "videos", id, file]
  {
    var mid := "videos" + ['/'] + (id + ['/'] + file);
    VideosSegments(id, file);
    RootedSegments(mid, ["videos", id, file]);
    UrlText(id, file);
    SameSplit([] + ['/'] + mid, "/videos/" + id + "/" + file, [""] + ["videos", id, file]);
  }

  /** Equal texts split alike. */
  lemma SameSplit(s: string, t: string, parts: seq<string>)
    requires s == t && Split(s, '/') == parts
    ensures Split(t, '/') == parts
  {
  }

  /** The joined URL text, regrouped as the source writes it. */
  lemma UrlText(id: string, file: string)
    ensures [] + ['/'] + ("videos" + ['/'] + (id + ['/'] + file)) == "/videos/" + id + "/" + file
  {
  }

  /** Two slash-free names joined by a slash split back into the two. */
  lemma TwoSegments(id: string, file: string)
    requires '/' !in id && '/' !in file
    ensures Split(id + ['/'] + file, '/') == [id, file]
  {
    assert Split(file, '/') == [file];
    SplitCons(id, '/', file);
  }

  /** "videos", id and file joined by slashes split back into the three. */
  lemma VideosSegments(id: string, file: string)
    requires '/' !in id && '/' !in file
    ensures Split("videos" + ['/'] + (id + ['/'] + file), '/') == ["videos", id, file]
  {
    TwoSegments(id, file);
    assert '/' !in "videos";
    SplitCons("videos", '/', id + ['/'] + file);
  }

  /** A leading slash adds an empty first segment. */
  lemma RootedSegments(rest: string, segments: seq<string>)
    requires Split(rest, '/') == segments
    ensures Split([] + ['/'] + rest, '/') == [""] + segments
  {
    SplitCons([], '/', rest);
  }

  /** What `process` may rely on of a ladder: every bitrate parses. */
  predicate LadderOk(ts: seq<Tier>)
  {
    forall k :: 0 <= k < |ts| ==> WellFormed(ts[k])
  }

  /**
   * The calls of the first `n` rounds of the variant loop: each round makes
   * its directory, then runs its transcode.
   */
  function Interleave(dirs: seq<string>, jobs: seq<TranscodeJob>, n: nat): (es: seq<Effect>)
    requires n <= |dirs| && n <= |jobs|
    ensures |es| == 2 * n
  {
    if n == 0 then []
    else Interleave(dirs, jobs, n - 1) + [MakeDirs(dirs[n - 1]), Transcode(jobs[n - 1])]
  }

  /** Round i's directory is made at 2·i and its transcode runs right after, at 2·i + 1. */
  lemma {:induction false} InterleaveAt(dirs: seq<string>, jobs: seq<TranscodeJob>, n: nat)
    requires n <= |dirs| && n <= |jobs|
    ensures forall i :: 0 <= i < n ==>
      Interleave(dirs, jobs, n)[2 * i] == MakeDirs(dirs[i]) && Interleave(dirs, jobs, n)[2 * i + 1] == Transcode(jobs[i])
    decreases n
  {
    if n > 0 {
      InterleaveAt(dirs, jobs, n - 1);
    }
  }

  /** The directory of every variant of `ts`, in ladder order. */
  function VariantDirs(baseDir: string, ts: seq<Tier>): (dirs: seq<string>)
    ensures |dirs| == |ts|
  {
    seq(|ts|, i requires 0 <= i < |ts| => VariantDir(baseDir, ts[i]))
  }

  /** The transcode job of every variant of `ts`, in ladder order. */
  function VariantJobs(inputPath: string, baseDir: string, ts: seq<Tier>, gop: int, hw: map<string, Value>): (jobs: seq<TranscodeJob>)
    requires LadderOk(ts) && hw.Keys !! JobKeys
    ensures |jobs| == |ts|
  {
    seq(|ts|, i requires 0 <= i < |ts| => TranscodeJobFor(inputPath, baseDir, ts[i], gop, hw))
  }

  /** One more round of the variant loop appends that variant's directory and transcode. */
  lemma RoundStep(inputPath: string, baseDir: string, ts: seq<Tier>, gop: int, hw: map<string, Value>, i: nat)
    requires LadderOk(ts) && hw.Keys !! JobKeys && i < |ts|
    ensures var dirs := VariantDirs(baseDir, ts);
      var jobs := VariantJobs(inputPath, baseDir, ts, gop, hw);
      Interleave(dirs, jobs, i + 1)
        == Interleave(dirs, jobs, i) + [MakeDirs(Join(baseDir, ts[i].name)), Transcode(TranscodeJobFor(inputPath, baseDir, ts[i], gop, hw))]
  {
  }

  /** The master playlist of a ladder, as `process` writes it. */
  function LadderPlaylist(ts: seq<Tier>): string
    requires LadderOk(ts)
  {
    MasterPlaylist(EntriesOf(ts))
  }

  /**
   * Read as lines, a ladder's master playlist has two lines per tier after
   * the header (whose lines `MasterPlaylistLines` states for any entries):
   * for the i-th tier its STREAM-INF line (bandwidth and frame size) at
   * 2 + 2·i and the URI `<name>/index.m3u8` at 3 + 2·i.
   */
  lemma LadderPlaylistLines(ts: seq<Tier>)
    requires LadderOk(ts)
    requires forall k :: 0 <= k < |ts| ==> '\n' !in ts[k].name
    ensures var lines := Split(LadderPlaylist(ts), '\n');
      |lines| == 3 + 2 * |ts| && forall i :: 0 <= i < |ts| ==> TierLinesAt(lines, ts, i)
  {
    var es := EntriesOf(ts);
    EntriesOfAt(ts);
    EntryNames(es, ts);
    MasterPlaylistLines(es);
    LinesOfTiers(Split(MasterPlaylist(es), '\n'), es, ts);
  }

  /**
   * Read as lines, a ladder's master playlist opens with the two header
   * lines and ends in "", so its text ends with a newline.
   */
  lemma LadderPlaylistHeader(ts: seq<Tier>)
    requires LadderOk(ts)
    requires forall k :: 0 <= k < |ts| ==> '\n' !in ts[k].name
    ensures var lines := Split(LadderPlaylist(ts), '\n');
      && |lines| == 3 + 2 * |ts|
      && lines[0] == "#EXTM3U" && lines[1] == "#EXT-X-VERSION:3" && lines[|lines| - 1] == ""
  {
    var es := EntriesOf(ts);
    EntriesOfAt(ts);
    EntryNames(es, ts);
    MasterPlaylistSplit(es);
    FramedAt("#EXTM3U", "#EXT-X-VERSION:3", EntryLines(es), "");
  }

  /** Lines 2 + 2·i and 3 + 2·i of a master playlist are the STREAM-INF line and the URI of tier i. */
  predicate TierLinesAt(lines: seq<string>, ts: seq<Tier>, i: nat)
    requires LadderOk(ts) && i < |ts| && 3 + 2 * i < |lines|
  {
    lines[2 + 2 * i] == StreamInfLine(EntryOf(ts[i])) && lines[3 + 2 * i] == ts[i].name + "/index.m3u8"
  }

  /** The entries of the tiers have the tiers' names. */
  lemma EntryNames(es: seq<StreamEntry>, ts: seq<Tier>)
    requires LadderOk(ts) && |es| == |ts|
    requires forall i :: 0 <= i < |ts| ==> es[i] == EntryOf(ts[i])
    requires forall k :: 0 <= k < |ts| ==> '\n' !in ts[k].name
    ensures forall k :: 0 <= k < |es| ==> '\n' !in es[k].name
  {
    forall k | 0 <= k < |es|
      ensures '\n' !in es[k].name
    {
      assert es[k].name == ts[k].name;
    }
  }

  /** Lines laid out per entry are laid out per tier, when entry i is the entry of tier i. */
  lemma LinesOfTiers(lines: seq<string>, es: seq<StreamEntry>, ts: seq<Tier>)
    requires LadderOk(ts) && |es| == |ts|
    requires forall i :: 0 <= i < |ts| ==> es[i] == EntryOf(ts[i])
    requires |lines| == 2 + 2 * |es| + 1
    requires forall i :: 0 <= i < |es| ==> lines[2 + 2 * i] == StreamInfLine(es[i]) && lines[3 + 2 * i] == UriLine(es[i])
    ensures |lines| == 3 + 2 * |ts|
    ensures forall i :: 0 <= i < |ts| ==> TierLinesAt(lines, ts, i)
  {
    forall i | 0 <= i < |ts|
      ensures TierLinesAt(lines, ts, i)
    {
      assert es[i] == EntryOf(ts[i]);
    }
  }

  /** The master playlist `process` writes has 9 lines: the header, then two lines per `ABR_LADDER` entry in authored order. */
  lemma AbrLadderPlaylistLines()
    ensures LadderOk(AbrLadder)
    ensures var lines := Split(LadderPlaylist(AbrLadder), '\n');
      && |lines| == 9
      && lines[0] == "#EXTM3U" && lines[1] == "#EXT-X-VERSION:3" && lines[8] == ""
      && forall i :: 0 <= i < |AbrLadder| ==> TierLinesAt(lines, AbrLadder, i)
  {
    LadderWellFormed();
    LadderNames();
    LadderPlaylistHeader(AbrLadder);
    LadderPlaylistLines(AbrLadder);
  }

  /**
   * The calls of a run on an existing input, in order: the output
   * directory, the poster, the rounds of the variant loop, and last the
   * master playlist.
   */
  function Layout(inputPath: string, baseDir: string, dirs: seq<string>, jobs: seq<TranscodeJob>, playlist: string): (es: seq<Effect>)
    requires |dirs| == |jobs|
    ensures |es| == 3 + 2 * |dirs|
  {
    [MakeDirs(baseDir), ExtractPoster(inputPath, Join(baseDir, "poster.jpg"))]
      + Interleave(dirs, jobs, |dirs|)
      + [WriteFile(Join(baseDir, "master.m3u8"), playlist)]
  }

  /**
   * The output directory comes first, the poster second, then for the i-th
   * variant its directory at 2 + 2·i and its transcode at 3 + 2·i, and the
   * master playlist last.
   */
  lemma LayoutAt(inputPath: string, baseDir: string, dirs: seq<string>, jobs: seq<TranscodeJob>, playlist: string)
    requires |dirs| == |jobs|
    ensures var es := Layout(inputPath, baseDir, dirs, jobs, playlist);
      && es[0] == MakeDirs(baseDir)
      && es[1] == ExtractPoster(inputPath, Join(baseDir, "poster.jpg"))
      && (forall i :: 0 <= i < |dirs| ==> es[2 + 2 * i] == MakeDirs(dirs[i]) && es[3 + 2 * i] == Transcode(jobs[i]))
      && es[|es| - 1] == WriteFile(Join(baseDir, "master.m3u8"), playlist)
  {
    var rounds := Interleave(dirs, jobs, |dirs|);
    var es := Layout(inputPath, baseDir, dirs, jobs, playlist);
    FramedAt(MakeDirs(baseDir), ExtractPoster(inputPath, Join(baseDir, "poster.jpg")), rounds, WriteFile(Join(baseDir, "master.m3u8"), playlist));
    InterleaveAt(dirs, jobs, |dirs|);
    forall i | 0 <= i < |dirs|
      ensures es[2 + 2 * i] == MakeDirs(dirs[i]) && es[3 + 2 * i] == Transcode(jobs[i])
    {
      assert es[2 + 2 * i] == rounds[2 * i] && es[2 + (2 * i + 1)] == rounds[2 * i + 1];
    }
  }

  /** Everything a run of `process` on an existing input asks for, in order. */
  function RunEffects(inputPath: string, outputRoot: string, ts: seq<Tier>, probe: Option<seq<Stream>>, hw: map<string, Value>): seq<Effect>
    requires LadderOk(ts) && hw.Keys !! JobKeys
  {
    var baseDir := Join(outputRoot, VideoId(inputPath));
    Layout(inputPath, baseDir, VariantDirs(baseDir, ts), VariantJobs(inputPath, baseDir, ts, GopSize(probe), hw), LadderPlaylist(ts))
  }

  class ABRVideoProcessor {
    const hardwareConfig: map<string, Value>

    ghost predicate Valid()
    {
      IsHardwareConfig(hardwareConfig)
    }

    /** `__init__`: the encoder query's outcome and `platform.system()` are given. */
    constructor (query: EncoderQuery, system: string)
      ensures hardwareConfig == DetectHardware(query, system)
      ensures Valid()
    {
      hardwareConfig := DetectHardware(query, system);
    }

    /**
     * `process(input_path, output_root)`. Whether the input exists and what
     * probing it gave are parameters; the returned effects are the calls
     * `process` makes, in order, and the result is the printed JSON object.
     */
    method Process(inputExists: bool, inputPath: string, outputRoot: string, probe: Option<seq<Stream>>)
      returns (effects: seq<Effect>, result: Option<RunResult>)
      requires Valid()
      ensures !inputExists ==> effects == [] && result == None
      ensures inputExists ==>
        var id := VideoId(inputPath);
        && result == Some(RunResult("success", id, StreamUrl(id), PosterUrl(id)))
        && LadderOk(AbrLadder) && hardwareConfig.Keys !! JobKeys
        && effects == RunEffects(inputPath, outputRoot, AbrLadder, probe, hardwareConfig)
    {
      LadderWellFormed();
      effects, result := ProcessLadder(inputExists, inputPath, outputRoot, probe, AbrLadder);
    }

    /**
     * The body of `process`, for any ladder whose bitrates parse: `Process`
     * runs it on `ABR_LADDER`.
     */
    method ProcessLadder(inputExists: bool, inputPath: string, outputRoot: string, probe: Option<seq<Stream>>, ts: seq<Tier>)
      returns (effects: seq<Effect>, result: Option<RunResult>)
      requires Valid() && LadderOk(ts)
      ensures !inputExists ==> effects == [] && result == None
      ensures inputExists ==>
        var id := VideoId(inputPath);
        && result == Some(RunResult("success", id, StreamUrl(id), PosterUrl(id)))
        && hardwareConfig.Keys !! JobKeys
        && effects == RunEffects(inputPath, outputRoot, ts, probe, hardwareConfig)
    {
      if !inputExists {
        return [], None;
      }

      var vidId := VideoId(inputPath);
      var baseDir := Join(outputRoot, vidId);
      var posterPath := Join(baseDir, "poster.jpg");
      // the output directory is made, then the poster extracted
      var setup := [MakeDirs(baseDir), ExtractPoster(inputPath, posterPath)];

      var gopSize := GopSize(probe);
      var playlist := Header;

      HardwareKeysDisjoint(hardwareConfig);
      ghost var dirs := VariantDirs(baseDir, ts);
      ghost var jobs := VariantJobs(inputPath, baseDir, ts, gopSize, hardwareConfig);
      var variantEffects := [];
      ghost var entries := [];
      for i := 0 to |ts|
        invariant variantEffects == Interleave(dirs, jobs, i)
        invariant entries == EntriesOf(ts[..i])
        invariant playlist == MasterPlaylist(entries)
      {
        var variant := ts[i];
        var variantDir := Join(baseDir, variant.name);
        var job := TranscodeJobFor(inputPath, baseDir, variant, gopSize, hardwareConfig);
        RoundStep(inputPath, baseDir, ts, gopSize, hardwareConfig, i);
        variantEffects := variantEffects + [MakeDirs(variantDir), Transcode(job)];

        var bandwidth := Bandwidth(variant);
        var entry := StreamEntry(bandwidth, variant.width, variant.height, variant.name);
        EntriesOfSnoc(ts, i);
        MasterPlaylistSnoc(entries, entry);
        entries := entries + [entry];
        playlist := playlist + EntryText(entry);
      }

      assert ts[..|ts|] == ts;
      assert playlist == LadderPlaylist(ts);
      assert variantEffects == Interleave(dirs, jobs, |dirs|);
      effects := setup + variantEffects + [WriteFile(Join(baseDir, "master.m3u8"), playlist)];
      assert effects == Layout(inputPath, baseDir, dirs, jobs, playlist);
      result := Some(RunResult("success", vidId, StreamUrl(vidId), PosterUrl(vidId)));
    }
  }
}
