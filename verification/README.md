# ABR video processor: a Dafny model

`abr_processor.py` packages one video file for adaptive-bitrate HLS streaming.

Its class `ABRVideoProcessor` does four things:

- It picks an encoder configuration once, when constructed. NVENC is used if the ffmpeg encoder listing names it. VideoToolbox is used when the system is Darwin and the listing names h264_videotoolbox but not h264_nvenc. In every other case, Darwin included, it falls back to libx264 at the veryfast preset.
- It computes a keyframe interval (GOP) of two seconds' worth of frames from the first video stream's average frame rate.
- For each entry of the fixed ladder `ABR_LADDER` (1080p, 720p, 480p), it makes a variant directory and runs one HLS transcode job.
- It writes a master playlist naming every variant, then prints a JSON record with the video id and the stream and poster URLs.

The model states each of these steps in Dafny and proves what they guarantee.

Modules:

- `Wrappers`: the `Option` type.
- `PyStr`: the Python string builtins the script relies on, with their round trips:
  - `str(int)` and `int(str)`;
  - substring `in`;
  - `split` on one character, and its inverse `join`;
  - `replace(c, '')`.
- `Paths`: `os.path.basename`, `os.path.splitext(...)[0]` and `os.path.join` for POSIX paths, and the video id.
- `Hardware`: `_detect_hardware`, a function of the encoder listing (or of the failure to get it) and of the OS name.
- `Gop`: `_get_gop_size`, a function of the probed streams. The probe is `None` when `ffmpeg.probe` raised.
- `Ladder`: `ABR_LADDER`, the bitrate arithmetic (`BANDWIDTH`, `bufsize`) and the keyword options of one variant job.
- `Playlist`: the master playlist text and its line structure.
- `Processor`: the class `ABRVideoProcessor`.
  - The hardware configuration is a constant field set by the constructor.
  - `process` is a method whose loop over the ladder accumulates the playlist string.

`process` returns its effects as a trace. Each effect is one of four kinds:

- making a directory;
- extracting the poster;
- one transcode job;
- writing a file.

Their order is stated by `LayoutAt`: the base directory, the poster, then per variant its directory and its transcode job, and last the master playlist write.

It also returns the printed JSON record: `None` on the early return for a missing input. `RunEffects` is the specification function the method is proved against.

## Model

| member | source | states |
|---|---|---|
| Hardware.DetectHardware | abr_processor.py:25-38 | the result is one of the three fixed configurations; NVENC exactly when the listing contains "h264_nvenc"; VideoToolbox exactly when NVENC is absent, the system is "Darwin" and the listing contains "h264_videotoolbox"; a failed query gives libx264/veryfast |
| Hardware.NvencTakesPriority | abr_processor.py:33-36 | a listing naming both accelerated encoders, in either order, selects NVENC even on Darwin |
| Hardware.SoftwareOffDarwin | abr_processor.py:35-38 | off Darwin, a listing without NVENC selects the software configuration whatever else it names |
| Hardware.ConfigNamesCodec | abr_processor.py:65 | every configuration has a string "c:v" entry, so the progress log's lookup never fails |
| Gop.FirstVideo | abr_processor.py:44 | a found stream is one of the streams and is video; when every stream has a non-video codec_type nothing is found |
| Gop.FirstVideoOf | abr_processor.py:44 | only the first video stream counts: after non-video streams, the outcome depends on the next stream alone and never on what follows a video stream |
| Gop.VideoAfterOther | abr_processor.py:44 | a stream with a non-video codec_type followed by a video stream selects that video stream |
| Gop.RateRoundTrip | abr_processor.py:46 | a rate printed as "num/den" is split and parsed back to (num, den) |
| Gop.RoundHalfEven | abr_processor.py:48 | the result is p/q rounded to nearest, ties to even (Python's `round`) |
| Gop.RoundsToUnique | abr_processor.py:48 | at most one integer rounds p/q that way, so the rounding is determined |
| Gop.GopOfRate | abr_processor.py:45-50 | a malformed rate gives 60; den <= 0 gives 60 (30 fps); otherwise the result rounds 2·num/den |
| Gop.GopSize | abr_processor.py:40-50 | a failed probe or no video stream gives 60; otherwise the GOP of the first video stream's rate, "30/1" when the field is absent |
| Gop.GopOfFraction | abr_processor.py:46-48 | for any "num/den" with den > 0, the GOP is RoundHalfEven(2·num, den) |
| Gop.GopOfNonPositiveDen | abr_processor.py:47 | a non-positive denominator gives 60 frames |
| Gop.MalformedRate | abr_processor.py:46-50 | a rate without '/' or with more than one '/' falls back to 60 |
| Gop.NtscGop | abr_processor.py:43-48 | an audio stream then a video stream at "60000/1001" gives 120 |
| Gop.DefaultRateGop | abr_processor.py:45 | a video stream without avg_frame_rate gives 60 |
| Gop.TieRoundsToEven | abr_processor.py:48 | "5/4" (2.5 frames) rounds to 2 |
| PyStr.ParseInt | abr_processor.py:46 | `int()` succeeds exactly on an optional '-' followed by at least one digit; unsigned literals give non-negative values |
| PyStr.ParseIntOfIntToString | abr_processor.py:101 | `int(str(i)) == i` for every int |
| PyStr.Contains | abr_processor.py:33 | `sub in s` holds exactly when sub occurs at some index of s |
| PyStr.Split | abr_processor.py:46 | `split` always returns at least one part |
| PyStr.SplitPartsLackSeparator | abr_processor.py:46 | no part of a split contains the separator |
| PyStr.JoinSplit | abr_processor.py:46 | joining the parts of a split with the separator gives the string back |
| PyStr.SplitJoinWith | abr_processor.py:46 | splitting a join of separator-free parts gives the parts back |
| PyStr.RemoveAll | abr_processor.py:101 | `replace(c, '')` leaves no c and keeps exactly the other characters |
| PyStr.RemoveAllAppend | abr_processor.py:114 | removal distributes over concatenation |
| Paths.Basename | abr_processor.py:58 | the basename is a '/'-free suffix of the path, preceded by '/' when shorter than the path |
| Paths.BasenameOfSuffix | abr_processor.py:58 | a '/'-free name after a directory part ending in '/' is its own basename |
| Paths.StripExtensionSpec | abr_processor.py:58 | the stem is a prefix; an extension removed is the last '.' onwards and leaves a stem with a non-dot; nothing is removed only when there is no '.' or only dots precede the last one |
| Paths.StripExtensionOf | abr_processor.py:58 | "stem.ext" with a '.'-free ext and a stem with a non-dot has stem "stem" |
| Paths.JoinParts | abr_processor.py:59 | an absolute second part replaces the first; otherwise the join starts with the first part, ends with the second, and has a '/' inserted exactly when the first does not end in one |
| Paths.JoinBasename | abr_processor.py:79 | joining a '/'-free name gives a path whose basename is that name |
| Paths.VideoId | abr_processor.py:58 | the video id is a single path component no longer than the input path |
| Paths.VideoIdOfFile | abr_processor.py:58 | `dir/stem.ext` has video id `stem` |
| Ladder.KbpsOfPrinted | abr_processor.py:101 | a figure printed and suffixed with 'k' reads back as that figure |
| Ladder.BitrateFigures | abr_processor.py:99-101 | a bitrate "<n>k" parses; its bandwidth is n·1000 and its bufsize is "<2n>k", which reads back as 2n |
| Ladder.Figures1080p | abr_processor.py:13 | 1080p: BANDWIDTH 4500000, bufsize "9000k" |
| Ladder.Figures720p | abr_processor.py:14 | 720p: BANDWIDTH 2500000, bufsize "5000k" |
| Ladder.Figures480p | abr_processor.py:15 | 480p: BANDWIDTH 1000000, bufsize "2000k" |
| Ladder.LadderWellFormed | abr_processor.py:12-16 | every ladder bitrate parses, so neither `int()` call in the loop raises |
| Ladder.LadderNames | abr_processor.py:12-16 | every variant name is one path component without a newline |
| Ladder.HardwareKeysDisjoint | abr_processor.py:90-107 | no encoder configuration repeats a keyword of the variant options, so `**self.hardware_config` never raises TypeError and arrives unchanged |
| Ladder.TranscodeJobOptions | abr_processor.py:89-108 | the job reads the input and writes `<dir>/index.m3u8`; it sets format hls, hls_time 2 and hls_list_size 0, the segment pattern `<dir>/seg_%03d.ts` and vf `scale=<width>:-2`; b:v = maxrate = the bitrate and bufsize is the text `str(2·kbps) + "k"`, twice its kbps; g = keyint_min = gop and sc_threshold 0; audio is aac at 128k; the encoder keys are copied unchanged |
| Playlist.EntriesOfAt | abr_processor.py:77 | the i-th playlist entry of a ladder is the entry of its i-th tier: the variants appear in ladder order |
| Playlist.MasterPlaylistSnoc | abr_processor.py:115-118 | appending one entry's two lines to the playlist text is the playlist of one more entry |
| Playlist.UriHasNoNewline | abr_processor.py:117 | a URI line of a newline-free name holds no newline |
| Playlist.StreamInfHasNoNewline | abr_processor.py:116 | a STREAM-INF line holds no newline |
| Playlist.EntryLinesAt | abr_processor.py:115-118 | line 2i of the entries is the i-th STREAM-INF line and line 2i+1 its URI |
| Playlist.SplitEntries | abr_processor.py:115-118 | the entries' text, split on newlines, is exactly their lines followed by an empty remainder |
| Playlist.MasterPlaylistSplit | abr_processor.py:63 | the master playlist split into lines is the two header lines, then the entry lines, then "" |
| Playlist.MasterPlaylistLines | abr_processor.py:63-118 | the playlist has 2 + 2·n newline-terminated lines: "#EXTM3U", "#EXT-X-VERSION:3", then per variant in order its STREAM-INF line (BANDWIDTH, RESOLUTION) and its `<name>/index.m3u8` |
| Processor.LadderPlaylistLines | abr_processor.py:63-118 | split on newlines, a ladder's master playlist has 3 + 2·n parts; part 2+2i is the STREAM-INF line of tier i (its bandwidth, width and height) and part 3+2i is `<name of tier i>/index.m3u8` |
| Processor.LadderPlaylistHeader | abr_processor.py:63-118 | for any valid ladder with newline-free names, the playlist read as lines begins with "#EXTM3U" and "#EXT-X-VERSION:3" and ends in "", so the text ends with a newline |
| Processor.AbrLadderPlaylistLines | abr_processor.py:63-118 | for ABR_LADDER the playlist has 9 parts: "#EXTM3U" and "#EXT-X-VERSION:3", then one STREAM-INF line and one URI per entry in authored order, then the "" after the final newline |
| Processor.UrlSegments | abr_processor.py:130-131 | both URLs split into the segments "", "videos", the id, then the file name: the id is one whole path segment |
| Processor.InterleaveAt | abr_processor.py:77-109 | the i-th variant contributes its directory creation at 2i and its transcode job at 2i+1 |
| Processor.LayoutAt | abr_processor.py:57-122 | the output directory is made first and the poster extracted second; variant i's directory is made at 2+2i before its transcode at 3+2i; the last effect writes master.m3u8 with the playlist |
| Processor.ABRVideoProcessor.constructor | abr_processor.py:22-23 | the hardware configuration is the one `_detect_hardware` picks |
| Processor.ABRVideoProcessor.Process | abr_processor.py:52-132 | a missing input returns at once with no effects and no record. Otherwise the record is status "success", the video id and the URLs derived from it, and the effects equal `RunEffects` over ABR_LADDER |
| Processor.ABRVideoProcessor.ProcessLadder | abr_processor.py:53-132 | the body of `process` for any ladder whose bitrates parse: a missing input gives no effects and no record; otherwise the success record and effects equal to `RunEffects` over that ladder, the loop keeping the effects and playlist text of the variants processed so far, in ladder order |

## Left out

- ffmpeg itself is not modelled. The encoder listing, the probe result and `os.path.exists` are parameters. Each transcode and the poster extraction is an effect in the returned trace.
- An `ffmpeg.Error` from a transcode or from the poster extraction is not modelled. In the source it escapes `process` uncaught.
- Logging and the `print` of the JSON record are not modelled. The printed record is returned as a value instead.
- The command-line entry point (`__main__`) is not modelled.
- The poster job's fixed options (`select` filter, `vframes=1`, `q=2`, `loglevel`) are not modelled. The trace records the input and the poster path only.
- The operating system name is a parameter standing for `platform.system()`.
- `os.makedirs` and `open(...).write` are effects in the trace. The file system they act on is not modelled.
- Gop.GopOfRate: frame rates are exact rationals, not floating point. `round(num / den * 2)` is modelled as rounding 2·num/den exactly, half to even. Python divides in double precision, so the two disagree in these cases:
  - Near a tie, where the rounded quotient can fall on the other side.
  - Above 2^53, where precision is lost. For "9007199254740993/1", Python's quotient is 2^53 and it returns 18014398509481984; the model returns 18014398509481986.
  - Quotients too large for a double. For "10^309/1", `num / den` raises OverflowError, which the handler catches, so Python returns 60; the model returns 2·10^309.
  - Doubled rates too large for a double. For "10^308/1", the quotient 1e308 fits in a double but `fps * 2` is infinite, so `round` raises OverflowError and the handler returns 60; the model returns 2·10^308.
- PyStr.ParseInt: `int()` accepts an optional '-' followed by decimal digits. Surrounding whitespace, '+', underscores and non-ASCII digits are not accepted. Python 3.11 and later, and the 3.7.14, 3.8.14, 3.9.14 and 3.10.7 security releases, reject literals of more than 4300 digits with ValueError, which makes the GOP fall back to 60, while the model parses them. Earlier releases have no length limit.
- Paths: only POSIX paths are modelled. Windows separators and drive letters are not.
- Ladder.Bandwidth and Ladder.BufSize require a bitrate that parses. On any other bitrate the source raises an uncaught ValueError. Every entry of ABR_LADDER is proved to parse (`Ladder.LadderWellFormed`).
- Ladder.TranscodeJobFor requires encoder keys disjoint from the variant's keywords. Python would raise TypeError on a repeated keyword. Every configuration `_detect_hardware` returns is proved disjoint (`Ladder.HardwareKeysDisjoint`).
- Processor.ABRVideoProcessor.ProcessLadder takes the ladder as a parameter. `Process` calls it on ABR_LADDER, which is the loop the source runs.

### What the code does not do

- It does not filter the ladder by the input's width, and it has no synthetic "original" tier for narrow inputs.
- It does not sort the variants: they are encoded in authored order (1080p, 720p, 480p).
- It never wipes the output directory. It makes it with `exist_ok=True`.
- It does not fail the run when probing fails: the GOP falls back to 60.
- It does not list the variants in its JSON record.
