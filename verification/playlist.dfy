/**
 * The master playlist text `process` accumulates: the header of
 * sections 4.3.1.1 and 4.3.1.2 of RFC 8216 (EXTM3U, EXT-X-VERSION:3), then
 * per variant an EXT-X-STREAM-INF tag (section 4.3.4.2 of RFC 8216) with
 * BANDWIDTH and RESOLUTION, followed by the URI of the variant's playlist.
 */
module Playlist {
  import opened PyStr
  import opened Ladder

  /** What the playlist says about one variant. */
  datatype StreamEntry = StreamEntry(bandwidth: int, width: int, height: int, name: string)

  /** The entry of a ladder variant: its bandwidth in bits per second and its frame size. */
  function EntryOf(t: Tier): (e: StreamEntry)
    requires WellFormed(t)
  {
    StreamEntry(Bandwidth(t), t.width, t.height, t.name)
  }

  /** The entries of a ladder, in ladder order. */
  function EntriesOf(ts: seq<Tier>): (es: seq<StreamEntry>)
    requires forall i :: 0 <= i < |ts| ==> WellFormed(ts[i])
    ensures |es| == |ts|
  {
    if ts == [] then [] else EntriesOf(ts[..|ts| - 1]) + [EntryOf(ts[|ts| - 1])]
  }

  const Header := "#EXTM3U\n#EXT-X-VERSION:3\n"

  function StreamInfLine(e: StreamEntry): string
  {
    "#EXT-X-STREAM-INF:BANDWIDTH=" + IntToString(e.bandwidth)
      + ",RESOLUTION=" + IntToString(e.width) + "x" + IntToString(e.height)
  }

  /** The variant playlist's URI, relative to the master playlist. */
  function UriLine(e: StreamEntry): string
  {
    e.name + "/index.m3u8"
  }

  /** What one loop iteration appends. */
  function EntryText(e: StreamEntry): string
  {
    StreamInfLine(e) + "\n" + UriLine(e) + "\n"
  }

  function Entries(es: seq<StreamEntry>): string
  {
    if es == [] then "" else EntryText(es[0]) + Entries(es[1..])
  }

  /** The whole master playlist for the entries `es`, in their order. */
  function MasterPlaylist(es: seq<StreamEntry>): string
  {
    Header + Entries(es)
  }

  /** Appending one entry's text to the text of a prefix gives the text of the longer prefix. */
  lemma {:induction false} EntriesSnoc(es: seq<StreamEntry>, e: StreamEntry)
    ensures Entries(es + [e]) == Entries(es) + EntryText(e)
    decreases |es|
  {
    if es == [] {
      assert [] + [e] == [e];
    } else {
      var longer := es + [e];
      assert longer[0] == es[0] && longer[1..] == es[1..] + [e];
      EntriesSnoc(es[1..], e);
      ConcatAssoc(EntryText(es[0]), Entries(es[1..]), EntryText(e));
    }
  }

  /** Concatenation is associative; stated on whole strings so the solver need not unfold them. */
  lemma ConcatAssoc(a: string, b: string, c: string)
    ensures a + (b + c) == (a + b) + c
  {
  }

  /** The entries of one more tier are the entries so far and that tier's entry. */
  lemma EntriesOfSnoc(ts: seq<Tier>, i: nat)
    requires forall k :: 0 <= k < |ts| ==> WellFormed(ts[k])
    requires i < |ts|
    ensures EntriesOf(ts[..i + 1]) == EntriesOf(ts[..i]) + [EntryOf(ts[i])]
  {
    assert ts[..i + 1][..i] == ts[..i];
  }

  /** The i-th entry of a ladder is the entry of its i-th tier. */
  lemma {:induction false} EntriesOfAt(ts: seq<Tier>)
    requires forall k :: 0 <= k < |ts| ==> WellFormed(ts[k])
    ensures forall i :: 0 <= i < |ts| ==> EntriesOf(ts)[i] == EntryOf(ts[i])
    decreases |ts|
  {
    if ts != [] {
      var init := ts[..|ts| - 1];
      EntriesOfAt(init);
      forall i | 0 <= i < |init|
        ensures EntriesOf(ts)[i] == EntryOf(ts[i])
      {
        assert init[i] == ts[i];
      }
    }
  }

  /** Appending one entry's text to a playlist gives the playlist with that entry added last. */
  lemma MasterPlaylistSnoc(es: seq<StreamEntry>, e: StreamEntry)
    ensures MasterPlaylist(es + [e]) == MasterPlaylist(es) + EntryText(e)
  {
    EntriesSnoc(es, e);
  }

  lemma SplitTwoLines(a: string, b: string, rest: string)
    requires '\n' !in a && '\n' !in b
    ensures Split(a + "\n" + b + "\n" + rest, '\n') == [a, b] + Split(rest, '\n')
  {
    assert a + "\n" + b + "\n" + rest == a + ['\n'] + (b + ['\n'] + rest);
    SplitCons(a, '\n', b + ['\n'] + rest);
    SplitCons(b, '\n', rest);
  }

  lemma UriHasNoNewline(e: StreamEntry)
    requires '\n' !in e.name
    ensures '\n' !in UriLine(e)
  {
    assert '\n' !in "/index.m3u8";
  }

  lemma StreamInfHasNoNewline(e: StreamEntry)
    ensures '\n' !in StreamInfLine(e)
  {
    NumberHasNoNewline(e.bandwidth);
    NumberHasNoNewline(e.width);
    NumberHasNoNewline(e.height);
    assert '\n' !in "#EXT-X-STREAM-INF:BANDWIDTH=" && '\n' !in ",RESOLUTION=" && '\n' !in "x";
  }

  lemma NumberHasNoNewline(i: int)
    ensures '\n' !in IntToString(i)
  {
    IntToStringChars(i);
  }

  /** The lines of the entries: per entry its STREAM-INF line, then its URI. */
  function EntryLines(es: seq<StreamEntry>): (lines: seq<string>)
    ensures |lines| == 2 * |es|
  {
    if es == [] then [] else [StreamInfLine(es[0]), UriLine(es[0])] + EntryLines(es[1..])
  }

  /** Two lines per entry, in the entries' order. */
  lemma {:induction false} EntryLinesAt(es: seq<StreamEntry>)
    ensures forall i :: 0 <= i < |es| ==>
      EntryLines(es)[2 * i] == StreamInfLine(es[i]) && EntryLines(es)[2 * i + 1] == UriLine(es[i])
    decreases |es|
  {
    if es != [] {
      EntryLinesAt(es[1..]);
      var lines, rest := EntryLines(es), EntryLines(es[1..]);
      forall i | 1 <= i < |es|
        ensures lines[2 * i] == StreamInfLine(es[i]) && lines[2 * i + 1] == UriLine(es[i])
      {
        EntryLinesShift(es, i);
        assert es[i] == es[1..][i - 1];
      }
    }
  }

  /** Past the first entry, the lines of `es` are the lines of its tail shifted by two. */
  lemma EntryLinesShift(es: seq<StreamEntry>, i: nat)
    requires 1 <= i < |es|
    ensures EntryLines(es)[2 * i] == EntryLines(es[1..])[2 * (i - 1)]
    ensures EntryLines(es)[2 * i + 1] == EntryLines(es[1..])[2 * (i - 1) + 1]
  {
    var a, b, rest := StreamInfLine(es[0]), UriLine(es[0]), EntryLines(es[1..]);
    assert EntryLines(es) == [a, b] + rest;
    PairConsAt(EntryLines(es), a, b, rest, 2 * (i - 1));
    PairConsAt(EntryLines(es), a, b, rest, 2 * (i - 1) + 1);
  }

  /** Past the first two elements, `[a, b] + rest` is `rest`. */
  lemma PairConsAt<T>(whole: seq<T>, a: T, b: T, rest: seq<T>, k: nat)
    requires whole == [a, b] + rest && k < |rest|
    ensures whole[2 + k] == rest[k]
  {
  }

  /** Read as lines, the entries' text is exactly `EntryLines`, each ending in a newline. */
  lemma {:induction false} SplitEntries(es: seq<StreamEntry>)
    requires forall i :: 0 <= i < |es| ==> '\n' !in es[i].name
    ensures Split(Entries(es), '\n') == EntryLines(es) + [""]
    decreases |es|
  {
    if es == [] {
      assert Split("", '\n') == [""];
    } else {
      var e := es[0];
      SplitEntries(es[1..]);
      StreamInfHasNoNewline(e);
      UriHasNoNewline(e);
      SplitTwoLines(StreamInfLine(e), UriLine(e), Entries(es[1..]));
    }
  }

  lemma SplitHeader(rest: string)
    ensures Split(Header + rest, '\n') == ["#EXTM3U", "#EXT-X-VERSION:3"] + Split(rest, '\n')
  {
    assert Header == "#EXTM3U" + "\n" + "#EXT-X-VERSION:3" + "\n";
    assert '\n' !in "#EXTM3U" && '\n' !in "#EXT-X-VERSION:3";
    SplitTwoLines("#EXTM3U", "#EXT-X-VERSION:3", rest);
  }

  /** Read as lines, the master playlist is the two header lines, the entries' lines and a final empty string. */
  lemma MasterPlaylistSplit(es: seq<StreamEntry>)
    requires forall i :: 0 <= i < |es| ==> '\n' !in es[i].name
    ensures Split(MasterPlaylist(es), '\n') == ["#EXTM3U", "#EXT-X-VERSION:3"] + EntryLines(es) + [""]
  {
    var lines := EntryLines(es);
    SplitEntries(es);
    SplitAfterHeader(Entries(es), lines + [""]);
    HeaderThenLines(es, lines);
  }

  /** A split after the header: its two lines, then the split of what follows. */
  lemma SplitAfterHeader(rest: string, tail: seq<string>)
    requires Split(rest, '\n') == tail
    ensures Split(Header + rest, '\n') == ["#EXTM3U", "#EXT-X-VERSION:3"] + tail
  {
    SplitHeader(rest);
  }

  /** Regroups the split of the playlist as header lines, entry lines and the final "". */
  lemma HeaderThenLines(es: seq<StreamEntry>, lines: seq<string>)
    requires Split(Header + Entries(es), '\n') == ["#EXTM3U", "#EXT-X-VERSION:3"] + (lines + [""])
    ensures Split(MasterPlaylist(es), '\n') == ["#EXTM3U", "#EXT-X-VERSION:3"] + lines + [""]
  {
    assert ["#EXTM3U", "#EXT-X-VERSION:3"] + (lines + [""]) == ["#EXTM3U", "#EXT-X-VERSION:3"] + lines + [""];
  }

  /** Where the elements of `[x, y] + mid + [z]` sit. */
  lemma FramedAt<T>(x: T, y: T, mid: seq<T>, z: T)
    ensures var s := [x, y] + mid + [z];
      && |s| == |mid| + 3 && s[0] == x && s[1] == y && s[|s| - 1] == z
      && forall k :: 0 <= k < |mid| ==> s[2 + k] == mid[k]
  {
  }

  /**
   * The master playlist is 2 + 2·|es| newline-terminated lines: the two header
   * lines, then for the i-th entry its STREAM-INF line at 2 + 2·i and its
   * URI at 3 + 2·i.
   */
  lemma MasterPlaylistLines(es: seq<StreamEntry>)
    requires forall i :: 0 <= i < |es| ==> '\n' !in es[i].name
    ensures var lines := Split(MasterPlaylist(es), '\n');
      && |lines| == 2 + 2 * |es| + 1
      && lines[0] == "#EXTM3U" && lines[1] == "#EXT-X-VERSION:3"
      && lines[2 + 2 * |es|] == ""
      && forall i :: 0 <= i < |es| ==>
           lines[2 + 2 * i] == StreamInfLine(es[i]) && lines[3 + 2 * i] == UriLine(es[i])
  {
    var body := EntryLines(es);
    MasterPlaylistSplit(es);
    FramedAt("#EXTM3U", "#EXT-X-VERSION:3", body, "");
    EntryLinesAt(es);
  }
}
