/**
 Reading one transcript file (src-tauri/src/acp_transcript.rs): the whole-file parser and the
 two streaming readers that stop early. A line is what the two parsers make of it.
 */
module TranscriptReader {
  import opened Options
  import opened Conversation

  /** `header`: parses as a header of this schema version. `entry`: parses as an entry. Junk is neither. */
  datatype Line = Line(header: Option<Header>, entry: Option<Entry>)

  datatype Transcript = Transcript(header: Option<Header>, entries: seq<Entry>)

  /** The first line that parses as a header, or the number of lines. */
  function HeaderAt(lines: seq<Line>): (k: nat)
    ensures k <= |lines| && (k < |lines| ==> lines[k].header.Some?)
    ensures forall i | 0 <= i < k :: lines[i].header.None?
  {
    if lines == [] || lines[0].header.Some? then 0 else 1 + HeaderAt(lines[1..])
  }

  /** The entries of all lines but line `skip`, in order. */
  function EntriesBut(lines: seq<Line>, skip: int): seq<Entry> {
    if lines == [] then []
    else
      var n := |lines| - 1;
      EntriesBut(lines[..n], skip) + if n != skip && lines[n].entry.Some? then [lines[n].entry.value] else []
  }

  /** What a transcript says: its first header, and every entry on any other line. */
  function Parsed(lines: seq<Line>): Transcript {
    var k := HeaderAt(lines);
    Transcript(if k < |lines| then lines[k].header else None, EntriesBut(lines, k))
  }

  /** `parse_transcript`. */
  method ParseTranscript(lines: seq<Line>) returns (out: Transcript)
    ensures out == Parsed(lines)
  {
    out := Transcript(None, []);
    var k := HeaderAt(lines);
    for i := 0 to |lines|
      invariant out == Transcript(if k < i then lines[k].header else None, EntriesBut(lines[..i], k))
    {
      assert lines[..i + 1][..i] == lines[..i];
      if out.header.None? && lines[i].header.Some? {
        out := out.(header := lines[i].header);
        continue;
      }
      if lines[i].entry.Some? {
        out := out.(entries := out.entries + [lines[i].entry.value]);
      }
    }
    assert lines[..|lines|] == lines;
  }

  /** `read_header_in`: stops at the first header, and agrees with the whole-file parser. */
  method ReadHeader(lines: seq<Line>) returns (found: Option<Header>)
    ensures found == Parsed(lines).header
  {
    found := None;
    for i := 0 to |lines|
      invariant found.None? && i <= HeaderAt(lines)
    {
      if lines[i].header.Some? { return lines[i].header; }
    }
  }

  /** `has_entries_in`: stops at the first entry, and agrees with the whole-file parser. */
  method HasEntries(lines: seq<Line>) returns (found: bool)
    ensures found <==> Parsed(lines).entries != []
  {
    var headerSeen := false;
    ghost var k := HeaderAt(lines);
    for i := 0 to |lines|
      invariant headerSeen <==> k < i
      invariant EntriesBut(lines[..i], k) == []
    {
      EntriesButSnoc(lines, i, k);
      if !headerSeen && lines[i].header.Some? {
        headerSeen := true;
        continue;
      }
      if lines[i].entry.Some? {
        EntriesButPrefix(lines, i + 1, k);
        return true;
      }
    }
    assert lines[..|lines|] == lines;
    return false;
  }

  lemma EntriesButSnoc(lines: seq<Line>, i: nat, skip: int)
    requires i < |lines|
    ensures EntriesBut(lines[..i + 1], skip) ==
            EntriesBut(lines[..i], skip) + if i != skip && lines[i].entry.Some? then [lines[i].entry.value] else []
  {
    assert lines[..i + 1][..i] == lines[..i];
  }

  lemma {:induction false} EntriesButPrefix(lines: seq<Line>, i: nat, skip: int)
    requires i <= |lines|
    ensures EntriesBut(lines[..i], skip) <= EntriesBut(lines, skip)
    decreases |lines|
  {
    if i < |lines| {
      var n := |lines| - 1;
      EntriesButPrefix(lines[..n], i, skip);
      assert lines[..n][..i] == lines[..i];
    } else {
      assert lines[..i] == lines;
    }
  }

  /** A line that would make the gate answer yes wherever it stands in a file. */
  predicate CountsAsHistory(line: Line) {
    line.header.None? && line.entry.Some?
  }

  /** Such a line is enough for the transcript to have entries. */
  lemma HistoryIsSeen(lines: seq<Line>, i: nat)
    requires i < |lines| && CountsAsHistory(lines[i])
    ensures Parsed(lines).entries != []
  {
    assert lines[..i + 1][..i] == lines[..i];
    EntriesButPrefix(lines, i + 1, HeaderAt(lines));
  }

  lemma {:induction false} EntriesButAppend(a: seq<Line>, b: seq<Line>)
    ensures EntriesBut(a + b, -1) == EntriesBut(a, -1) + EntriesBut(b, -1)
    decreases |b|
  {
    if b == [] {
      assert a + b == a;
    } else {
      assert (a + b)[..|a + b| - 1] == a + b[..|b| - 1];
      EntriesButAppend(a, b[..|b| - 1]);
    }
  }

  /** When no line is both, skipping the header line skips nothing. */
  lemma {:induction false} SkipNothing(lines: seq<Line>, skip: nat)
    requires skip < |lines| ==> lines[skip].entry.None?
    ensures EntriesBut(lines, skip) == EntriesBut(lines, -1)
  {
    if lines != [] { SkipNothing(lines[..|lines| - 1], skip); }
  }
}
