/**
 The bytes of a transcript file, at the grain the writer's failure handling needs: a record's
 serialization is one token, which a failed write may leave torn, and line breaks are tokens of
 their own. A line reads as a record only if it is exactly one whole serialization.
 */
module TranscriptFile {
  import opened Sequences
  import opened Options
  import opened Conversation
  import opened Compaction
  import opened TranscriptReader

  datatype Token = Json(record: Record, whole: bool) | Newline

  type Bytes = seq<Token>

  /** What the lines of a batch are written as. */
  function Serialize(rs: seq<Record>): Bytes {
    if rs == [] then [] else Serialize(rs[..|rs| - 1]) + [Json(rs[|rs| - 1], true), Newline]
  }

  function RecordLine(r: Record): Line {
    if r.Head? then Line(Some(r.header), None) else Line(None, Some(r.entry))
  }

  function LineOf(tokens: Bytes): Line {
    if |tokens| == 1 && tokens[0].Json? && tokens[0].whole then RecordLine(tokens[0].record) else Line(None, None)
  }

  /** The finished lines, and the tokens after the last line break. */
  function Split(file: Bytes): (seq<Line>, Bytes) {
    if file == [] then ([], [])
    else
      var (done, tail) := Split(file[..|file| - 1]);
      if file[|file| - 1].Newline? then (done + [LineOf(tail)], []) else (done, tail + [file[|file| - 1]])
  }

  /** The lines a reader sees: a last line needs no line break to count. */
  function Lines(file: Bytes): seq<Line> {
    var (done, tail) := Split(file);
    done + if tail == [] then [] else [LineOf(tail)]
  }

  /** Empty, or ending in a line break: the next record starts on a line of its own. */
  predicate Terminated(file: Bytes) {
    file == [] || file[|file| - 1].Newline?
  }

  function FileEntries(file: Bytes): seq<Entry> {
    Parsed(Lines(file)).entries
  }

  function FileHeader(file: Bytes): Option<Header> {
    Parsed(Lines(file)).header
  }

  function RecordLines(rs: seq<Record>): seq<Line> {
    seq(|rs|, (i: nat) requires i < |rs| => RecordLine(rs[i]))
  }

  lemma SplitSnoc(file: Bytes, t: Token)
    ensures Split(file + [t]) ==
            if t.Newline? then (Split(file).0 + [LineOf(Split(file).1)], []) else (Split(file).0, Split(file).1 + [t])
  {
    assert (file + [t])[..|file|] == file;
  }

  lemma TerminatedSplit(file: Bytes)
    ensures Terminated(file) <==> Split(file).1 == []
  {
  }

  lemma SplitRecord(file: Bytes, r: Record)
    ensures Split(file + [Json(r, true), Newline]) == (Split(file).0 + [LineOf(Split(file).1 + [Json(r, true)])], [])
  {
    assert file + [Json(r, true), Newline] == (file + [Json(r, true)]) + [Newline];
    SplitSnoc(file, Json(r, true));
    SplitSnoc(file + [Json(r, true)], Newline);
  }

  lemma SplitRecordClean(file: Bytes, r: Record)
    requires Terminated(file)
    ensures Split(file + [Json(r, true), Newline]) == (Split(file).0 + [RecordLine(r)], [])
    ensures Lines(file) == Split(file).0
  {
    TerminatedSplit(file);
    SplitRecord(file, r);
    assert Split(file).1 + [Json(r, true)] == [Json(r, true)];
  }

  /** Appending a batch to a terminated file adds exactly its lines. */
  lemma {:induction false} AppendBatch(file: Bytes, rs: seq<Record>)
    requires Terminated(file)
    ensures Split(file + Serialize(rs)) == (Split(file).0 + RecordLines(rs), [])
    ensures Terminated(file + Serialize(rs))
  {
    if rs == [] {
      TerminatedSplit(file);
      assert file + Serialize(rs) == file && Split(file).0 + RecordLines(rs) == Split(file).0;
    } else {
      var n := |rs| - 1;
      AppendBatch(file, rs[..n]);
      Associates(file, Serialize(rs[..n]), [Json(rs[n], true), Newline]);
      SplitRecordClean(file + Serialize(rs[..n]), rs[n]);
      Associates(Split(file).0, RecordLines(rs[..n]), [RecordLine(rs[n])]);
      assert RecordLines(rs) == RecordLines(rs[..n]) + [RecordLine(rs[n])];
    }
  }

  /** No line of a file is both a header and an entry. */
  lemma {:induction false} LinesAreOneThing(file: Bytes)
    ensures forall i | 0 <= i < |Split(file).0| :: Split(file).0[i].header.None? || Split(file).0[i].entry.None?
  {
    if file != [] { LinesAreOneThing(file[..|file| - 1]); }
  }

  lemma FileEntriesAreAll(file: Bytes)
    ensures FileEntries(file) == EntriesBut(Lines(file), -1)
  {
    LinesAreOneThing(file);
    SkipNothing(Lines(file), HeaderAt(Lines(file)));
  }

  /** Of a terminated file only the finished lines count. */
  lemma ClosedEntries(file: Bytes)
    requires Terminated(file)
    ensures FileEntries(file) == EntriesBut(Split(file).0, -1)
  {
    TerminatedSplit(file);
    FileEntriesAreAll(file);
    assert Lines(file) == Split(file).0;
  }

  lemma {:induction false} LinesOfRecords(rs: seq<Record>)
    ensures EntriesBut(RecordLines(rs), -1) == Entries(rs)
  {
    if rs != [] {
      var n := |rs| - 1;
      LinesOfRecords(rs[..n]);
      assert RecordLines(rs)[..n] == RecordLines(rs[..n]);
    }
  }

  /** The entries read back are the old ones followed by the batch's. */
  lemma AppendedEntries(file: Bytes, rs: seq<Record>)
    requires Terminated(file)
    ensures FileEntries(file + Serialize(rs)) == FileEntries(file) + Entries(rs)
    ensures Lines(file + Serialize(rs)) == Lines(file) + RecordLines(rs)
  {
    AppendBatch(file, rs);
    TerminatedSplit(file);
    var after := file + Serialize(rs);
    assert Lines(file) == Split(file).0 && Lines(after) == Split(after).0;
    FileEntriesAreAll(file);
    FileEntriesAreAll(after);
    EntriesButAppend(Lines(file), RecordLines(rs));
    LinesOfRecords(rs);
  }

  function FirstHeader(rs: seq<Record>): Option<Header> {
    var hs := Headers(rs);
    if hs == [] then None else Some(hs[0])
  }

  lemma {:induction false} HeaderAtAppend(a: seq<Line>, b: seq<Line>)
    ensures Parsed(a + b).header == Parsed(a).header.Or(Parsed(b).header)
    decreases |a|
  {
    if a == [] {
      assert a + b == b;
    } else if a[0].header.None? {
      HeaderAtAppend(a[1..], b);
      assert (a + b)[1..] == a[1..] + b;
    }
  }

  lemma {:induction false} HeaderOfRecords(rs: seq<Record>)
    ensures Parsed(RecordLines(rs)).header == FirstHeader(rs)
  {
    if rs != [] {
      var n := |rs| - 1;
      HeaderOfRecords(rs[..n]);
      assert RecordLines(rs) == RecordLines(rs[..n]) + [RecordLine(rs[n])];
      HeaderAtAppend(RecordLines(rs[..n]), [RecordLine(rs[n])]);
    }
  }

  /** The header read back is the one already there, or else the batch's first. */
  lemma AppendedHeader(file: Bytes, rs: seq<Record>)
    requires Terminated(file)
    ensures FileHeader(file + Serialize(rs)) == FileHeader(file).Or(FirstHeader(rs))
  {
    AppendedEntries(file, rs);
    HeaderAtAppend(Lines(file), RecordLines(rs));
    HeaderOfRecords(rs);
  }

  /** A line with neither reading adds no entry. */
  lemma EntriesJunk(lines: seq<Line>)
    ensures EntriesBut(lines + [Line(None, None)], -1) == EntriesBut(lines, -1)
  {
    assert (lines + [Line(None, None)])[..|lines|] == lines;
  }

  // ---- partial writes

  lemma {:induction false} SerializeAt(rs: seq<Record>, i: nat)
    requires i < |rs|
    ensures |Serialize(rs)| == 2 * |rs|
    ensures Serialize(rs)[2 * i] == Json(rs[i], true) && Serialize(rs)[2 * i + 1] == Newline
    ensures Serialize(rs)[..2 * i] == Serialize(rs[..i])
    decreases |rs|
  {
    var n := |rs| - 1;
    if n > 0 { SerializeAt(rs[..n], if i < n then i else 0); }
    if i < n {
      assert rs[..n][..i] == rs[..i];
      assert Serialize(rs)[..2 * i] == Serialize(rs[..n])[..2 * i];
    } else {
      assert n == 0 ==> Serialize(rs[..n]) == [];
      assert Serialize(rs)[..2 * i] == Serialize(rs[..n]);
    }
  }

  /** A write can only fail with something left to write, and may stop inside a serialization. */
  predicate PossibleCut(rs: seq<Record>, cut: nat, torn: bool) {
    cut < |Serialize(rs)| && (torn ==> Serialize(rs)[cut].Json?)
  }

  /** What a failed write left behind. */
  function Partial(rs: seq<Record>, cut: nat, torn: bool): Bytes
    requires PossibleCut(rs, cut, torn)
  {
    Serialize(rs)[..cut] + if torn then [Json(Serialize(rs)[cut].record, false)] else []
  }

  /** The records a partial write leaves readable once a line break follows it. */
  function Survivors(rs: seq<Record>, cut: nat): seq<Record>
    requires cut < |Serialize(rs)|
  {
    assert |Serialize(rs)| == 2 * |rs| by { if rs != [] { SerializeAt(rs, 0); } }
    rs[..(cut + 1) / 2]
  }

  /** A line break closes an empty or torn line, which no reader takes for a record. */
  lemma ScrapLine(file: Bytes, scrap: Bytes)
    requires Terminated(file) && (scrap == [] || exists r :: scrap == [Json(r, false)])
    ensures FileEntries(file + scrap + [Newline]) == FileEntries(file)
  {
    TerminatedSplit(file);
    if scrap == [] { assert file + scrap == file; } else { SplitSnoc(file, scrap[0]); }
    SplitSnoc(file + scrap, Newline);
    ClosedEntries(file);
    ClosedEntries(file + scrap + [Newline]);
    EntriesJunk(Split(file).0);
  }

  /** A cut on a line boundary leaves whole lines and perhaps a torn serialization. */
  lemma PartialAtLine(rs: seq<Record>, i: nat, torn: bool)
    requires i < |rs| && PossibleCut(rs, 2 * i, torn)
    ensures Partial(rs, 2 * i, torn) == Serialize(rs[..i]) + if torn then [Json(rs[i], false)] else []
    ensures Survivors(rs, 2 * i) == rs[..i]
  {
    SerializeAt(rs, i);
  }

  /** A cut just before a line break is repaired by the line break that follows. */
  lemma PartialBeforeBreak(rs: seq<Record>, i: nat, torn: bool)
    requires i < |rs| && PossibleCut(rs, 2 * i + 1, torn)
    ensures Partial(rs, 2 * i + 1, torn) + [Newline] == Serialize(rs[..i + 1])
    ensures Survivors(rs, 2 * i + 1) == rs[..i + 1]
  {
    SerializeAt(rs, i);
    var s := Serialize(rs);
    assert s[..2 * i + 1] == s[..2 * i] + [s[2 * i]];
    assert rs[..i + 1][..i] == rs[..i];
    assert Serialize(rs[..i + 1]) == Serialize(rs[..i]) + [Json(rs[i], true), Newline];
  }

  /** A partial write and its closing line break, as whole lines followed by at most one scrap line. */
  lemma PartialAsLines(file: Bytes, rs: seq<Record>, cut: nat, torn: bool) returns (scrap: Bytes)
    requires PossibleCut(rs, cut, torn)
    ensures scrap == [] || exists r :: scrap == [Json(r, false)]
    ensures file + Partial(rs, cut, torn) + [Newline] ==
            file + Serialize(Survivors(rs, cut)) + if cut % 2 == 0 then scrap + [Newline] else []
  {
    var i := cut / 2;
    assert i < |rs| by { if rs != [] { SerializeAt(rs, 0); } }
    if cut == 2 * i {
      PartialAtLine(rs, i, torn);
      scrap := if torn then [Json(rs[i], false)] else [];
    } else {
      PartialBeforeBreak(rs, i, torn);
      scrap := [];
      assert file + Partial(rs, cut, torn) + [Newline] == file + (Partial(rs, cut, torn) + [Newline]);
    }
  }

  /** After the closing line break exactly the fully written records are there; a torn one is skipped. */
  lemma PartialThenNewline(file: Bytes, rs: seq<Record>, cut: nat, torn: bool)
    requires Terminated(file) && PossibleCut(rs, cut, torn)
    ensures FileEntries(file + Partial(rs, cut, torn) + [Newline]) ==
            FileEntries(file) + Entries(Survivors(rs, cut))
    ensures Terminated(file + Partial(rs, cut, torn) + [Newline])
  {
    var landed := Survivors(rs, cut);
    var whole := file + Serialize(landed);
    var scrap := PartialAsLines(file, rs, cut, torn);
    AppendBatch(file, landed);
    AppendedEntries(file, landed);
    if cut % 2 == 0 {
      ScrapLine(whole, scrap);
      assert whole + (scrap + [Newline]) == whole + scrap + [Newline];
    } else {
      assert whole + [] == whole;
    }
  }

  /** Whatever is appended, finished lines stay. */
  lemma {:induction false} FinishedOnlyGrow(file: Bytes, more: Bytes)
    ensures Split(file).0 <= Split(file + more).0 <= Lines(file + more)
    decreases |more|
  {
    if more == [] {
      assert file + more == file;
    } else {
      var n := |more| - 1;
      FinishedOnlyGrow(file, more[..n]);
      assert file + more == (file + more[..n]) + [more[n]];
      SplitSnoc(file + more[..n], more[n]);
    }
  }

  /** Whatever is appended to a terminated file, torn or not, leaves the lines already there. */
  lemma LinesOnlyGrow(file: Bytes, more: Bytes)
    requires Terminated(file)
    ensures Lines(file) <= Split(file + more).0 <= Lines(file + more)
  {
    TerminatedSplit(file);
    FinishedOnlyGrow(file, more);
    assert Lines(file) == Split(file).0;
  }

  /** A record glued to a torn tail makes one junk line of both. */
  lemma GluedLine(file: Bytes, r: Record)
    requires !Terminated(file)
    ensures Terminated(file + [Json(r, true), Newline])
    ensures |FileEntries(file + [Json(r, true), Newline])| <= |FileEntries(file)|
  {
    var done, tail := Split(file).0, Split(file).1;
    TerminatedSplit(file);
    SplitRecord(file, r);
    FileEntriesAreAll(file);
    ClosedEntries(file + [Json(r, true), Newline]);
    assert LineOf(tail + [Json(r, true)]) == Line(None, None);
    EntriesJunk(done);
    EntriesButAppend(done, [LineOf(tail)]);
  }

  /**
   A batch is read back in full exactly when the file it was appended to ended in a line break:
   otherwise its first record is glued to the torn tail and lost, whatever was acknowledged.
   */
  lemma ReadBackIff(file: Bytes, rs: seq<Record>)
    requires rs != [] && rs[0].Item?
    ensures |FileEntries(file + Serialize(rs))| >= |FileEntries(file)| + |Entries(rs)| <==> Terminated(file)
  {
    if Terminated(file) {
      AppendedEntries(file, rs);
    } else {
      GluedBatch(file, rs[0], rs[1..]);
      assert rs == [rs[0]] + rs[1..];
    }
  }

  lemma GluedBatch(file: Bytes, first: Record, rest: seq<Record>)
    requires first.Item? && !Terminated(file)
    ensures |FileEntries(file + Serialize([first] + rest))| < |FileEntries(file)| + |Entries([first] + rest)|
  {
    var glued := file + [Json(first, true), Newline];
    GluedLine(file, first);
    SerializeCons(first, rest);
    assert file + Serialize([first] + rest) == glued + Serialize(rest);
    AppendedEntries(glued, rest);
    EntriesAppend([first], rest);
    assert Entries([first]) == [first.entry] by { assert [first][..0] == []; }
  }

  lemma {:induction false} SerializeCons(r: Record, rs: seq<Record>)
    ensures Serialize([r] + rs) == [Json(r, true), Newline] + Serialize(rs)
  {
    if rs == [] {
      assert [r] + rs == [r] && [r][..0] == [];
    } else {
      assert ([r] + rs)[..|rs|] == [r] + rs[..|rs| - 1];
      SerializeCons(r, rs[..|rs| - 1]);
    }
  }

  /** Appended to an unfinished line a batch loses its first line. */
  lemma GluedSplit(file: Bytes, first: Record, rest: seq<Record>)
    requires Split(file).1 != []
    ensures Split(file + Serialize([first] + rest)) ==
            (Split(file).0 + ([Line(None, None)] + RecordLines(rest)), [])
  {
    var glued := file + [Json(first, true), Newline];
    SplitRecord(file, first);
    assert Split(glued) == (Split(file).0 + [Line(None, None)], []);
    AppendBatch(glued, rest);
    SerializeCons(first, rest);
    Associates(file, [Json(first, true), Newline], Serialize(rest));
    assert Split(file).0 + [Line(None, None)] + RecordLines(rest) == Split(file).0 + ([Line(None, None)] + RecordLines(rest));
  }
}
