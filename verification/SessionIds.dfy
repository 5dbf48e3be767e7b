/**
 Which ids name a transcript (`safe_component`, src-tauri/src/acp_transcript.rs), letter by letter, and what
 a chain read from one begins and ends with.
 */
module SessionIds {
  import opened Options
  import opened Conversation
  import opened TranscriptReader
  import opened Continuations

  /** ASCII letters and digits, hyphen, full stop and underscore, by their codes. */
  predicate Allowed(code: int) {
    48 <= code <= 57 || 65 <= code <= 90 || 97 <= code <= 122 || code == 45 || code == 46 || code == 95
  }

  /** One to 128 allowed characters, the first of them no full stop. */
  predicate NamesATranscript(id: string) {
    1 <= |id| <= 128 && id[0] as int != 46 && forall i | 0 <= i < |id| :: Allowed(id[i] as int)
  }

  lemma SafeIff(id: string)
    ensures SafeComponent(id) <==> NamesATranscript(id)
  {
    if SafeComponent(id) {
      forall i | 0 <= i < |id| ensures Allowed(id[i] as int) { assert id[i] in id; }
    }
    if NamesATranscript(id) {
      forall c | c in id ensures SafeChar(c) {
        var i :| 0 <= i < |id| && id[i] == c;
        assert Allowed(id[i] as int);
      }
    }
  }

  /**
   Every lawfully named transcript is read. Its own entries end the conversation read from it, and if it
   continues nothing it is that conversation, header and all.
   */
  lemma NamedTranscriptsAreRead(dir: Dir, id: string, depth: nat)
    requires depth > 0 && id in dir && NamesATranscript(id)
    ensures var own, all := Parsed(dir[id]), ChainOf(Shelved(dir), id, depth);
            && |own.entries| <= |all.entries| && all.entries[|all.entries| - |own.entries|..] == own.entries
            && (own.header.None? || own.header.value.continuesFrom.None? ==> all == own)
            && (own.header.Some? ==> all.header.Some?)
  {
    SafeIff(id);
    var shelf := Shelved(dir);
    var own, rest := Parsed(dir[id]), Walk(shelf, Link(shelf, id), {} + {id}, depth - 1);
    assert Read(shelf, id) == own && ChainIds(shelf, id, depth) == [id] + rest;
    ReadIdsAppend(shelf, [id], rest);
    assert ReadIds(shelf, [id]) == [own];
    MergedAppend([own], ReadIds(shelf, rest));
    OneMerged(own);
    if Link(shelf, id).None? {
      assert rest == [] && ReadIds(shelf, rest) == [];
      assert [own] + [] == [own];
    }
  }

  lemma OneMerged(t: Transcript)
    ensures Merged([t]) == t
  {
    assert [t][1..] == [];
    assert [] + t.entries == t.entries;
  }

  /** No other id reads as anything, or links to anything, whatever the directory holds. */
  lemma OtherNamesReadAsNothing(dir: Dir, id: string, depth: nat)
    requires !NamesATranscript(id) || id !in dir
    ensures ChainOf(Shelved(dir), id, depth) == Transcript(None, [])
    ensures AncestorIds(Shelved(dir), id, depth) == []
  {
    SafeIff(id);
    assert Read(Shelved(dir), id) == NOTHING;
    if depth > 0 {
      assert Link(Shelved(dir), id).None? && Walk(Shelved(dir), None, {} + {id}, depth - 1) == [];
      assert ChainIds(Shelved(dir), id, depth) == [id] + Walk(Shelved(dir), Link(Shelved(dir), id), {} + {id}, depth - 1);
      assert ReadIds(Shelved(dir), [id]) == [NOTHING];
      OneMerged(NOTHING);
      assert [id] + [] == [id];
    }
  }

  /** What a lawfully named transcript continues is found, and superseded. */
  lemma NamedLinksAreFollowed(dir: Dir, id: string, depth: nat)
    requires depth > 0 && id in dir && NamesATranscript(id)
    requires Parsed(dir[id]).header.Some? && Parsed(dir[id]).header.value.continuesFrom.Some?
    requires Parsed(dir[id]).header.value.continuesFrom.value != id
    ensures var older := Parsed(dir[id]).header.value.continuesFrom.value;
            && AncestorIds(Shelved(dir), id, depth) != [] && AncestorIds(Shelved(dir), id, depth)[0] == older
            && Link(Shelved(dir), id) == Some(older)
  {
    SafeIff(id);
  }

  /** The usual shape of an agent's session id: hexadecimal digits in groups of 8, 4, 4, 4 and 12. */
  predicate UuidShaped(id: string) {
    && |id| == 36
    && forall i | 0 <= i < 36 ::
         if i in {8, 13, 18, 23} then id[i] == '-'
         else '0' <= id[i] <= '9' || 'a' <= id[i] <= 'f' || 'A' <= id[i] <= 'F'
  }

  lemma UuidsNameTranscripts(id: string)
    requires UuidShaped(id)
    ensures NamesATranscript(id)
  {
  }

  /** Nothing that could leave the directory, hide in it or name no file does. */
  lemma PathsAreNotNames(id: string)
    requires '/' in id || '\\' in id || id == ".." || id == "." || id == "" || |id| > 128
    ensures !NamesATranscript(id)
  {
    if c :| c in id && (c == '/' || c == '\\') {
      var i :| 0 <= i < |id| && id[i] == c;
      assert !Allowed(id[i] as int);
    }
  }
}
