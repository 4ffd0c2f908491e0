/** `cachedSessionSummary`: the summary row and parser cursor of one growing transcript. */
module SummaryCache {
  import opened Outcomes
  import opened JsonlCursor
  import opened CodexParser
  import opened IncrementalParse
  import opened ResumedParse

  /** Device and inode stay the same; the modification times are one value that every write changes. */
  datatype Fingerprint = Fingerprint(size: nat, times: int)

  /** The transcript as one `stat` sees it. */
  datatype File = File(content: Bytes, times: int) {
    function Stat(): Fingerprint { Fingerprint(|content|, times) }
  }

  datatype SummaryRow = SummaryRow(stat: Fingerprint, data: State)
  datatype CursorRow = CursorRow(size: nat, guard: string, checkpoint: Checkpoint)

  /** The hash behind `prefixGuard` is not part of this model. */
  type Hash = (Bytes, Bytes) -> string

  /** The first and last bytes of the prefix, at most 4096 of each. */
  function PrefixGuard(hash: Hash, content: Bytes, offset: nat): string
    requires offset <= |content|
  {
    var n := if offset < 4096 then offset else 4096;
    hash(content[..n], content[offset - n..offset])
  }

  /** The saved cursor, when it can be resumed for a file now `size` bytes long. */
  function Resumable(hash: Hash, saved: Option<CursorRow>, content: Bytes, size: nat): (cp: Option<Checkpoint>)
    requires size <= |content|
    ensures cp.Some? ==> 0 < cp.value.offset < size
  {
    if saved.None? then None
    else
      var c := saved.value;
      if size <= c.size || c.checkpoint.offset == 0 || c.size < c.checkpoint.offset then None
      else if PrefixGuard(hash, content, c.checkpoint.offset) != c.guard then None
      else Some(c.checkpoint)
  }

  /** The parse of the first `size` bytes, from the checkpoint if there is one. */
  function ScanUpTo(p: Parser, resume: Option<Checkpoint>, content: Bytes, size: nat): Scan
    requires size <= |content| && (resume.Some? ==> resume.value.offset <= size)
  {
    var cp := resume.GetOr(START);
    ScanFrom(p, cp, content[cp.offset..size])
  }

  // ----- What makes caching transparent -----

  /** Every complete record parses, and neither the clock nor a time of day enters any summary. */
  ghost predicate Steady(p: Parser, content: Bytes) {
    forall n :: 0 <= n <= |content| ==> SteadyAt(p, content[..n])
  }

  ghost predicate SteadyAt(p: Parser, content: Bytes) {
    !EndsMalformed(p, content) && ClockFree(p, None, LinesOf(CutBytes(content), 0, 0))
  }

  lemma SteadyPrefix(p: Parser, content: Bytes, n: nat)
    requires Steady(p, content) && n <= |content|
    ensures SteadyAt(p, content[..n]) && Steady(p, content[..n])
  {
    forall k | 0 <= k <= n ensures SteadyAt(p, content[..n][..k]) {
      assert content[..n][..k] == content[..k];
    }
  }

  lemma ClockFreeScan(p: Parser, q: Parser, content: Bytes)
    requires q == p.(clock := q.clock) && SteadyAt(p, content)
    ensures FullScan(q, content) == FullScan(p, content)
    ensures EndsMalformed(q, content) <==> EndsMalformed(p, content)
  {
    var lines := LinesOf(CutBytes(content), 0, 0);
    ClockFreeMeansSame(p, q, None, lines);
    if |lines| > 0 { ClockFreeMeansSame(p, q, None, lines[..|lines| - 1]); }
  }

  lemma SteadyIsDated(p: Parser, content: Bytes)
    requires SteadyAt(p, content)
    ensures RecordsDated(p, content)
  {
    var c := CutBytes(content);
    var complete, lines := RecordLines(c.records, 0, 0), LinesOf(c, 0, 0);
    if |c.tail| > 0 {
      assert lines[..|lines| - 1] == complete;
    } else if |c.records| > 0 {
      assert lines[..|lines| - 1] == complete[..|complete| - 1];
    }
  }

  /** A checkpoint taken when the file held its first `old` bytes, resumed by any process at any later size. */
  lemma ResumedScanIsFresh(p: Parser, q: Parser, content: Bytes, was: nat, size: nat, cp: Checkpoint)
    requires was < size <= |content| && Steady(p, content) && q == p.(clock := q.clock)
    requires FullScan(p, content[..was]).saved == Some(cp)
    ensures cp.offset <= was && ScanUpTo(q, Some(cp), content, size) == FullScan(p, content[..size])
  {
    hide FullScan, ScanFrom, EndsMalformed, ClockFree, LinesOf, CutBytes, RecordsDated;
    var before, growth := content[..was], content[was..size];
    SteadyPrefix(p, content, was);
    SteadyPrefix(p, content, size);
    SteadyIsDated(p, before);
    ClockFreeScan(p, q, content[..size]);
    ResumeEqualsFullParse(p, before, growth);
    assert SameParser(p, q);
    assert before + growth == content[..size];
    assert content[cp.offset..size] == content[..size][cp.offset..];
  }

  lemma FullScanUpTo(p: Parser, q: Parser, content: Bytes, size: nat)
    requires size <= |content| && Steady(p, content) && q == p.(clock := q.clock)
    ensures ScanUpTo(q, None, content, size) == FullScan(p, content[..size])
  {
    SteadyPrefix(p, content, size);
    ClockFreeScan(p, q, content[..size]);
    assert content[0..size] == content[..size];
  }

  /** The condition a reader of the transcript can check: no complete record is malformed. */
  predicate RecordsParse(p: Parser, content: Bytes) {
    var records := CutBytes(content).records;
    forall i :: 0 <= i < |records| ==> !p.decode(StripCr(records[i])).Malformed?
  }

  lemma {:induction false} JoinedCut(records: seq<Bytes>)
    requires forall i :: 0 <= i < |records| ==> OneLine(records[i])
    ensures CutBytes(Joined(records)) == Cut(records, [])
  {
    if |records| > 0 {
      var init, r := records[..|records| - 1], records[|records| - 1];
      JoinedCut(init);
      CutGrowsTail(Joined(init), r);
      CutOneMore(Joined(init) + r, LF);
      assert [] + r == r && init + [r] == records;
    }
  }

  lemma {:induction false} JoinedIsPrefix(records: seq<Bytes>, k: nat)
    requires k <= |records|
    ensures Joined(records[..k]) <= Joined(records)
  {
    assert records == records[..k] + records[k..];
    JoinedConcat(records[..k], records[k..]);
  }

  lemma PrefixEndsWell(p: Parser, content: Bytes, n: nat)
    requires RecordsParse(p, content) && n <= |content|
    ensures !EndsMalformed(p, content[..n])
  {
    hide CutBytes, StripCr;
    var kept := CutBytes(content[..n]).records;
    CutConcat(content[..n], content[n..]);
    assert content[..n] + content[n..] == content;
    assert forall i :: 0 <= i < |kept| ==> kept[i] == CutBytes(content).records[i];
  }

  lemma MalformedPrefix(p: Parser, content: Bytes, i: nat)
    requires i < |CutBytes(content).records| && p.decode(StripCr(CutBytes(content).records[i])).Malformed?
    ensures exists n :: 0 <= n <= |content| && EndsMalformed(p, content[..n])
  {
    hide CutBytes, StripCr, Joined;
    var c := CutBytes(content);
    var prefix := Joined(c.records[..i + 1]);
    CutRoundTrip(content);
    JoinedIsPrefix(c.records, i + 1);
    JoinedCut(c.records[..i + 1]);
    assert content[..|prefix|] == prefix;
    assert EndsMalformed(p, content[..|prefix|]);
  }

  /** No prefix of a transcript ends in a malformed record exactly when no complete record of it is malformed. */
  lemma PrefixesEndWellIff(p: Parser, content: Bytes)
    ensures (forall n :: 0 <= n <= |content| ==> !EndsMalformed(p, content[..n])) <==> RecordsParse(p, content)
  {
    hide EndsMalformed, CutBytes;
    if RecordsParse(p, content) {
      forall n | 0 <= n <= |content| ensures !EndsMalformed(p, content[..n]) {
        PrefixEndsWell(p, content, n);
      }
    } else {
      var i :| 0 <= i < |CutBytes(content).records| && p.decode(StripCr(CutBytes(content).records[i])).Malformed?;
      MalformedPrefix(p, content, i);
    }
  }

  // ----- The rows, and what they may hold -----

  ghost predicate SummaryOk(p: Parser, content: Bytes, row: Option<SummaryRow>) {
    row.Some? ==> row.value.stat.size <= |content|
                  && FullScan(p, content[..row.value.stat.size]).result == Ok(row.value.data)
  }

  ghost predicate CursorOk(p: Parser, hash: Hash, content: Bytes, row: Option<CursorRow>) {
    row.Some? ==>
      var c := row.value;
      && c.checkpoint.offset <= c.size <= |content|
      && FullScan(p, content[..c.size]).saved == Some(c.checkpoint)
      && c.guard == PrefixGuard(hash, content, c.checkpoint.offset)
  }

  lemma OkSavesInside(p: Parser, content: Bytes)
    requires FullScan(p, content).result.Ok?
    ensures FullScan(p, content).saved.Some?
    ensures FullScan(p, content).saved.value.offset <= |content|
  {
    SavedPosition(p, START, content);
    CutRoundTrip(content);
  }

  lemma GuardIgnoresGrowth(hash: Hash, content: Bytes, growth: Bytes, offset: nat)
    requires offset <= |content|
    ensures PrefixGuard(hash, content + growth, offset) == PrefixGuard(hash, content, offset)
  {
    var n := if offset < 4096 then offset else 4096;
    assert (content + growth)[..n] == content[..n];
    assert (content + growth)[offset - n..offset] == content[offset - n..offset];
  }

  lemma RowsIgnoreGrowth(p: Parser, hash: Hash, content: Bytes, growth: Bytes, summary: Option<SummaryRow>, cursor: Option<CursorRow>)
    ensures SummaryOk(p, content, summary) ==> SummaryOk(p, content + growth, summary)
    ensures CursorOk(p, hash, content, cursor) ==> CursorOk(p, hash, content + growth, cursor)
  {
    if SummaryOk(p, content, summary) && summary.Some? {
      assert (content + growth)[..summary.value.stat.size] == content[..summary.value.stat.size];
    }
    if CursorOk(p, hash, content, cursor) && cursor.Some? {
      assert (content + growth)[..cursor.value.size] == content[..cursor.value.size];
      GuardIgnoresGrowth(hash, content, growth, cursor.value.checkpoint.offset);
    }
  }

  /** An append-only file is resumed whenever it grew past a cursor that stands after some record. */
  lemma GuardNeverRejects(p: Parser, hash: Hash, content: Bytes, cursor: Option<CursorRow>, size: nat)
    requires size <= |content| && CursorOk(p, hash, content, cursor)
    ensures Resumable(hash, cursor, content, size)
            == if cursor.Some? && cursor.value.size < size && cursor.value.checkpoint.offset > 0 then Some(cursor.value.checkpoint)
               else None
  {
  }

  /** A file of the same name that does not start like the one scanned, or differs just before the checkpoint, is not resumed. */
  lemma OtherPrefixIsNotResumed(hash: Hash, scanned: Bytes, found: Bytes, size: nat, saved: Checkpoint)
    requires saved.offset <= |scanned| && saved.offset <= size <= |found|
    requires forall a, b, c, d :: hash(a, b) == hash(c, d) ==> a == c && b == d
    requires var n := if saved.offset < 4096 then saved.offset else 4096;
             scanned[..n] != found[..n] || scanned[saved.offset - n..saved.offset] != found[saved.offset - n..saved.offset]
    ensures Resumable(hash, Some(CursorFor(hash, scanned, |scanned|, saved)), found, size) == None
  {
  }

  /** Whatever valid cursor is found, the scan it leads to is the scan of the same bytes from scratch. */
  lemma AnyCursorIsFresh(p: Parser, q: Parser, hash: Hash, content: Bytes, cursor: Option<CursorRow>, size: nat)
    requires size <= |content| && Steady(p, content) && q == p.(clock := q.clock) && CursorOk(p, hash, content, cursor)
    ensures ScanUpTo(q, Resumable(hash, cursor, content, size), content, size) == FullScan(p, content[..size])
  {
    if Resumable(hash, cursor, content, size).Some? {
      ResumedScanIsFresh(p, q, content, cursor.value.size, size, cursor.value.checkpoint);
    } else {
      FullScanUpTo(p, q, content, size);
    }
  }

  /** The cursor row a scan of the first `size` bytes saves. */
  function CursorFor(hash: Hash, content: Bytes, size: nat, saved: Checkpoint): CursorRow
    requires saved.offset <= |content|
  {
    CursorRow(size, PrefixGuard(hash, content, saved.offset), saved)
  }

  /** The condition is needed: after a quiet scan and a growth, the next scan at any later time answers like a fresh parse at
    * that time if and only if the old content does not end in a malformed record and its records are dated (or the grown
    * content does not parse). */
  lemma NextAnswerIsFreshIff(p: Parser, hash: Hash, before: Bytes, growth: Bytes)
    requires |growth| > 0 && FullScan(p, before).saved.Some?
    ensures FullScan(p, before).saved.value.offset <= |before|
    ensures var content := before + growth;
            var cursor := Some(CursorFor(hash, before, |before|, FullScan(p, before).saved.value));
            var resume := Resumable(hash, cursor, content, |content|);
            (forall q :: SameParser(p, q) ==> ScanUpTo(q, resume, content, |content|).result == FullScan(q, content).result)
            <==> Resumes(p, before, growth)
  {
    hide FullScan, ScanFrom, Resumes, SameParser;
    var content := before + growth;
    var cp := FullScan(p, before).saved.value;
    ResumeEqualsFullParse(p, before, growth);
    GuardIgnoresGrowth(hash, before, growth, cp.offset);
    assert content[0..|content|] == content && content[cp.offset..|content|] == content[cp.offset..];
    if cp.offset == 0 {
      StartIsFresh(content);
      NothingToResume(p, before, growth);
    }
  }

  /** Without growth the stored answer is given again: it is what a fresh parse at any later time gives if and only if no
    * record of the content makes the parse read the clock. */
  lemma RepeatedAnswerIsFreshIff(p: Parser, content: Bytes)
    requires FullScan(p, content).result.Ok?
    ensures (forall q :: SameParser(p, q) ==> FullScan(q, content).result == FullScan(p, content).result)
            <==> ClockFree(p, None, LinesOf(CutBytes(content), 0, 0))
  {
    hide ClockFree, LinesOf, CutBytes, ProcessLines;
    var lines := LinesOf(CutBytes(content), 0, 0);
    ResultIgnoresClockIff(p, None, lines);
    forall q ensures FullScan(q, content).result == ProcessLines(q, None, lines) {
      FailureOfGrown(q, lines);
    }
    if ClockFree(p, None, lines) {
      forall q | SameParser(p, q) ensures ProcessLines(q, None, lines) == ProcessLines(p, None, lines) {
        ClockFreeMeansSame(p, q, None, lines);
      }
    } else {
      var k :| ProcessLines(At(p, k), None, lines) != ProcessLines(p, None, lines);
      assert SameParser(p, At(p, k));
    }
  }

  lemma StartIsFresh(content: Bytes)
    ensures forall q :: ScanUpTo(q, None, content, |content|) == FullScan(q, content)
  {
    assert content[0..|content|] == content;
  }

  /** A checkpoint at the start of the file stands before any record. */
  lemma NothingToResume(p: Parser, before: Bytes, growth: Bytes)
    requires FullScan(p, before).saved.Some? && FullScan(p, before).saved.value.offset == 0
    ensures Resumes(p, before, growth)
  {
    SavedPosition(p, START, before);
    RecordsHaveSize(CutBytes(before).records);
  }

  lemma RecordsHaveSize(records: seq<Bytes>)
    ensures |records| > 0 ==> Size(records) > 0
  {
  }

  /** Two views of one append-only file: nothing was lost, and equal fingerprints mean equal content. */
  predicate Later(a: File, b: File) {
    a.content <= b.content
  }

  lemma SameStatSameContent(a: File, b: File)
    requires Later(a, b) && a.Stat() == b.Stat()
    ensures a == b
  {
  }

  class TranscriptCache {
    var summary: Option<SummaryRow>
    var cursor: Option<CursorRow>
    var hits: nat
    var misses: nat
    var writes: nat
    var resumed: nat
    var bytes: nat

    constructor ()
      ensures summary == None && cursor == None && hits == 0 && misses == 0 && writes == 0 && resumed == 0 && bytes == 0
    {
      summary, cursor, hits, misses, writes, resumed, bytes := None, None, 0, 0, 0, 0, 0;
    }

    ghost predicate Valid(p: Parser, hash: Hash, content: Bytes)
      reads this
    {
      SummaryOk(p, content, summary) && CursorOk(p, hash, content, cursor)
    }

    /** `cachedSessionSummary` for one transcript. The file may grow at any time: `first` is what the fingerprint saw,
      * `info` the second `stat`, `last` the final fingerprint. Each process brings its own clock. */
    method CachedSessionSummary(q: Parser, hash: Hash, first: File, info: File, last: File, ghost p: Parser)
      returns (r: Parse)
      requires q == p.(clock := q.clock) && Later(first, info) && Later(info, last)
      requires Steady(p, last.content) && Valid(p, hash, first.content)
      modifies this
      ensures Valid(p, hash, last.content)
      // the answer is a fresh parse of what the file held at one of the two stats, so of the file itself when it was quiet
      ensures r == FullScan(p, first.content).result || r == FullScan(p, info.content).result
      ensures first == info == last ==> r == FullScan(p, last.content).result
      // a quiet miss leaves a row that makes the next call a hit
      ensures first == info == last && r.Ok? ==> summary == Some(SummaryRow(last.Stat(), r.value))
      ensures first.Stat() != last.Stat() || r.Err? ==> summary == old(summary)
      // a hit changes nothing; a miss that parses moves the cursor to what it read, resuming whenever the file grew
      ensures var hit := old(summary).Some? && old(summary).value.stat == first.Stat();
              var grown := old(cursor).Some? && old(cursor).value.size < |info.content| && old(cursor).value.checkpoint.offset > 0;
              && hits == old(hits) + (if hit then 1 else 0) && misses == old(misses) + (if hit then 0 else 1)
              && resumed == old(resumed) + (if !hit && grown then 1 else 0)
              && bytes == old(bytes) + (if hit then 0 else |info.content| - if grown then old(cursor).value.checkpoint.offset else 0)
              && (if hit || r.Err? then cursor == old(cursor) else cursor.Some? && cursor.value.size == |info.content|)
    {
      hide FullScan, ScanUpTo, Resumable, PrefixGuard, Steady, SteadyAt;
      GrowthOf(p, hash, first.content, info.content, summary, cursor);
      GrowthOf(p, hash, info.content, last.content, summary, cursor);
      assert first.content[..|first.content|] == first.content && info.content[..|info.content|] == info.content;
      if summary.Some? && summary.value.stat == first.Stat() {
        hits := hits + 1;
        return Ok(summary.value.data);
      }
      misses := misses + 1;
      var size := |info.content|;
      var previous := Resumable(hash, cursor, info.content, size);
      GuardNeverRejects(p, hash, info.content, cursor, size);
      if previous.Some? { resumed := resumed + 1; }
      bytes := bytes + size - previous.GetOr(START).offset;
      var scan := ScanUpTo(q, previous, info.content, size);
      SteadyPrefix(p, last.content, size);
      assert last.content[..size] == info.content;
      AnyCursorIsFresh(p, q, hash, info.content, cursor, size);
      assert scan == FullScan(p, info.content);
      r := scan.result;
      if r.Err? { return; }
      OkSavesInside(p, info.content);
      if |last.content| >= size {
        cursor := Some(CursorFor(hash, last.content, size, scan.saved.value));
      }
      if last.Stat() == first.Stat() {
        SameStatSameContent(first, last);
        summary := Some(SummaryRow(first.Stat(), r.value));
        writes := writes + 1;
      }
      assert last.content[..|last.content|] == last.content;
    }
  }

  lemma GrowthOf(p: Parser, hash: Hash, a: Bytes, b: Bytes, summary: Option<SummaryRow>, cursor: Option<CursorRow>)
    requires a <= b
    ensures SummaryOk(p, a, summary) ==> SummaryOk(p, b, summary)
    ensures CursorOk(p, hash, a, cursor) ==> CursorOk(p, hash, b, cursor)
  {
    assert a + b[|a|..] == b;
    RowsIgnoreGrowth(p, hash, a, b[|a|..], summary, cursor);
  }
}
