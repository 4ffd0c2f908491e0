/** Every run of concurrent cache calls on one growing transcript: any number of processes, cut off at any step. */
module CacheProtocol {
  import opened Outcomes
  import opened JsonlCursor
  import opened CodexParser
  import opened SummaryCache

  /** Where a call of `cachedSessionSummary` stands, with the local variables it still uses. `first` is the fingerprint it
    * started from and `size` the file size it parses up to. */
  datatype Call =
    | Looking(first: Fingerprint)
    | Missed(first: Fingerprint)
    | Sized(first: Fingerprint, size: nat)
    | Loaded(first: Fingerprint, size: nat, previous: Option<CursorRow>)
    | Scanned(first: Fingerprint, size: nat, scan: Scan)
    | Saved(first: Fingerprint, size: nat, parsed: Parse)
    | Unchanged(first: Fingerprint, size: nat, parsed: Parse)
    | Answered(first: Fingerprint, size: nat, parsed: Parse)

  datatype World = World(file: File, summary: Option<SummaryRow>, cursor: Option<CursorRow>, calls: map<nat, Call>)

  datatype Event =
    | Append(data: Bytes, times: int)
    | Touch(times: int)
    | Start(id: nat)
    | Lookup(id: nat)
    | StatAgain(id: nat)
    | LoadCursor(id: nat)
    | ParseFile(id: nat, q: Parser)
    | SaveCursor(id: nat)
    | Compare(id: nat)
    | SaveSummary(id: nat)
    | Crash(id: nat)

  ghost predicate Enabled(p: Parser, w: World, e: Event) {
    match e
    case Append(data, _) => |data| > 0 && Steady(p, w.file.content + data)
    case Touch(_) => true
    case Start(id) => id !in w.calls
    case Lookup(id) => id in w.calls && w.calls[id].Looking?
    case StatAgain(id) => id in w.calls && w.calls[id].Missed?
    case LoadCursor(id) => id in w.calls && w.calls[id].Sized? && w.calls[id].size <= |w.file.content|
    case ParseFile(id, q) => id in w.calls && CanParse(w, w.calls[id]) && q == p.(clock := q.clock)
    case SaveCursor(id) => id in w.calls && CanSave(w, w.calls[id])
    case Compare(id) => id in w.calls && w.calls[id].Saved?
    case SaveSummary(id) => id in w.calls && w.calls[id].Unchanged? && w.calls[id].parsed.Ok?
    case Crash(id) => id in w.calls
  }

  predicate CanParse(w: World, c: Call) {
    c.Loaded? && c.size <= |w.file.content| && (c.previous.Some? ==> c.previous.value.checkpoint.offset <= c.size)
  }

  predicate CanSave(w: World, c: Call) {
    c.Scanned? && c.scan.saved.Some? && c.scan.saved.value.offset <= |w.file.content|
  }

  function CheckpointOf(row: Option<CursorRow>): Option<Checkpoint> {
    if row.None? then None else Some(row.value.checkpoint)
  }

  function Next(p: Parser, hash: Hash, w: World, e: Event): World
    requires Enabled(p, w, e)
  {
    match e
    case Append(data, times) => w.(file := File(w.file.content + data, times))
    case Touch(times) => w.(file := File(w.file.content, times))
    case Start(id) => w.(calls := w.calls[id := Looking(w.file.Stat())])
    case Lookup(id) =>
      var first := w.calls[id].first;
      w.(calls := w.calls[id := if w.summary.Some? && w.summary.value.stat == first
                                then Answered(first, first.size, Ok(w.summary.value.data)) else Missed(first)])
    case StatAgain(id) => w.(calls := w.calls[id := Sized(w.calls[id].first, |w.file.content|)])
    case LoadCursor(id) =>
      var c := w.calls[id];
      var usable := Resumable(hash, w.cursor, w.file.content, c.size).Some?;
      w.(calls := w.calls[id := Loaded(c.first, c.size, if usable then w.cursor else None)])
    case ParseFile(id, q) =>
      var c := w.calls[id];
      var scan := ScanUpTo(q, CheckpointOf(c.previous), w.file.content, c.size);
      w.(calls := w.calls[id := if scan.result.Err? then Answered(c.first, c.size, scan.result)
                                else Scanned(c.first, c.size, scan)])
    case SaveCursor(id) =>
      var c := w.calls[id];
      w.(cursor := Some(CursorFor(hash, w.file.content, c.size, c.scan.saved.value)),
         calls := w.calls[id := Saved(c.first, c.size, c.scan.result)])
    case Compare(id) =>
      var c := w.calls[id];
      w.(calls := w.calls[id := if w.file.Stat() == c.first then Unchanged(c.first, c.size, c.parsed)
                                else Answered(c.first, c.size, c.parsed)])
    case SaveSummary(id) =>
      var c := w.calls[id];
      w.(summary := Some(SummaryRow(c.first, c.parsed.value)), calls := w.calls[id := Answered(c.first, c.size, c.parsed)])
    case Crash(id) => w.(calls := w.calls - {id})
  }

  // ----- The invariant -----

  ghost predicate ParsedUpTo(p: Parser, content: Bytes, size: nat, parsed: Parse) {
    size <= |content| && FullScan(p, content[..size]).result == parsed
  }

  ghost predicate CallOk(p: Parser, hash: Hash, content: Bytes, c: Call) {
    match c
    case Looking(first) => first.size <= |content|
    case Missed(first) => first.size <= |content|
    case Sized(first, size) => first.size <= size <= |content|
    case Loaded(first, size, previous) =>
      && first.size <= size <= |content| && CursorOk(p, hash, content, previous)
      && (previous.Some? ==> previous.value.size < size)
    case Scanned(first, size, scan) => first.size <= size <= |content| && scan == FullScan(p, content[..size]) && scan.result.Ok?
    case Saved(first, size, parsed) => first.size <= size && ParsedUpTo(p, content, size, parsed) && parsed.Ok?
    case Unchanged(first, size, parsed) => first.size == size && ParsedUpTo(p, content, size, parsed) && parsed.Ok?
    case Answered(first, size, parsed) => first.size <= size && ParsedUpTo(p, content, size, parsed)
  }

  ghost predicate Inv(p: Parser, hash: Hash, w: World) {
    && Steady(p, w.file.content)
    && SummaryOk(p, w.file.content, w.summary) && CursorOk(p, hash, w.file.content, w.cursor)
    && forall id :: id in w.calls ==> CallOk(p, hash, w.file.content, w.calls[id])
  }

  lemma CallIgnoresGrowth(p: Parser, hash: Hash, content: Bytes, growth: Bytes, c: Call)
    requires CallOk(p, hash, content, c)
    ensures CallOk(p, hash, content + growth, c)
  {
    hide FullScan, PrefixGuard, CursorOk;
    if c.Loaded? { RowsIgnoreGrowth(p, hash, content, growth, None, c.previous); }
    if c.Scanned? || c.Saved? || c.Unchanged? || c.Answered? {
      assert (content + growth)[..c.size] == content[..c.size];
    }
  }

  lemma AppendKeeps(p: Parser, hash: Hash, w: World, data: Bytes, times: int)
    requires Inv(p, hash, w) && Enabled(p, w, Append(data, times))
    ensures Inv(p, hash, Next(p, hash, w, Append(data, times)))
  {
    hide CallOk, SummaryOk, CursorOk, Steady;
    RowsIgnoreGrowth(p, hash, w.file.content, data, w.summary, w.cursor);
    forall id | id in w.calls ensures CallOk(p, hash, w.file.content + data, w.calls[id]) {
      CallIgnoresGrowth(p, hash, w.file.content, data, w.calls[id]);
    }
  }

  lemma ParseIsFresh(p: Parser, hash: Hash, w: World, id: nat, q: Parser)
    requires Inv(p, hash, w) && Enabled(p, w, ParseFile(id, q))
    ensures var c := w.calls[id];
            ScanUpTo(q, CheckpointOf(c.previous), w.file.content, c.size) == FullScan(p, w.file.content[..c.size])
  {
    hide FullScan, ScanUpTo, Steady;
    var c := w.calls[id];
    assert CallOk(p, hash, w.file.content, c);
    if c.previous.Some? {
      ResumedScanIsFresh(p, q, w.file.content, c.previous.value.size, c.size, c.previous.value.checkpoint);
    } else {
      FullScanUpTo(p, q, w.file.content, c.size);
    }
  }

  lemma SaveKeeps(p: Parser, hash: Hash, content: Bytes, size: nat, scan: Scan)
    requires size <= |content| && scan == FullScan(p, content[..size]) && scan.result.Ok?
    ensures scan.saved.Some? && scan.saved.value.offset <= size
    ensures CursorOk(p, hash, content, Some(CursorFor(hash, content, size, scan.saved.value)))
  {
    hide FullScan;
    OkSavesInside(p, content[..size]);
  }

  /** Every step keeps every row and every call in progress truthful. */
  lemma StepKeeps(p: Parser, hash: Hash, w: World, e: Event)
    requires Inv(p, hash, w) && Enabled(p, w, e)
    ensures Inv(p, hash, Next(p, hash, w, e))
  {
    hide FullScan, ScanUpTo, Resumable, PrefixGuard, Steady, CursorOk;
    match e
    case Append(data, times) => AppendKeeps(p, hash, w, data, times);
    case ParseFile(id, q) =>
      assert CallOk(p, hash, w.file.content, w.calls[id]);
      ParseIsFresh(p, hash, w, id, q);
    case LoadCursor(id) =>
      assert CallOk(p, hash, w.file.content, w.calls[id]);
      NoCursorIsFine(p, hash, w.file.content);
      GuardNeverRejects(p, hash, w.file.content, w.cursor, w.calls[id].size);
    case SaveCursor(id) =>
      assert CallOk(p, hash, w.file.content, w.calls[id]);
      SaveKeeps(p, hash, w.file.content, w.calls[id].size, w.calls[id].scan);
    case Touch(_) =>
    case Start(id) =>
    case Crash(id) =>
    case Lookup(id) => assert CallOk(p, hash, w.file.content, w.calls[id]);
    case StatAgain(id) => assert CallOk(p, hash, w.file.content, w.calls[id]);
    case Compare(id) => assert CallOk(p, hash, w.file.content, w.calls[id]);
    case SaveSummary(id) => assert CallOk(p, hash, w.file.content, w.calls[id]);
  }

  lemma NoCursorIsFine(p: Parser, hash: Hash, content: Bytes)
    ensures CursorOk(p, hash, content, None)
  {
  }

  /** No call is ever stuck before its answer, unless its parse failed. */
  lemma CallsProceed(p: Parser, hash: Hash, w: World, id: nat)
    requires Inv(p, hash, w) && id in w.calls && !w.calls[id].Answered?
    ensures exists e :: Enabled(p, w, e)
                        && e in {Lookup(id), StatAgain(id), LoadCursor(id), ParseFile(id, p), SaveCursor(id), Compare(id), SaveSummary(id)}
  {
    hide FullScan, Steady, PrefixGuard;
    var c := w.calls[id];
    assert CallOk(p, hash, w.file.content, c);
    var e := match c
      case Looking(_) => Lookup(id)
      case Missed(_) => StatAgain(id)
      case Sized(_, _) => LoadCursor(id)
      case Loaded(_, _, _) => ParseFile(id, p)
      case Scanned(_, _, _) => SaveCursor(id)
      case Saved(_, _, _) => Compare(id)
      case _ => SaveSummary(id);
    if c.Scanned? { OkSavesInside(p, w.file.content[..c.size]); }
    assert Enabled(p, w, e);
  }

  ghost predicate Possible(p: Parser, hash: Hash, w: World, run: seq<Event>)
    decreases |run|
  {
    |run| == 0 || (Enabled(p, w, run[0]) && Possible(p, hash, Next(p, hash, w, run[0]), run[1..]))
  }

  function After(p: Parser, hash: Hash, w: World, run: seq<Event>): World
    requires Possible(p, hash, w, run)
    decreases |run|
  {
    if |run| == 0 then w else After(p, hash, Next(p, hash, w, run[0]), run[1..])
  }

  lemma {:induction false} RunKeeps(p: Parser, hash: Hash, w: World, run: seq<Event>)
    requires Inv(p, hash, w) && Possible(p, hash, w, run)
    ensures Inv(p, hash, After(p, hash, w, run))
    decreases |run|
  {
    hide Inv, Enabled, Next;
    if |run| > 0 {
      StepKeeps(p, hash, w, run[0]);
      RunKeeps(p, hash, Next(p, hash, w, run[0]), run[1..]);
    }
  }

  /** No caching: an empty transcript, no rows, no calls. */
  const EMPTY := World(File([], 0), None, None, map[])

  lemma EmptyIsSteady(p: Parser, hash: Hash)
    ensures Inv(p, hash, EMPTY)
  {
    assert SteadyAt(p, []);
    forall n | 0 <= n <= |EMPTY.file.content| ensures SteadyAt(p, EMPTY.file.content[..n]) {
      assert EMPTY.file.content[..n] == [];
    }
  }

  /** After any run of appends, calls, crashes and new processes: the summary row holds the full parse of the content with
    * its fingerprint, the cursor is the checkpoint of a full parse of its prefix, and an answered call returned the full
    * parse of the file as it was at some moment since the call began, so of the whole file when that did not grow. */
  lemma CacheIsTransparent(p: Parser, hash: Hash, run: seq<Event>, id: nat)
    requires Possible(p, hash, EMPTY, run)
    ensures var w := After(p, hash, EMPTY, run);
            var content := w.file.content;
            && SummaryOk(p, content, w.summary) && CursorOk(p, hash, content, w.cursor)
            && (id in w.calls && w.calls[id].Answered? ==>
                  var c := w.calls[id];
                  && c.first.size <= c.size <= |content|
                  && c.parsed == FullScan(p, content[..c.size]).result
                  && (c.first.size == |content| ==> c.parsed == FullScan(p, content).result))
  {
    hide FullScan, Possible, Next, Enabled, SummaryOk, CursorOk, Steady;
    EmptyIsSteady(p, hash);
    RunKeeps(p, hash, EMPTY, run);
    var w := After(p, hash, EMPTY, run);
    if id in w.calls && w.calls[id].Answered? {
      assert CallOk(p, hash, w.file.content, w.calls[id]);
      assert w.file.content[..|w.file.content|] == w.file.content;
    }
  }
}
