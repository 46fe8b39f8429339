/** The batched remote probe: what the remote script prints for several runs, how the controller splits it,
    and why nothing a run wrote to its log can be mistaken for a marker. */
module BatchProbe {
  import opened Common
  import opened ExecutionRecords
  import opened Monitoring
  import opened TextLines

  const TAIL_MARKER := "__REMOTE_RUNNER_LOG_TAIL__"
  const END_MARKER := "__REMOTE_RUNNER_LOG_END__"

  // ---------- what is printed ----------

  /** The facts of one run on its machine; `chunks` is how base64 wraps its output. */
  datatype RunFacts = RunFacts(run: RunId, tmuxAlive: string, logExists: string, statusExists: string, pgidExists: string,
                               pgidAlive: string, status: Option<string>, logStat: Option<string>,
                               tail: seq<Byte>, chunks: seq<string>)

  predicate HexDigit(c: char) {
    '0' <= c <= '9' || 'a' <= c <= 'f'
  }

  predicate CurrentRunId(r: RunId) {
    |r| == 19 && r[..3] == "rr-" && forall i :: 3 <= i < 19 ==> HexDigit(r[i])
  }

  /** Single-line values; any log bytes, wrapped in any way. */
  predicate Printable(f: RunFacts) {
    && CurrentRunId(f.run)
    && OneLine(f.tmuxAlive) && OneLine(f.logExists) && OneLine(f.statusExists) && OneLine(f.pgidExists) && OneLine(f.pgidAlive)
    && (f.status.Some? ==> OneLine(f.status.value))
    && (f.logStat.Some? ==> OneLine(f.logStat.value) && StartsWith(f.logStat.value, "log_mtime="))
    && Concat(f.chunks) == Encode(f.tail)
  }

  /** The metadata lines of the single-run probe. */
  function KeyLines(f: RunFacts): seq<string> {
    ["tmux_alive=" + f.tmuxAlive, "log_exists=" + f.logExists, "status_exists=" + f.statusExists,
     "pgid_exists=" + f.pgidExists, "pgid_alive=" + f.pgidAlive]
    + (if f.status.Some? then [STATUS_PREFIX + f.status.value] else [])
  }

  function StatLines(f: RunFacts): seq<string> {
    if f.logStat.Some? then [f.logStat.value] else []
  }

  function MetaLines(f: RunFacts): seq<string> {
    KeyLines(f) + StatLines(f)
  }

  function RunPrefix(r: RunId): string {
    "run=" + r + " "
  }

  function Prefixed(r: RunId, lines: seq<string>): seq<string> {
    if lines == [] then [] else [RunPrefix(r) + lines[0]] + Prefixed(r, lines[1..])
  }

  /** `build_batch_probe_script` for one run: the stat line alone is printed without the prefix. */
  function BatchMeta(f: RunFacts): seq<string> {
    Prefixed(f.run, KeyLines(f)) + StatLines(f)
  }

  function RenderRun(f: RunFacts): seq<string> {
    BatchMeta(f) + [TAIL_MARKER + " run=" + f.run] + f.chunks + [END_MARKER + " run=" + f.run]
  }

  function Render(facts: seq<RunFacts>): seq<string> {
    if facts == [] then [] else RenderRun(facts[0]) + Render(facts[1..])
  }

  // ---------- how it is split ----------

  /** The run a marker line names: the whole line, with a well-formed run id. */
  function MarkedRun(marker: string, line: string): Option<RunId> {
    var prefix := marker + " run=";
    if StartsWith(line, prefix) && CurrentRunId(line[|prefix|..]) then Some(line[|prefix|..]) else None
  }

  datatype Scan = Scan(blocks: map<RunId, seq<string>>, tails: map<RunId, seq<string>>, current: Option<RunId>, pending: seq<string>)

  predicate ScanOk(sc: Scan) {
    sc.current.Some? ==> sc.current.value in sc.tails
  }

  function ScanLine(sc: Scan, line: string): (r: Scan)
    requires ScanOk(sc)
    ensures ScanOk(r)
  {
    var tail, end := MarkedRun(TAIL_MARKER, line), MarkedRun(END_MARKER, line);
    if tail.Some? then
      Scan(sc.blocks[tail.value := sc.pending], if tail.value in sc.tails then sc.tails else sc.tails[tail.value := []], tail, [])
    else if end.Some? && sc.current == end then sc.(current := None)
    else if sc.current.Some? then sc.(tails := sc.tails[sc.current.value := sc.tails[sc.current.value] + [line]])
    else sc.(pending := sc.pending + [line])
  }

  const START := Scan(map[], map[], None, [])

  function ScanLines(sc: Scan, lines: seq<string>): (r: Scan)
    requires ScanOk(sc)
    ensures ScanOk(r)
    decreases |lines|
  {
    if lines == [] then sc else ScanLines(ScanLine(sc, lines[0]), lines[1..])
  }

  function Unprefixed(r: RunId, lines: seq<string>): seq<string> {
    if lines == [] then []
    else [if StartsWith(lines[0], RunPrefix(r)) then lines[0][|RunPrefix(r)|..] else lines[0]] + Unprefixed(r, lines[1..])
  }

  predicate IsSpace(c: char) {
    || IsBreak(c) || c in {' ', '\t', '\U{1F}', '\U{A0}', '\U{1680}', '\U{202F}', '\U{205F}', '\U{3000}'}
    || '\U{2000}' <= c <= '\U{200A}'
  }

  datatype Segment = Segment(metadata: string, tail: seq<Byte>)

  function SegmentOf(sc: Scan, r: RunId): Segment {
    var block := if r in sc.blocks then sc.blocks[r] else [];
    var encoded := if r in sc.tails then Concat(sc.tails[r]) else "";
    var decoded := Decode(Filter((c: char) => !IsSpace(c), encoded));
    Segment(JoinLines(Unprefixed(r, block)), if decoded.Ok? then decoded.value else [])
  }

  function SplitSpec(stdout: string, runs: seq<RunId>): seq<Segment> {
    var sc := ScanLines(START, SplitLines(stdout));
    seq(|runs|, i requires 0 <= i < |runs| => SegmentOf(sc, runs[i]))
  }

  lemma {:induction false} ScanAppend(sc: Scan, xs: seq<string>, ys: seq<string>)
    requires ScanOk(sc)
    ensures ScanLines(sc, xs + ys) == ScanLines(ScanLines(sc, xs), ys)
    decreases |xs|
  {
    if xs == [] {
      assert xs + ys == ys;
    } else {
      assert (xs + ys)[1..] == xs[1..] + ys;
      ScanAppend(ScanLine(sc, xs[0]), xs[1..], ys);
    }
  }

  lemma {:induction false} UnprefixedAppend(r: RunId, xs: seq<string>, ys: seq<string>)
    ensures Unprefixed(r, xs + ys) == Unprefixed(r, xs) + Unprefixed(r, ys)
  {
    if xs == [] {
      assert xs + ys == ys;
    } else {
      assert (xs + ys)[1..] == xs[1..] + ys;
      UnprefixedAppend(r, xs[1..], ys);
    }
  }

  lemma {:induction false} ConcatSnoc(parts: seq<string>, last: string)
    ensures Concat(parts + [last]) == Concat(parts) + last
  {
    if parts == [] {
      assert [] + [last] == [last];
    } else {
      assert (parts + [last])[1..] == parts[1..] + [last];
      ConcatSnoc(parts[1..], last);
    }
  }

  /** `_split_batch_output`: one pass over the lines, then one segment per requested run. */
  method SplitBatchOutput(stdout: string, runs: seq<RunId>) returns (segments: seq<Segment>)
    ensures segments == SplitSpec(stdout, runs)
  {
    var blocks: map<RunId, seq<string>>, tails: map<RunId, seq<string>> := map[], map[];
    var current: Option<RunId> := None;
    var pending: seq<string> := [];
    var lines := SplitLines(stdout);
    assert lines[..0] == [];
    for i := 0 to |lines|
      invariant ScanOk(Scan(blocks, tails, current, pending))
      invariant Scan(blocks, tails, current, pending) == ScanLines(START, lines[..i])
    {
      var line := lines[i];
      ghost var before := Scan(blocks, tails, current, pending);
      ScanAppend(START, lines[..i], [line]);
      assert lines[..i + 1] == lines[..i] + [line];
      assert ScanLines(before, [line]) == ScanLines(ScanLine(before, line), [line][1..]) == ScanLine(before, line);
      var tail, end := MarkedRun(TAIL_MARKER, line), MarkedRun(END_MARKER, line);
      if tail.Some? {
        blocks := blocks[tail.value := pending];
        pending := [];
        current := tail;
        if tail.value !in tails { tails := tails[tail.value := []]; }
      } else if end.Some? && current == end {
        current := None;
      } else if current.Some? {
        tails := tails[current.value := tails[current.value] + [line]];
      } else {
        pending := pending + [line];
      }
    }
    assert lines[..|lines|] == lines;
    segments := [];
    ghost var sc := Scan(blocks, tails, current, pending);
    for i := 0 to |runs|
      invariant segments == SplitSpec(stdout, runs)[..i]
    {
      var segment := BuildSegment(blocks, tails, runs[i], sc);
      segments := segments + [segment];
    }
  }

  method BuildSegment(blocks: map<RunId, seq<string>>, tails: map<RunId, seq<string>>, r: RunId, ghost sc: Scan)
    returns (segment: Segment)
    requires sc.blocks == blocks && sc.tails == tails
    ensures segment == SegmentOf(sc, r)
  {
    var raw := if r in blocks then blocks[r] else [];
    var metadata: seq<string> := [];
    var prefix := RunPrefix(r);
    for j := 0 to |raw|
      invariant metadata == Unprefixed(r, raw[..j])
    {
      var line := raw[j];
      if StartsWith(line, prefix) { line := line[|prefix|..]; }
      metadata := metadata + [line];
      UnprefixedAppend(r, raw[..j], [raw[j]]);
      assert raw[..j + 1] == raw[..j] + [raw[j]];
      assert [raw[j]][1..] == [];
    }
    assert raw[..|raw|] == raw;
    var decoded := Decode(Filter((c: char) => !IsSpace(c), if r in tails then Concat(tails[r]) else ""));
    segment := Segment(JoinLines(metadata), if decoded.Ok? then decoded.value else []);
  }

  // ---------- no log output is taken for a marker ----------

  lemma {:induction false} InSomePart(parts: seq<string>, p: string, c: char)
    requires p in parts && c in p
    ensures c in Concat(parts)
  {
    if p != parts[0] {
      assert p in parts[1..];
      InSomePart(parts[1..], p, c);
    }
  }

  /** However base64 wraps its output, no line of any log tail is a marker of any run. */
  lemma TailsForgeNoMarker(tail: seq<Byte>, chunks: seq<string>, line: string)
    requires Concat(chunks) == Encode(tail) && line in chunks
    ensures MarkedRun(TAIL_MARKER, line) == None && MarkedRun(END_MARKER, line) == None
    ensures OneLine(line) && forall c :: c in line ==> !IsSpace(c)
  {
    EncodedAlphabet(tail);
    forall c | c in line ensures !IsSpace(c) && c != '_' {
      InSomePart(chunks, line, c);
      AlphabetIsPlain(c);
    }
    hide IsSpace, Encode, Concat;
    assert line != "" ==> line[0] in line;
    NotAMarker(line);
  }

  lemma MarkersStartWith(line: string, marker: string)
    requires marker != ""
    ensures MarkedRun(marker, line).Some? ==> line != "" && line[0] == marker[0]
  {
    var prefix := marker + " run=";
    if StartsWith(line, prefix) { assert line[..|prefix|][0] == prefix[0]; }
  }

  /** Nor is a line that starts with anything but an underscore. */
  lemma NotAMarker(line: string)
    requires line != "" ==> line[0] != '_'
    ensures MarkedRun(TAIL_MARKER, line) == None && MarkedRun(END_MARKER, line) == None
  {
    MarkersStartWith(line, TAIL_MARKER);
    MarkersStartWith(line, END_MARKER);
  }

  predicate NoMarkers(lines: seq<string>) {
    forall l :: l in lines ==> MarkedRun(TAIL_MARKER, l) == None && MarkedRun(END_MARKER, l) == None
  }

  lemma OneLineAppend(a: string, b: string)
    requires OneLine(a) && OneLine(b)
    ensures OneLine(a + b)
  {
  }

  lemma {:induction false} PrefixedLines(r: RunId, lines: seq<string>)
    requires CurrentRunId(r) && forall l :: l in lines ==> OneLine(l)
    ensures NoMarkers(Prefixed(r, lines)) && Unprefixed(r, Prefixed(r, lines)) == lines
    ensures forall l :: l in Prefixed(r, lines) ==> OneLine(l)
  {
    if lines != [] {
      var l := RunPrefix(r) + lines[0];
      NotAMarker(l);
      RunIdsArePlain(r);
      OneLineAppend(RunPrefix(r), lines[0]);
      PrefixedLines(r, lines[1..]);
      hide OneLine, MarkedRun, CurrentRunId;
    }
  }

  lemma RunIdsArePlain(r: RunId)
    requires CurrentRunId(r)
    ensures OneLine(r) && OneLine(RunPrefix(r))
  {
    forall c | c in r ensures !IsBreak(c) {
      var i :| 0 <= i < |r| && r[i] == c;
      if i < 3 { assert c == "rr-"[i]; }
    }
  }

  // ---------- the round trip ----------

  lemma {:induction false} ScanMetadata(sc: Scan, lines: seq<string>)
    requires sc.current == None && NoMarkers(lines)
    ensures ScanLines(sc, lines) == sc.(pending := sc.pending + lines)
    decreases |lines|
  {
    if lines == [] {
      assert sc.pending + [] == sc.pending;
    } else {
      assert lines[0] in lines;
      ScanMetadata(ScanLine(sc, lines[0]), lines[1..]);
      assert sc.pending + [lines[0]] + lines[1..] == sc.pending + lines;
    }
  }

  lemma {:induction false} ScanTail(sc: Scan, r: RunId, lines: seq<string>)
    requires sc.current == Some(r) && r in sc.tails && NoMarkers(lines)
    ensures ScanLines(sc, lines) == sc.(tails := sc.tails[r := sc.tails[r] + lines])
    decreases |lines|
  {
    if lines == [] {
      assert sc.tails[r] + [] == sc.tails[r];
    } else {
      assert lines[0] in lines;
      ScanTail(ScanLine(sc, lines[0]), r, lines[1..]);
      assert sc.tails[r] + [lines[0]] + lines[1..] == sc.tails[r] + lines;
    }
  }

  lemma MarkerFound(marker: string, r: RunId)
    requires CurrentRunId(r)
    ensures MarkedRun(marker, marker + " run=" + r) == Some(r)
  {
    assert (marker + " run=" + r)[..|marker + " run="|] == marker + " run=";
    assert (marker + " run=" + r)[|marker + " run="|..] == r;
  }

  lemma EndIsNoTail(r: RunId)
    ensures MarkedRun(TAIL_MARKER, END_MARKER + " run=" + r) == None
  {
    assert (END_MARKER + " run=" + r)[20] == 'E' && (TAIL_MARKER + " run=")[20] == 'T';
  }

  lemma OneScan(sc: Scan, line: string)
    requires ScanOk(sc)
    ensures ScanLines(sc, [line]) == ScanLine(sc, line)
  {
    assert [line][1..] == [];
  }

  lemma BatchMetaLines(f: RunFacts)
    requires Printable(f)
    ensures NoMarkers(BatchMeta(f)) && Unprefixed(f.run, BatchMeta(f)) == MetaLines(f)
    ensures forall l :: l in BatchMeta(f) ==> OneLine(l)
    ensures forall l :: l in MetaLines(f) ==> OneLine(l) && l != ""
  {
    KeyLinesAreLines(f);
    StatLinesAreLines(f);
    hide CurrentRunId, OneLine, MarkedRun;
    PrefixedLines(f.run, KeyLines(f));
    hide KeyLines, StatLines;
    UnprefixedAppend(f.run, Prefixed(f.run, KeyLines(f)), StatLines(f));
  }

  lemma StatLinesAreLines(f: RunFacts)
    requires Printable(f)
    ensures NoMarkers(StatLines(f)) && Unprefixed(f.run, StatLines(f)) == StatLines(f)
    ensures forall l :: l in StatLines(f) ==> OneLine(l) && l != ""
  {
    hide MarkedRun;
    if f.logStat.Some? {
      NotAMarker(f.logStat.value);
      assert f.logStat.value[0] == 'l' && RunPrefix(f.run)[0] == 'r';
      assert [f.logStat.value][1..] == [];
    }
  }

  lemma KeysAreOneLine()
    ensures OneLine("tmux_alive=") && OneLine("log_exists=") && OneLine("status_exists=")
    ensures OneLine("pgid_exists=") && OneLine("pgid_alive=") && OneLine(STATUS_PREFIX)
  {
  }

  lemma KeyLinesAreLines(f: RunFacts)
    requires Printable(f)
    ensures forall l :: l in KeyLines(f) ==> OneLine(l) && l != ""
  {
    hide CurrentRunId;
    KeysAreOneLine();
    hide OneLine;
    OneLineAppend("tmux_alive=", f.tmuxAlive);
    OneLineAppend("log_exists=", f.logExists);
    OneLineAppend("status_exists=", f.statusExists);
    OneLineAppend("pgid_exists=", f.pgidExists);
    OneLineAppend("pgid_alive=", f.pgidAlive);
    if f.status.Some? { OneLineAppend(STATUS_PREFIX, f.status.value); }
  }

  /** One run's output adds its block and its tail, and leaves the splitter ready for the next. */
  lemma ScanRun(sc: Scan, f: RunFacts)
    requires Printable(f) && sc.current == None && sc.pending == [] && f.run !in sc.tails
    ensures ScanLines(sc, RenderRun(f)) == Scan(sc.blocks[f.run := BatchMeta(f)], sc.tails[f.run := f.chunks], None, [])
  {
    var start, end := TAIL_MARKER + " run=" + f.run, END_MARKER + " run=" + f.run;
    hide MarkedRun, BatchMeta, Concat, Encode, CurrentRunId;
    BatchMetaLines(f);
    forall l | l in f.chunks ensures MarkedRun(TAIL_MARKER, l) == None && MarkedRun(END_MARKER, l) == None {
      TailsForgeNoMarker(f.tail, f.chunks, l);
    }
    MarkerFound(TAIL_MARKER, f.run);
    MarkerFound(END_MARKER, f.run);
    EndIsNoTail(f.run);
    hide Printable;
    ScanAppend(sc, BatchMeta(f) + [start] + f.chunks, [end]);
    ScanAppend(sc, BatchMeta(f) + [start], f.chunks);
    ScanAppend(sc, BatchMeta(f), [start]);
    ScanMetadata(sc, BatchMeta(f));
    assert sc.pending + BatchMeta(f) == BatchMeta(f);
    var s1 := sc.(pending := BatchMeta(f));
    OneScan(s1, start);
    var s2 := ScanLine(s1, start);
    ScanTail(s2, f.run, f.chunks);
    assert [] + f.chunks == f.chunks;
    var s3 := s2.(tails := s2.tails[f.run := f.chunks]);
    OneScan(s3, end);
    hide ScanLines;
    assert sc.tails[f.run := []][f.run := f.chunks] == sc.tails[f.run := f.chunks];
  }

  predicate DistinctRuns(facts: seq<RunFacts>) {
    forall i, j :: 0 <= i < j < |facts| ==> facts[i].run != facts[j].run
  }

  /** The splitter holds exactly the blocks and tails of `facts`, beyond what it held before. */
  ghost predicate HoldsOne(r: Scan, f: RunFacts) {
    f.run in r.blocks && r.blocks[f.run] == BatchMeta(f) && f.run in r.tails && r.tails[f.run] == f.chunks
  }

  predicate SameRun(a: Scan, b: Scan, x: RunId) {
    && (x in a.blocks <==> x in b.blocks) && (x in a.blocks ==> a.blocks[x] == b.blocks[x])
    && (x in a.tails <==> x in b.tails) && (x in a.tails ==> a.tails[x] == b.tails[x])
  }

  predicate Mentions(facts: seq<RunFacts>, x: RunId) {
    exists f :: f in facts && f.run == x
  }

  lemma {:induction false} ScanBatch(sc: Scan, facts: seq<RunFacts>)
    requires (forall f :: f in facts ==> Printable(f) && f.run !in sc.tails) && DistinctRuns(facts)
    requires sc.current == None && sc.pending == []
    ensures forall f :: f in facts ==> HoldsOne(ScanLines(sc, Render(facts)), f)
    ensures forall x :: !Mentions(facts, x) ==> SameRun(ScanLines(sc, Render(facts)), sc, x)
    decreases |facts|
  {
    if facts != [] {
      var f, rest := facts[0], facts[1..];
      var next := Scan(sc.blocks[f.run := BatchMeta(f)], sc.tails[f.run := f.chunks], None, []);
      assert f in facts;
      ScanRun(sc, f);
      ScanAppend(sc, RenderRun(f), Render(rest));
      RestDiffers(facts);
      hide Printable, RenderRun, BatchMeta, ScanLines;
      ScanBatch(next, rest);
      var r := ScanLines(next, Render(rest));
      assert !Mentions(rest, f.run);
      assert SameRun(r, next, f.run);
      assert HoldsOne(r, f);
      forall x | !Mentions(facts, x) ensures SameRun(r, sc, x) {
        assert f.run != x && !Mentions(rest, x);
        assert SameRun(r, next, x);
      }
    }
  }

  lemma RestDiffers(facts: seq<RunFacts>)
    requires facts != [] && DistinctRuns(facts)
    ensures DistinctRuns(facts[1..]) && forall g :: g in facts[1..] ==> g in facts && g.run != facts[0].run
  {
    forall g | g in facts[1..] ensures g in facts && g.run != facts[0].run {
      var i :| 0 <= i < |facts[1..]| && facts[1..][i] == g;
      assert g == facts[i + 1];
    }
  }

  lemma {:induction false} KeepAll(s: string)
    requires forall c :: c in s ==> !IsSpace(c)
    ensures Filter((c: char) => !IsSpace(c), s) == s
  {
    if s != [] {
      assert s[0] in s;
      KeepAll(s[1..]);
    }
  }

  lemma MarkerPrefixesAreLines()
    ensures OneLine(TAIL_MARKER + " run=") && OneLine(END_MARKER + " run=")
  {
  }

  lemma {:induction false} RenderedLines(facts: seq<RunFacts>)
    requires forall f :: f in facts ==> Printable(f)
    ensures forall l :: l in Render(facts) ==> OneLine(l)
  {
    if facts != [] {
      var f := facts[0];
      assert f in facts;
      MarkerPrefixesAreLines();
      hide OneLine, BatchMeta, Encode, Concat;
      BatchMetaLines(f);
      RunIdsArePlain(f.run);
      OneLineAppend(TAIL_MARKER + " run=", f.run);
      OneLineAppend(END_MARKER + " run=", f.run);
      forall l | l in f.chunks ensures OneLine(l) { TailsForgeNoMarker(f.tail, f.chunks, l); }
      RenderedLines(facts[1..]);
      hide Printable;
    }
  }

  /** Splitting what the script prints gives every requested run its own metadata lines and exactly its tail bytes. */
  lemma BatchRoundTrip(facts: seq<RunFacts>, i: nat)
    requires (forall f :: f in facts ==> Printable(f)) && DistinctRuns(facts) && i < |facts|
    ensures var segments := SplitSpec(Unlines(Render(facts)), seq(|facts|, k requires 0 <= k < |facts| => facts[k].run));
            segments[i] == Segment(JoinLines(MetaLines(facts[i])), facts[i].tail)
            && SplitLines(segments[i].metadata) == MetaLines(facts[i])
  {
    hide OneLine, CurrentRunId, Concat, MetaLines;
    var f := facts[i];
    RenderedLines(facts);
    UnlinesSplit(Render(facts));
    ScanBatch(START, facts);
    BatchMetaLines(f);
    assert HoldsOne(ScanLines(START, Render(facts)), f);
    EncodedAlphabet(f.tail);
    forall c | c in Encode(f.tail) ensures !IsSpace(c) { AlphabetIsPlain(c); }
    hide IsSpace, Encode, Decode, ScanLines, Render, BatchMeta;
    KeepAll(Encode(f.tail));
    DecodeEncode(f.tail);
    MetaRoundTrip(f);
  }

  lemma MetaRoundTrip(f: RunFacts)
    requires Printable(f)
    ensures SplitLines(JoinLines(MetaLines(f))) == MetaLines(f) && SplitLines(Unlines(MetaLines(f))) == MetaLines(f)
  {
    BatchMetaLines(f);
    JoinSplit(MetaLines(f));
    UnlinesSplit(MetaLines(f));
  }

  // ---------- agreement with the single-run probe ----------

  /** Where `mark` first occurs. */
  function Find(text: string, mark: string): (r: Option<nat>)
    ensures r.Some? ==> r.value + |mark| <= |text|
  {
    if StartsWith(text, mark) then Some(0)
    else if text == "" then None
    else
      var rest := Find(text[1..], mark);
      if rest.Some? then Some(rest.value + 1) else None
  }

  /** What is before and after the first occurrence of `mark`. */
  function SplitAt(text: string, mark: string): (string, string) {
    var at := Find(text, mark);
    if at.None? then (text, "") else (text[..at.value], text[at.value + |mark|..])
  }

  /** `split_probe_output`: metadata before the first tail marker line, log text after it. */
  function SplitProbeOutput(text: string): (string, string) {
    SplitAt(text, Ended(TAIL_MARKER))
  }

  /** What the single-run command prints, as text. */
  function SingleText(f: RunFacts, log: string): string {
    Unlines(MetaLines(f)) + (Ended(TAIL_MARKER) + log)
  }

  /** A mark made of one line and its end does not begin inside a line that ends differently. */
  lemma {:induction false} PastOneLine(line: string, rest: string, mark: string)
    requires OneLine(line) && OneLine(mark) && !EndsWith(line, mark)
    ensures Find(line + "\n" + rest, Ended(mark)) == Later(Find(rest, Ended(mark)), |line| + 1)
  {
    var text := line + "\n" + rest;
    NoStart(line, rest, mark);
    hide Ended, StartsWith;
    if line == "" {
      assert text[1..] == rest;
    } else {
      assert text[1..] == line[1..] + "\n" + rest;
      assert line[0] in line && OneLine(line[1..]);
      ShorterEnd(line, mark);
      PastOneLine(line[1..], rest, mark);
    }
  }

  predicate EndsWith(line: string, mark: string) {
    |mark| <= |line| && line[|line| - |mark|..] == mark
  }

  lemma ShorterEnd(line: string, mark: string)
    requires line != "" && !EndsWith(line, mark)
    ensures !EndsWith(line[1..], mark)
  {
    if |mark| < |line| { assert line[1..][|line| - 1 - |mark|..] == line[|line| - |mark|..]; }
  }

  function Ended(line: string): string {
    line + "\n"
  }

  function Later(at: Option<nat>, n: nat): Option<nat> {
    if at.Some? then Some(at.value + n) else None
  }

  lemma NoStart(line: string, rest: string, mark: string)
    requires OneLine(line) && OneLine(mark) && !EndsWith(line, mark)
    ensures !StartsWith(line + "\n" + rest, Ended(mark))
  {
    var text, m := line + "\n" + rest, mark + "\n";
    if |line| < |mark| {
      assert m[|line|] in mark && text[|line|] == '\n';
      StartsAt(text, m, |line|);
    } else if |line| > |mark| {
      assert text[|mark|] in line && m[|mark|] == '\n';
      StartsAt(text, m, |mark|);
    } else {
      assert line[0..] == line && text[..|m|][..|mark|] == line && m[..|mark|] == mark;
    }
  }

  lemma StartsAt(text: string, m: string, k: nat)
    requires k < |m|
    ensures StartsWith(text, m) ==> k < |text| && text[k] == m[k]
  {
    if StartsWith(text, m) { assert text[..|m|][k] == m[k]; }
  }

  /** Single lines, none of which ends in the mark. */
  predicate Avoids(lines: seq<string>, mark: string) {
    forall l :: l in lines ==> OneLine(l) && !EndsWith(l, mark)
  }

  lemma {:induction false} PastLines(lines: seq<string>, rest: string, mark: string)
    requires OneLine(mark) && Avoids(lines, mark)
    ensures Find(Unlines(lines) + rest, Ended(mark)) == Later(Find(rest, Ended(mark)), |Unlines(lines)|)
  {
    hide Find, OneLine, Ended;
    if lines == [] {
      assert Unlines(lines) + rest == rest;
    } else {
      var tail := Unlines(lines[1..]) + rest;
      AvoidedByAll(lines, mark);
      hide Unlines, Avoids, EndsWith;
      PastLines(lines[1..], rest, mark);
      FirstOfLines(lines, rest);
      PastOneLine(lines[0], tail, mark);
    }
  }

  lemma AvoidedByAll(lines: seq<string>, mark: string)
    requires lines != [] && Avoids(lines, mark)
    ensures OneLine(lines[0]) && !EndsWith(lines[0], mark) && Avoids(lines[1..], mark)
  {
    hide OneLine;
    assert lines[0] in lines;
  }

  lemma FirstOfLines(lines: seq<string>, rest: string)
    requires lines != []
    ensures Unlines(lines) + rest == lines[0] + "\n" + (Unlines(lines[1..]) + rest)
    ensures |Unlines(lines)| == |lines[0]| + 1 + |Unlines(lines[1..])|
  {
    var a, b := lines[0] + "\n", Unlines(lines[1..]);
    assert (a + b) + rest == a + (b + rest);
  }

  lemma FoundAtOnce(mark: string, log: string)
    ensures Find(mark + log, mark) == Some(0)
  {
    assert (mark + log)[..|mark|] == mark;
  }

  lemma TailMarkerIsOneLine()
    ensures OneLine(TAIL_MARKER)
  {
  }

  lemma SplitAtMark(lines: seq<string>, mark: string, log: string)
    requires OneLine(mark) && Avoids(lines, mark)
    ensures SplitAt(Unlines(lines) + (Ended(mark) + log), Ended(mark)) == (Unlines(lines), log)
  {
    hide Find, Unlines, OneLine, Ended;
    FoundAtOnce(Ended(mark), log);
    PastLines(lines, Ended(mark) + log, mark);
    PartsOf(Unlines(lines), Ended(mark), log);
  }

  lemma PartsOf(front: string, mark: string, back: string)
    ensures (front + (mark + back))[..|front|] == front && (front + (mark + back))[|front| + |mark|..] == back
  {
  }

  lemma {:induction false} FindIsFirst(text: string, mark: string, i: nat)
    requires i <= |text| && StartsWith(text[i..], mark)
    ensures Find(text, mark).Some? && Find(text, mark).value <= i
  {
    if i == 0 {
      assert text[0..] == text;
    } else if !StartsWith(text, mark) {
      assert text[1..][i - 1..] == text[i..];
      FindIsFirst(text[1..], mark, i - 1);
    }
  }

  /** A line that does end in the mark is found before its own end. */
  lemma {:induction false} FoundInside(lines: seq<string>, rest: string, mark: string, k: nat)
    requires k < |lines| && EndsWith(lines[k], mark)
    ensures exists i :: 0 <= i < |Unlines(lines)| && StartsWith((Unlines(lines) + rest)[i..], Ended(mark))
  {
    hide StartsWith, Ended, EndsWith;
    var line, tail := lines[0], Unlines(lines[1..]) + rest;
    FirstOfLines(lines, rest);
    if k == 0 {
      var i := FoundAtItsEnd(line, tail, mark);
      assert i < |Unlines(lines)| && StartsWith((Unlines(lines) + rest)[i..], Ended(mark));
    } else {
      FoundInside(lines[1..], rest, mark, k - 1);
      var i :| 0 <= i < |Unlines(lines[1..])| && StartsWith(tail[i..], Ended(mark));
      hide Unlines;
      PastTheFirst(line, tail, i);
      assert |line| + 1 + i < |Unlines(lines)| && StartsWith((Unlines(lines) + rest)[|line| + 1 + i..], Ended(mark));
    }
  }

  lemma FoundAtItsEnd(line: string, tail: string, mark: string) returns (i: nat)
    requires EndsWith(line, mark)
    ensures i <= |line| && StartsWith((line + "\n" + tail)[i..], Ended(mark))
  {
    i := |line| - |mark|;
    assert (line + "\n" + tail)[i..] == line[i..] + "\n" + tail;
    assert (mark + "\n" + tail)[..|mark| + 1] == mark + "\n";
  }

  lemma PastTheFirst(line: string, tail: string, i: nat)
    requires i <= |tail|
    ensures (line + "\n" + tail)[|line| + 1 + i..] == tail[i..]
  {
  }

  /** The single-run probe reads back its metadata and the log text, whatever the log says, exactly when
      no metadata line ends in the tail marker. */
  lemma SingleRoundTripExactly(f: RunFacts, log: string)
    requires Printable(f)
    ensures SplitProbeOutput(SingleText(f, log)) == (Unlines(MetaLines(f)), log)
            <==> forall l :: l in MetaLines(f) ==> !EndsWith(l, TAIL_MARKER)
  {
    hide MetaLines, Printable, Unlines, OneLine, Ended, Find, EndsWith, StartsWith;
    BatchMetaLines(f);
    TailMarkerIsOneLine();
    var lines, rest := MetaLines(f), Ended(TAIL_MARKER) + log;
    if forall l :: l in lines ==> !EndsWith(l, TAIL_MARKER) {
      SplitAtMark(lines, TAIL_MARKER, log);
    } else {
      var k :| 0 <= k < |lines| && EndsWith(lines[k], TAIL_MARKER);
      FoundInside(lines, rest, TAIL_MARKER, k);
      var i :| 0 <= i < |Unlines(lines)| && StartsWith((Unlines(lines) + rest)[i..], Ended(TAIL_MARKER));
      FindIsFirst(Unlines(lines) + rest, Ended(TAIL_MARKER), i);
    }
  }

  /** What the controller gets from the single-run command: the output is decoded strictly, so undecodable log
      bytes fail the whole probe, and read in text mode. `strict` is the strict decoding of log bytes. */
  function SingleOutput(f: RunFacts, strict: seq<Byte> -> Option<string>): Option<string> {
    var log := strict(f.tail);
    if log.None? then None else Some(FoldNewlines(SingleText(f, log.value)))
  }

  /** The log text each probe ends up with; the batch decodes its tail bytes with replacement characters. */
  function SingleLog(f: RunFacts, strict: seq<Byte> -> Option<string>): Option<string> {
    var output := SingleOutput(f, strict);
    if output.None? then None else Some(SplitProbeOutput(output.value).1)
  }

  function BatchSegments(facts: seq<RunFacts>): seq<Segment> {
    SplitSpec(Unlines(Render(facts)), seq(|facts|, k requires 0 <= k < |facts| => facts[k].run))
  }

  /** Text mode changes nothing but the log. */
  lemma OnlyTheLogIsFolded(f: RunFacts, log: string)
    requires Printable(f)
    ensures FoldNewlines(SingleText(f, log)) == SingleText(f, FoldNewlines(log))
  {
    hide Printable, MetaLines, Unlines, OneLine, FoldNewlines;
    BatchMetaLines(f);
    TailMarkerIsOneLine();
    MarkHoldsNoReturn();
    UnlinesHoldNoReturn(MetaLines(f));
    var front := Unlines(MetaLines(f)) + Ended(TAIL_MARKER);
    FoldBehind(front, log);
    assert front + log == SingleText(f, log);
    assert front + FoldNewlines(log) == SingleText(f, FoldNewlines(log));
  }

  lemma MarkHoldsNoReturn()
    ensures CR !in Ended(TAIL_MARKER)
  {
  }

  /** MAIN: for every run of a batch both probes of the same remote facts come to the same observation, liveness
      and status record, whenever the single-run probe comes to any. */
  lemma BatchAgreesWithSingle(facts: seq<RunFacts>, i: nat, strict: seq<Byte> -> Option<string>, stored: Status,
                              decode: string -> Decoded)
    requires (forall f :: f in facts ==> Printable(f)) && DistinctRuns(facts) && i < |facts|
    requires forall l :: l in MetaLines(facts[i]) ==> !EndsWith(l, TAIL_MARKER)
    ensures var output := SingleOutput(facts[i], strict);
            output.Some? ==>
              ProbeFromParts(facts[i].run, stored, SplitLines(BatchSegments(facts)[i].metadata), decode)
              == ProbeFromParts(facts[i].run, stored, SplitLines(SplitProbeOutput(output.value).0), decode)
  {
    hide ProbeFromParts, SplitSpec, SplitProbeOutput, Printable, Render, SingleText, FoldNewlines, EndsWith;
    BatchRoundTrip(facts, i);
    MetaRoundTrip(facts[i]);
    var log := strict(facts[i].tail);
    if log.Some? {
      OnlyTheLogIsFolded(facts[i], log.value);
      SingleRoundTripExactly(facts[i], FoldNewlines(log.value));
    }
  }

  /** MAIN: the log texts are the same if and only if the log bytes decode strictly and hold no carriage
      return; all that is known of the two decodings is that they agree where the strict one succeeds. */
  lemma LogTextsAgreeExactly(facts: seq<RunFacts>, i: nat, strict: seq<Byte> -> Option<string>, lenient: seq<Byte> -> string)
    requires (forall f :: f in facts ==> Printable(f)) && DistinctRuns(facts) && i < |facts|
    requires forall l :: l in MetaLines(facts[i]) ==> !EndsWith(l, TAIL_MARKER)
    requires forall bs :: strict(bs).Some? ==> lenient(bs) == strict(bs).value
    ensures SingleLog(facts[i], strict) == Some(lenient(BatchSegments(facts)[i].tail))
            <==> strict(facts[i].tail).Some? && CR !in strict(facts[i].tail).value
  {
    hide SplitSpec, SplitProbeOutput, Printable, Render, SingleText, FoldNewlines, EndsWith;
    BatchRoundTrip(facts, i);
    var log := strict(facts[i].tail);
    if log.Some? {
      OnlyTheLogIsFolded(facts[i], log.value);
      SingleRoundTripExactly(facts[i], FoldNewlines(log.value));
      FoldKeepsExactly(log.value);
    }
  }

  /** Two logs for which they differ under UTF-8: a progress bar's carriage return, and a byte that is no text. */
  lemma LogTextsCanDiffer(f: RunFacts, strict: seq<Byte> -> Option<string>, lenient: seq<Byte> -> string)
    requires Printable(f) && (forall l :: l in MetaLines(f) ==> !EndsWith(l, TAIL_MARKER))
    requires forall bs :: strict(bs).Some? ==> lenient(bs) == strict(bs).value
    requires strict([65, 13, 66]) == Some("A\rB") && strict([255]) == None
    requires f.tail == [65, 13, 66] || f.tail == [255]
    ensures SingleLog(f, strict) == if f.tail == [255] then None else Some("A\nB")
    ensures SingleLog(f, strict) != Some(lenient(BatchSegments([f])[0].tail))
  {
    hide SplitSpec, SplitProbeOutput, Printable, Render, SingleText, EndsWith, MetaLines, FoldNewlines;
    FoldExample();
    LogTextsAgreeExactly([f], 0, strict, lenient);
    if f.tail == [65, 13, 66] {
      OnlyTheLogIsFolded(f, "A\rB");
      SingleRoundTripExactly(f, "A\nB");
    }
  }

  lemma FoldExample()
    ensures FoldNewlines("A\rB") == "A\nB" && CR in "A\rB"
  {
    assert "A\rB"[1..] == "\rB" && "\rB"[1..] == "B" && "B"[1..] == "";
    assert FoldNewlines("B") == "B";
    assert FoldNewlines("\rB") == "\n" + "B";
    assert "A\rB"[1] == CR;
  }
}
