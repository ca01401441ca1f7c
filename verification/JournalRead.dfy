/** The journal read back: a line gives its fields, and a file its entries. */
module JournalRead {
  import opened Wrappers
  import opened Delimited
  import opened Decimal
  import opened Symbolic
  import opened Journal

  datatype Row = Row(seqNo: nat, ts: string, stage: string, target: string, evidence: string, hash: string)

  // ---------------------------------------------------------------- a reader for one line

  /** What comes before the first `d`, and what after it. */
  function Cut(d: char, s: string): Option<(string, string)> {
    if s == "" then None
    else if s[0] == d then Some(("", s[1..]))
    else
      match Cut(d, s[1..])
      case None => None
      case Some(parts) => Some(([s[0]] + parts.0, parts.1))
  }

  /** The same for the first quote that no backslash escapes. */
  function CutEscaped(s: string): Option<(string, string)>
    decreases |s|
  {
    if s == "" then None
    else if s[0] == '"' then Some(("", s[1..]))
    else if s[0] == '\\' && |s| == 1 then None
    else
      var n := if s[0] == '\\' then 2 else 1;
      match CutEscaped(s[n..])
      case None => None
      case Some(parts) => Some((s[..n] + parts.0, parts.1))
  }

  function Expect(s: string, start: string): Option<string> {
    if start <= s then Some(s[|start|..]) else None
  }

  /** The text behind this label, up to the next quote. */
  function Plain(s: string, start: string): Option<(string, string)> {
    match Expect(s, start)
    case None => None
    case Some(rest) => Cut('"', rest)
  }

  function ReadHash(s: string, seqNo: nat, ts: string, stage: string, target: string, evidence: string): Option<Row> {
    match Plain(s, Label("hash"))
    case None => None
    case Some(p) => if p.1 == "}" then Some(Row(seqNo, ts, stage, target, evidence, p.0)) else None
  }

  function ReadEvidence(s: string, seqNo: nat, ts: string, stage: string, target: string): Option<Row> {
    match Expect(s, Label("evidence"))
    case None => None
    case Some(rest) =>
      match CutEscaped(rest)
      case None => None
      case Some(p) =>
        match Unescape(p.0)
        case None => None
        case Some(evidence) => ReadHash(p.1, seqNo, ts, stage, target, evidence)
  }

  function ReadTarget(s: string, seqNo: nat, ts: string, stage: string): Option<Row> {
    match Plain(s, Label("target"))
    case None => None
    case Some(p) => ReadEvidence(p.1, seqNo, ts, stage, p.0)
  }

  const STAGE_LABEL: string := "\"stage\":\""

  function ReadStage(s: string, seqNo: nat, ts: string): Option<Row> {
    match Plain(s, STAGE_LABEL)
    case None => None
    case Some(p) => ReadTarget(p.1, seqNo, ts, p.0)
  }

  function ReadTime(s: string, seqNo: nat): Option<Row> {
    match Expect(s, "\"ts\":")
    case None => None
    case Some(rest) =>
      match Cut(',', rest)
      case None => None
      case Some(p) => ReadStage(p.1, seqNo, p.0)
  }

  function ReadLine(line: string): Option<Row> {
    match Expect(line, "{" + PATTERN)
    case None => None
    case Some(rest) =>
      match Cut(',', rest)
      case None => None
      case Some(p) => if AllDigits(p.0) then ReadTime(p.1, Number(p.0)) else None
  }

  function RowOf(seqNo: U64, e: Entry): Row {
    Row(seqNo, PrintInt(e.ts), e.stage, e.target, e.evidence, e.hash)
  }

  ghost predicate QuoteFree(e: Entry) {
    Free('"', e.stage) && Free('"', e.target) && Free('"', e.hash)
  }

  // ---------------------------------------------------------------- it reads what was written

  lemma {:induction false} CutAt(d: char, a: string, b: string)
    requires Free(d, a)
    ensures Cut(d, a + [d] + b) == Some((a, b))
  {
    var s := a + [d] + b;
    if a == "" {
      assert s[1..] == b;
    } else {
      assert s[1..] == a[1..] + [d] + b;
      assert forall i :: 0 <= i < |a[1..]| ==> a[1..][i] == a[i + 1];
      CutAt(d, a[1..], b);
      assert [a[0]] + a[1..] == a;
    }
  }

  lemma {:induction false} CutIsFree(d: char, s: string)
    ensures Cut(d, s).Some? ==> Free(d, Cut(d, s).value.0)
  {
    if s != "" { CutIsFree(d, s[1..]); }
  }

  lemma ExpectAt(start: string, rest: string)
    ensures Expect(start + rest, start) == Some(rest)
  {
  }

  lemma PlainAt(start: string, text: string, rest: string)
    requires Free('"', text)
    ensures Plain(start + text + "\"" + rest, start) == Some((text, rest))
  {
    assert start + text + "\"" + rest == start + (text + ['"'] + rest);
    ExpectAt(start, text + ['"'] + rest);
    CutAt('"', text, rest);
  }

  /** One character that is neither a quote nor a backslash. */
  lemma StepPlain(c: char, s: string)
    requires c != '"' && c != '\\'
    ensures CutEscaped([c] + s) == match CutEscaped(s) case None => None case Some(p) => Some(([c] + p.0, p.1))
  {
    assert ([c] + s)[1..] == s && ([c] + s)[..1] == [c];
  }

  lemma StepEscaped(c: char, s: string)
    ensures CutEscaped(['\\', c] + s) == match CutEscaped(s) case None => None case Some(p) => Some((['\\', c] + p.0, p.1))
  {
    assert (['\\', c] + s)[2..] == s && (['\\', c] + s)[..2] == ['\\', c];
  }

  /** An escaped character never ends the text. */
  lemma StepChar(c: char, s: string, text: string, rest: string)
    requires CutEscaped(s) == Some((text, rest))
    ensures CutEscaped(EscapeChar(c) + s) == Some((EscapeChar(c) + text, rest))
  {
    if c == '"' || c == '\\' {
      StepEscaped(c, s);
    } else if c == '\n' {
      StepEscaped('n', s);
    } else if c == '\t' {
      StepEscaped('t', s);
    } else if c as int < 0x20 {
      StepUnicode(HexDigit(c as int / 16), HexDigit(c as int % 16), s, text, rest);
    } else {
      StepPlain(c, s);
    }
  }

  lemma StepTwo(c: char, d: char, s: string, text: string, rest: string)
    requires CutEscaped(s) == Some((text, rest)) && c != '"' && c != '\\' && d != '"' && d != '\\'
    ensures CutEscaped([c, d] + s) == Some(([c, d] + text, rest))
  {
    StepPlain(d, s);
    StepPlain(c, [d] + s);
    assert [c] + ([d] + s) == [c, d] + s && [c] + ([d] + text) == [c, d] + text;
  }

  lemma SixInTwos(a: char, b: char, c: char, d: char, e: char, f: char, s: string)
    ensures [a, b] + ([c, d] + ([e, f] + s)) == [a, b, c, d, e, f] + s
  {
    assert [a, b] + ([c, d] + [e, f]) == [a, b, c, d, e, f];
  }

  lemma StepUnicode(h: char, l: char, s: string, text: string, rest: string)
    requires CutEscaped(s) == Some((text, rest)) && h != '"' && h != '\\' && l != '"' && l != '\\'
    ensures CutEscaped(['\\', 'u', '0', '0', h, l] + s) == Some((['\\', 'u', '0', '0', h, l] + text, rest))
  {
    var s2, text2 := [h, l] + s, [h, l] + text;
    var s4, text4 := ['0', '0'] + s2, ['0', '0'] + text2;
    StepTwo(h, l, s, text, rest);
    StepTwo('0', '0', s2, text2, rest);
    StepEscaped('u', s4);
    SixInTwos('\\', 'u', '0', '0', h, l, s);
    SixInTwos('\\', 'u', '0', '0', h, l, text);
  }

  lemma {:induction false} CutEscapeAt(evidence: string, rest: string)
    ensures CutEscaped(Escape(evidence) + "\"" + rest) == Some((Escape(evidence), rest))
  {
    if evidence == "" {
      assert Escape(evidence) + "\"" + rest == ['"'] + rest;
      assert (['"'] + rest)[1..] == rest;
    } else {
      var c, more := evidence[0], Escape(evidence[1..]);
      CutEscapeAt(evidence[1..], rest);
      assert Escape(evidence) + "\"" + rest == EscapeChar(c) + (more + "\"" + rest);
      StepChar(c, more + "\"" + rest, more, rest);
    }
  }

  // The rest of a line from each field on.
  function HashOn(e: Entry): string { Label("hash") + e.hash + "\"" + "}" }
  function EvidenceOn(e: Entry): string { Label("evidence") + (Escape(e.evidence) + "\"" + HashOn(e)) }
  function TargetOn(e: Entry): string { Label("target") + e.target + "\"" + EvidenceOn(e) }
  function StageOn(e: Entry): string { STAGE_LABEL + e.stage + "\"" + TargetOn(e) }

  lemma HashReads(e: Entry, n: nat, ts: string, stage: string, target: string, evidence: string)
    requires Free('"', e.hash)
    ensures ReadHash(HashOn(e), n, ts, stage, target, evidence) == Some(Row(n, ts, stage, target, evidence, e.hash))
  {
    PlainAt(Label("hash"), e.hash, "}");
  }

  lemma EvidenceReads(e: Entry, n: nat, ts: string, stage: string, target: string)
    requires Free('"', e.hash)
    ensures ReadEvidence(EvidenceOn(e), n, ts, stage, target) == Some(Row(n, ts, stage, target, e.evidence, e.hash))
  {
    ExpectAt(Label("evidence"), Escape(e.evidence) + "\"" + HashOn(e));
    CutEscapeAt(e.evidence, HashOn(e));
    UnescapeEscape(e.evidence);
    HashReads(e, n, ts, stage, target, e.evidence);
  }

  lemma TargetReads(e: Entry, n: nat, ts: string, stage: string)
    requires Free('"', e.target) && Free('"', e.hash)
    ensures ReadTarget(TargetOn(e), n, ts, stage) == Some(Row(n, ts, stage, e.target, e.evidence, e.hash))
  {
    PlainAt(Label("target"), e.target, EvidenceOn(e));
    EvidenceReads(e, n, ts, stage, e.target);
  }

  lemma StageReads(e: Entry, n: nat, ts: string)
    requires QuoteFree(e)
    ensures ReadStage(StageOn(e), n, ts) == Some(Row(n, ts, e.stage, e.target, e.evidence, e.hash))
  {
    PlainAt(STAGE_LABEL, e.stage, TargetOn(e));
    TargetReads(e, n, ts, e.stage);
  }

  lemma CommaFirst(name: string)
    requires name == "stage"
    ensures Label(name) == "," + STAGE_LABEL
  {
  }

  lemma Regroup(ts: string, stage: string, target: string, evidence: string, hash: string)
    ensures ts + Field("stage", stage) + Field("target", target) + Field("evidence", evidence) + Field("hash", hash) + "}"
         == ts + "," + (STAGE_LABEL + stage + "\"" + (Label("target") + target + "\"" + (Label("evidence") + (evidence + "\"" +
            (Label("hash") + hash + "\"" + "}")))))
  {
    CommaFirst("stage");
    var h := Label("hash") + hash + "\"" + "}";
    var e := Label("evidence") + (evidence + "\"" + h);
    var t := Label("target") + target + "\"" + e;
    assert Field("hash", hash) + "}" == h;
    assert Field("evidence", evidence) + h == e;
    assert Field("target", target) + e == t;
    assert Field("stage", stage) + t == "," + (STAGE_LABEL + stage + "\"" + t);
    FiveParts(ts, Field("stage", stage), Field("target", target), Field("evidence", evidence), Field("hash", hash), "}");
    Assoc(ts, ",", STAGE_LABEL + stage + "\"" + t);
  }

  lemma FiveParts(a: string, b: string, c: string, d: string, e: string, f: string)
    ensures a + b + c + d + e + f == a + (b + (c + (d + (e + f))))
  {
  }

  lemma DetailsAre(e: Entry)
    ensures Details(e) == "\"ts\":" + (PrintInt(e.ts) + [','] + StageOn(e))
  {
    Regroup("\"ts\":" + PrintInt(e.ts), e.stage, e.target, Escape(e.evidence), e.hash);
    Assoc("\"ts\":", PrintInt(e.ts), ",");
    Assoc("\"ts\":", PrintInt(e.ts) + ",", StageOn(e));
  }

  lemma RecordIs(n: U64, rest: string)
    ensures Numbered(n, rest) == ("{" + PATTERN) + (Print(n) + [','] + rest)
  {
  }

  /** A line whose plain fields have no quotes gives its number, time, stage, target, evidence and hash back. */
  lemma {:induction false} LineReads(n: U64, e: Entry)
    requires QuoteFree(e)
    ensures ReadLine(Record(n, e)) == Some(RowOf(n, e))
  {
    RecordIs(n, Details(e));
    ExpectAt("{" + PATTERN, Print(n) + [','] + Details(e));
    assert Free(',', Print(n)) && Free(',', PrintInt(e.ts));
    CutAt(',', Print(n), Details(e));
    NumberPrint(n);
    DetailsAre(e);
    ExpectAt("\"ts\":", PrintInt(e.ts) + [','] + StageOn(e));
    CutAt(',', PrintInt(e.ts), StageOn(e));
    StageReads(e, n, PrintInt(e.ts));
  }

  lemma PlainIsFree(s: string, start: string)
    ensures Plain(s, start).Some? ==> Free('"', Plain(s, start).value.0)
  {
    if start <= s { CutIsFree('"', s[|start|..]); }
  }

  ghost predicate RowFree(r: Row) { Free('"', r.stage) && Free('"', r.target) && Free('"', r.hash) }

  lemma EvidenceFree(s: string, n: nat, ts: string, stage: string, target: string)
    requires Free('"', stage) && Free('"', target)
    ensures ReadEvidence(s, n, ts, stage, target).Some? ==> RowFree(ReadEvidence(s, n, ts, stage, target).value)
  {
    var rest := Expect(s, Label("evidence"));
    if rest.Some? && CutEscaped(rest.value).Some? { PlainIsFree(CutEscaped(rest.value).value.1, Label("hash")); }
  }

  lemma StageFree(s: string, n: nat, ts: string)
    ensures ReadStage(s, n, ts).Some? ==> RowFree(ReadStage(s, n, ts).value)
  {
    PlainIsFree(s, STAGE_LABEL);
    var p := Plain(s, STAGE_LABEL);
    if p.Some? {
      PlainIsFree(p.value.1, Label("target"));
      var q := Plain(p.value.1, Label("target"));
      if q.Some? { EvidenceFree(q.value.1, n, ts, p.value.0, q.value.0); }
    }
  }

  lemma ReadIsFree(line: string)
    ensures ReadLine(line).Some? ==> RowFree(ReadLine(line).value)
  {
    var rest := Expect(line, "{" + PATTERN);
    if rest.Some? && Cut(',', rest.value).Some? {
      var p := Cut(',', rest.value).value;
      var time := Expect(p.1, "\"ts\":");
      if AllDigits(p.0) && time.Some? && Cut(',', time.value).Some? {
        StageFree(Cut(',', time.value).value.1, Number(p.0), Cut(',', time.value).value.0);
      }
    }
  }

  /** A line gives all its fields back if and only if stage, target and hash, which are written as they are, have no quotes. */
  lemma {:induction false} LineReadsIff(n: U64, e: Entry)
    ensures ReadLine(Record(n, e)) == Some(RowOf(n, e)) <==> QuoteFree(e)
  {
    if QuoteFree(e) { LineReads(n, e); } else { ReadIsFree(Record(n, e)); }
  }

  /** Equal lines are of one number, time, stage, target, evidence and hash. */
  lemma LineDetermines(n: U64, e: Entry, n': U64, e': Entry)
    requires QuoteFree(e) && QuoteFree(e') && Record(n, e) == Record(n', e')
    ensures RowOf(n, e) == RowOf(n', e')
  {
    LineReads(n, e);
    LineReads(n', e');
  }

  // ---------------------------------------------------------------- the file

  lemma {:induction false} OneDetailLine(e: Entry)
    requires OneLine(e)
    ensures DetailLines(e) == [Details(e)] && Open('\n', Details(e) + "\n") == ""
  {
    DetailsFree(e);
    FreeIsOpen('\n', Details(e));
    ClosedSnoc('\n', Details(e), '\n');
  }

  /** An append to a file without an open end adds one line, after the rotation if there is one. */
  lemma {:induction false} AppendedLine(file: string, n: U64, e: Entry)
    requires OneLine(e) && Torn(file) == ""
    ensures var f := Appended(file, n, e);
            && Torn(f) == ""
            && Closed('\n', f) == (if e.rotate && |file| > 10485760 then [] else Closed('\n', file)) + [Record(n, e)]
  {
    var base := Rotated(file, e);
    OneDetailLine(e);
    NumberedAhead(n, Details(e), "\n");
    AppendedLines(base, n, Details(e) + "\n", DetailLines(e));
    var line := Torn(base) + Numbered(n, DetailLines(e)[0]);
    assert line == Record(n, e);
    assert [line] + DetailLines(e)[1..] == [line];
  }

  /** How many entries were appended since the last rotation. */
  function Since(file: string, seqNo: nat, es: seq<Entry>): (r: nat)
    requires seqNo + |es| < TWO_64
    ensures r <= |es|
  {
    if es == [] then 0
    else
      var before, e := es[..|es| - 1], es[|es| - 1];
      Count(FileAfter(file, seqNo, before), e, Since(file, seqNo, before))
  }

  ghost predicate Writable(e: Entry) { OneLine(e) && QuoteFree(e) }

  /** The last `count` lines, from the last one back, read as the last entries, the last of which has number n. */
  ghost predicate ReadBack(fits: (string, int, Entry) -> bool, lines: seq<string>, n: int, es: seq<Entry>, count: nat)
    decreases count
  {
    count == 0 ||
    (&& lines != [] && es != [] && fits(lines[|lines| - 1], n, es[|es| - 1])
     && ReadBack(fits, lines[..|lines| - 1], n - 1, es[..|es| - 1], count - 1))
  }

  lemma {:induction false} ReadBackSnoc(fits: (string, int, Entry) -> bool, lines: seq<string>, n: int, es: seq<Entry>, count: nat,
                                        line: string, e: Entry)
    requires ReadBack(fits, lines, n, es, count) && fits(line, n + 1, e)
    ensures ReadBack(fits, lines + [line], n + 1, es + [e], count + 1)
  {
    assert (lines + [line])[..|lines|] == lines && (es + [e])[..|es|] == es;
  }

  /** In particular each of them does. */
  lemma {:induction false} ReadBackAt(fits: (string, int, Entry) -> bool, lines: seq<string>, n: int, es: seq<Entry>, count: nat, k: nat)
    requires ReadBack(fits, lines, n, es, count) && k < count
    ensures k < |lines| && k < |es| && fits(lines[|lines| - 1 - k], n - k, es[|es| - 1 - k])
    decreases k
  {
    if k > 0 { ReadBackAt(fits, lines[..|lines| - 1], n - 1, es[..|es| - 1], count - 1, k - 1); }
  }

  /** What every append of a plain entry keeps, every run keeps. */
  ghost predicate Keeps(ok: (string, seq<Entry>, nat) -> bool, seqNo: nat) {
    forall f: string, es: seq<Entry>, k: nat, e: Entry, n: U64 ::
      n == seqNo + |es| + 1 && ok(f, es, k) && Writable(e) ==> ok(Appended(f, n, e), es + [e], Count(f, e, k))
  }

  function Count(f: string, e: Entry, k: nat): nat { if Rotates(f, e) then 1 else k + 1 }

  lemma {:induction false} RunKeepsAlong(ok: (string, seq<Entry>, nat) -> bool, file: string, seqNo: nat, es: seq<Entry>)
    requires Keeps(ok, seqNo) && ok(file, [], 0) && seqNo + |es| < TWO_64 && forall i :: 0 <= i < |es| ==> Writable(es[i])
    ensures ok(FileAfter(file, seqNo, es), es, Since(file, seqNo, es))
  {
    if es != [] {
      var front, e := es[..|es| - 1], es[|es| - 1];
      RunKeepsAlong(ok, file, seqNo, front);
      var f, k := FileAfter(file, seqNo, front), Since(file, seqNo, front);
      KeepsOne(ok, seqNo, f, front, k, e);
      SnocBack(es);
    }
  }

  lemma SnocBack(es: seq<Entry>)
    requires es != []
    ensures es[..|es| - 1] + [es[|es| - 1]] == es
  {
  }

  lemma KeepsOne(ok: (string, seq<Entry>, nat) -> bool, seqNo: nat, f: string, es: seq<Entry>, k: nat, e: Entry)
    requires Keeps(ok, seqNo) && seqNo + |es| + 1 < TWO_64 && ok(f, es, k) && Writable(e)
    ensures ok(Appended(f, seqNo + |es| + 1, e), es + [e], Count(f, e, k))
  {
    var n: U64 := seqNo + |es| + 1;
    assert ok(Appended(f, n, e), es + [e], Count(f, e, k));
  }

  lemma {:induction false} LinesStep(fits: (string, int, Entry) -> bool, f: string, n: nat, es: seq<Entry>, k: nat, e: Entry)
    requires n + 1 < TWO_64 && OneLine(e) && Torn(f) == "" && ReadBack(fits, Closed('\n', f), n, es, k) && fits(Record(n + 1, e), n + 1, e)
    ensures var f' := Appended(f, n + 1, e);
            Torn(f') == "" && ReadBack(fits, Closed('\n', f'), n + 1, es + [e], Count(f, e, k))
  {
    AppendedLine(f, n + 1, e);
    ReadBackSnoc(fits, Closed('\n', f), n, es, k, Record(n + 1, e), e);
    assert ReadBack(fits, [], n, es, 0);
    ReadBackSnoc(fits, [], n, es, 0, Record(n + 1, e), e);
  }

  predicate ReadsAs(line: string, n: int, e: Entry) {
    0 <= n < TWO_64 && ReadLine(line) == Some(RowOf(n, e))
  }

  function Reading(): (string, int, Entry) -> bool { (line, n, e) => ReadsAs(line, n, e) }

  /** The file has no open end, and its last `count` lines are these entries. */
  ghost predicate Holds(fits: (string, int, Entry) -> bool, seqNo: nat, file: string, es: seq<Entry>, count: nat) {
    Torn(file) == "" && ReadBack(fits, Closed('\n', file), seqNo + |es|, es, count)
  }

  lemma HoldsNext(fits: (string, int, Entry) -> bool, seqNo: nat, f: string, es: seq<Entry>, k: nat, e: Entry, n: U64)
    requires n == seqNo + |es| + 1 && Holds(fits, seqNo, f, es, k) && Writable(e) && fits(Record(n, e), n, e)
    ensures Holds(fits, seqNo, Appended(f, n, e), es + [e], Count(f, e, k))
  {
    LinesStep(fits, f, n - 1, es, k, e);
  }

  lemma HoldsNone(fits: (string, int, Entry) -> bool, seqNo: nat, file: string)
    requires Torn(file) == ""
    ensures Holds(fits, seqNo, file, [], 0)
  {
  }

  lemma {:induction false} RunHolds(fits: (string, int, Entry) -> bool, file: string, seqNo: nat, es: seq<Entry>)
    requires Torn(file) == "" && seqNo + |es| < TWO_64 && forall i :: 0 <= i < |es| ==> Writable(es[i])
    requires forall n: U64, e :: Writable(e) ==> fits(Record(n, e), n, e)
    ensures Holds(fits, seqNo, FileAfter(file, seqNo, es), es, Since(file, seqNo, es))
  {
    var ok := (f: string, es: seq<Entry>, k: nat) => Holds(fits, seqNo, f, es, k);
    forall f: string, es: seq<Entry>, k: nat, e: Entry, n: U64 | n == seqNo + |es| + 1 && ok(f, es, k) && Writable(e)
      ensures ok(Appended(f, n, e), es + [e], Count(f, e, k))
    {
      HoldsNext(fits, seqNo, f, es, k, e, n);
    }
    HoldsNone(fits, seqNo, file);
    RunKeepsAlong(ok, file, seqNo, es);
  }

  lemma ReadingFits()
    ensures forall n: U64, e :: Writable(e) ==> Reading()(Record(n, e), n, e)
  {
    forall n: U64, e | Writable(e) ensures Reading()(Record(n, e), n, e) {
      LineReads(n, e);
    }
  }

  /**
   After any appends to a file without an open end, rotations included, the lines of the file, from the last one
   back to the last rotation, read back as the entries appended, in order and with their numbers.
   */
  lemma {:induction false} FileReadsBack(file: string, seqNo: nat, es: seq<Entry>)
    requires Torn(file) == "" && seqNo + |es| < TWO_64 && forall i :: 0 <= i < |es| ==> Writable(es[i])
    ensures ReadBack(Reading(), Closed('\n', FileAfter(file, seqNo, es)), seqNo + |es|, es, Since(file, seqNo, es))
  {
    ReadingFits();
    RunHolds(Reading(), file, seqNo, es);
  }
}
