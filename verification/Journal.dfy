/** The append-only journal of common/StateJournal.hpp: escaping, the line format and sequence recovery. */
module Journal {
  import opened Wrappers
  import opened Delimited
  import opened Decimal
  import opened Symbolic

  // ---------------------------------------------------------------- escaping

  function HexDigit(d: int): (c: char)
    requires 0 <= d < 16
  {
    if d < 10 then '0' + d as char else 'a' + (d - 10) as char
  }

  /** What one character of the evidence becomes. */
  function EscapeChar(c: char): string {
    if c == '"' || c == '\\' then ['\\', c]
    else if c == '\n' then "\\n"
    else if c == '\t' then "\\t"
    else if c as int < 0x20 then ['\\', 'u', '0', '0', HexDigit(c as int / 16), HexDigit(c as int % 16)]
    else [c]
  }

  function Escape(s: string): string {
    if s == "" then "" else EscapeChar(s[0]) + Escape(s[1..])
  }

  lemma {:induction false} EscapeSnoc(s: string, c: char)
    ensures Escape(s + [c]) == Escape(s) + EscapeChar(c)
  {
    if s == "" {
      assert s + [c] == [c] && [c][1..] == "";
      assert EscapeChar(c) + "" == EscapeChar(c);
    } else {
      EscapeSnoc(s[1..], c);
      assert (s + [c])[1..] == s[1..] + [c];
      assert EscapeChar(s[0]) + (Escape(s[1..]) + EscapeChar(c)) == EscapeChar(s[0]) + Escape(s[1..]) + EscapeChar(c);
    }
  }

  /** The escaped text with the first k characters of the evidence done. */
  function Partly(evidence: string, k: nat): string
    requires k <= |evidence|
  {
    Escape(evidence[..k]) + evidence[k..]
  }

  /** Replacing the next character by its escape moves on by one character. */
  lemma PartlyStep(evidence: string, k: nat)
    requires k < |evidence|
    ensures var s, i, e := Partly(evidence, k), |Escape(evidence[..k])|, EscapeChar(evidence[k]);
            && i < |s| && s[i] == evidence[k]
            && s[..i] + e + s[i + 1..] == Partly(evidence, k + 1)
            && |Escape(evidence[..k + 1])| == i + |e|
  {
    assert evidence[..k + 1] == evidence[..k] + [evidence[k]];
    EscapeSnoc(evidence[..k], evidence[k]);
    var s, i := Partly(evidence, k), |Escape(evidence[..k])|;
    assert s[..i] == Escape(evidence[..k]) && s[i..] == evidence[k..];
    assert s[i + 1..] == evidence[k + 1..];
  }

  /** One turn of the loop: insert a backslash, or replace the character, and say how far to move. */
  method EscapeAt(text: string, i: nat) returns (escaped: string, next: nat)
    requires i < |text|
    ensures escaped == text[..i] + EscapeChar(text[i]) + text[i + 1..] && next == i + |EscapeChar(text[i])|
  {
    var c := text[i];
    escaped, next := text, i;
    if c == '"' || c == '\\' {
      escaped := text[..i] + "\\" + text[i..];
      next := i + 1;
    } else if c == '\n' {
      escaped := text[..i] + "\\n" + text[i + 1..];
      next := i + 1;
    } else if c == '\t' {
      escaped := text[..i] + "\\t" + text[i + 1..];
      next := i + 1;
    } else if c as int < 0x20 {
      var buf := ['\\', 'u', '0', '0', HexDigit(c as int / 16), HexDigit(c as int % 16)];
      escaped := text[..i] + buf + text[i + 1..];
      next := i + |buf| - 1;
    }
    next := next + 1;
  }

  /** The loop that inserts into and replaces within the string it is walking over. */
  method EscapeInPlace(evidence: string) returns (escaped: string)
    ensures escaped == Escape(evidence)
  {
    escaped := evidence;
    var i := 0;
    ghost var k := 0;
    assert evidence[..0] == "" && evidence[0..] == evidence;
    while i < |escaped|
      invariant 0 <= k <= |evidence| && escaped == Partly(evidence, k) && i == |Escape(evidence[..k])|
      decreases |evidence| - k
    {
      assert |escaped| == i + |evidence[k..]|;
      PartlyStep(evidence, k);
      escaped, i := EscapeAt(escaped, i);
      k := k + 1;
    }
    assert |escaped| == i + |evidence[k..]|;
    assert evidence[..k] == evidence && evidence[k..] == "";
  }

  // ---------------------------------------------------------------- JSON unescaping

  function HexValue(c: char): (d: int)
    ensures -1 <= d < 16
  {
    if '0' <= c <= '9' then c as int - '0' as int
    else if 'a' <= c <= 'f' then c as int - 'a' as int + 10
    else if 'A' <= c <= 'F' then c as int - 'A' as int + 10
    else -1
  }

  /** The code unit of four hex digits, when it is a character by itself. */
  function UnicodeEscape(a: char, b: char, c: char, d: char): Option<char> {
    var w, x, y, z := HexValue(a), HexValue(b), HexValue(c), HexValue(d);
    if w < 0 || x < 0 || y < 0 || z < 0 then None
    else
      var code := w * 4096 + x * 256 + y * 16 + z;
      if 0xD800 <= code < 0xE000 then None else Some(code as char)
  }

  /** The short escapes of section 7 of RFC 8259. */
  function ShortEscape(c: char): Option<char> {
    if c == '"' || c == '\\' || c == '/' then Some(c)
    else if c == 'b' then Some('\U{0008}')
    else if c == 'f' then Some('\U{000C}')
    else if c == 'n' then Some('\n')
    else if c == 'r' then Some('\r')
    else if c == 't' then Some('\t')
    else None
  }

  function Cons(c: Option<char>, rest: Option<string>): Option<string> {
    if c.Some? && rest.Some? then Some([c.value] + rest.value) else None
  }

  /** The content of a JSON string (section 7 of RFC 8259): no raw control character, no bare quote. */
  function Unescape(s: string): Option<string> {
    if s == "" then Some("")
    else if s[0] == '"' || s[0] as int < 0x20 then None
    else if s[0] != '\\' then Cons(Some(s[0]), Unescape(s[1..]))
    else if |s| >= 6 && s[1] == 'u' then Cons(UnicodeEscape(s[2], s[3], s[4], s[5]), Unescape(s[6..]))
    else if |s| >= 2 then Cons(ShortEscape(s[1]), Unescape(s[2..]))
    else None
  }

  lemma HexRoundTrip(d: int)
    requires 0 <= d < 16
    ensures HexValue(HexDigit(d)) == d
  {
  }

  lemma UnescapeChar(c: char, rest: string)
    ensures Unescape(EscapeChar(c) + rest) == Cons(Some(c), Unescape(rest))
  {
    var e := EscapeChar(c);
    var s := e + rest;
    assert s[|e|..] == rest;
    if |e| == 6 {
      var n := c as int;
      HexRoundTrip(n / 16);
      HexRoundTrip(n % 16);
      assert n / 16 * 16 + n % 16 == n;
      assert UnicodeEscape(s[2], s[3], s[4], s[5]) == Some(c);
    }
  }

  /** JSON unescaping inverts the escape on every evidence string. */
  lemma {:induction false} UnescapeEscape(s: string)
    ensures Unescape(Escape(s)) == Some(s)
  {
    if s != "" {
      UnescapeEscape(s[1..]);
      UnescapeChar(s[0], Escape(s[1..]));
      assert s == [s[0]] + s[1..];
    }
  }

  /** No control character survives, so no newline. */
  lemma {:induction false} EscapeNoControl(s: string)
    ensures forall i :: 0 <= i < |Escape(s)| ==> Escape(s)[i] as int >= 0x20
  {
    if s != "" {
      EscapeNoControl(s[1..]);
      var e, rest := EscapeChar(s[0]), Escape(s[1..]);
      assert forall i :: 0 <= i < |e| ==> e[i] as int >= 0x20;
      forall i | 0 <= i < |e + rest| ensures (e + rest)[i] as int >= 0x20 {
        if i >= |e| { assert (e + rest)[i] == rest[i - |e|]; }
      }
    }
  }

  // ---------------------------------------------------------------- extract_seq

  const PATTERN: string := "\"seq\":"

  /** std::string::find: the first position of the pattern from `from` on, or -1. */
  function FindPattern(s: string, from: nat): (p: int)
    ensures p == -1 || from <= p <= |s| - 6
    decreases |s| - from
  {
    if from + 6 > |s| then -1
    else if s[from..from + 6] == PATTERN then from
    else FindPattern(s, from + 1)
  }

  /** The digits read, or 0 when they exceed a 64-bit integer. */
  function Bounded(digits: string): U64
    requires AllDigits(digits)
  {
    if Number(digits) < TWO_64 then Number(digits) else 0
  }

  function Extract(line: string): U64 {
    var p := FindPattern(line, 0);
    if p == -1 then 0 else Bounded(DigitRun(line[p + 6..]))
  }

  lemma {:induction false} NumberGrows(s: string, k: nat)
    requires AllDigits(s) && k <= |s|
    ensures Number(s) >= Number(s[..k])
  {
    if k < |s| {
      var front := s[..|s| - 1];
      NumberGrows(front, k);
      assert front[..k] == s[..k];
    } else {
      assert s[..k] == s;
    }
  }

  lemma {:induction false} DigitRunStops(s: string, n: nat)
    requires n <= |s| && AllDigits(s[..n]) && (n < |s| ==> !IsDigit(s[n]))
    ensures DigitRun(s) == s[..n]
  {
    if n > 0 {
      var rest := s[1..];
      assert rest[..n - 1] == s[..n][1..];
      assert IsDigit(s[..n][0]);
      DigitRunStops(rest, n - 1);
      assert s[..n] == [s[0]] + rest[..n - 1];
    }
  }

  method FindSeq(line: string) returns (pos: int)
    ensures pos == FindPattern(line, 0)
  {
    pos := 0;
    while pos + 6 <= |line|
      invariant 0 <= pos && FindPattern(line, pos) == FindPattern(line, 0)
      decreases |line| - pos
    {
      if line[pos..pos + 6] == PATTERN { return; }
      pos := pos + 1;
    }
    return -1;
  }

  /** The digit loop with its overflow test, which is exact for every value of a 64-bit integer. */
  method ExtractSeq(line: string) returns (val: int)
    ensures val == Extract(line)
  {
    var pos := FindSeq(line);
    if pos == -1 { return 0; }
    pos := pos + 6;
    ghost var text, k := line[pos..], 0;
    val := 0;
    while pos < |line| && IsDigit(line[pos])
      invariant 0 <= k <= |text| && pos == |line| - |text| + k && text == line[|line| - |text|..]
      invariant AllDigits(text[..k]) && val == Number(text[..k]) && val < TWO_64
    {
      var digit := DigitValue(line[pos]);
      assert text[..k + 1] == text[..k] + [line[pos]];
      assert text[..k + 1][..k] == text[..k];
      assert Number(text[..k + 1]) == val * 10 + digit;
      if val > (TWO_64 - 1 - digit) / 10 {
        OverflowFound(text, k + 1);
        return 0;
      }
      val := val * 10 + digit;
      pos, k := pos + 1, k + 1;
    }
    DigitRunStops(text, k);
  }

  lemma {:induction false} RunCovers(s: string, k: nat)
    requires k <= |s| && AllDigits(s[..k])
    ensures k <= |DigitRun(s)| && DigitRun(s)[..k] == s[..k]
  {
    if k > 0 {
      var rest := s[1..];
      assert rest[..k - 1] == s[..k][1..];
      assert IsDigit(s[..k][0]);
      RunCovers(rest, k - 1);
      assert s[..k] == [s[0]] + rest[..k - 1];
    }
  }

  lemma OverflowFound(text: string, k: nat)
    requires k <= |text| && AllDigits(text[..k]) && Number(text[..k]) >= TWO_64
    ensures Bounded(DigitRun(text)) == 0
  {
    RunCovers(text, k);
    NumberGrows(DigitRun(text), k);
  }

  // ---------------------------------------------------------------- the line and the file

  datatype Entry = Entry(stage: string, target: string, evidence: string, hash: string, ts: int, rotate: bool)

  /** One line of the journal, without its newline. */
  function Record(seqNo: U64, e: Entry): string { Numbered(seqNo, Details(e)) }

  function Numbered(seqNo: U64, rest: string): string {
    "{" + PATTERN + Print(seqNo) + "," + rest
  }

  function Field(name: string, value: string): string { Label(name) + value + "\"" }

  function Label(name: string): string { ",\"" + name + "\":\"" }

  function Details(e: Entry): string {
    "\"ts\":" + PrintInt(e.ts) + Field("stage", e.stage) + Field("target", e.target)
    + Field("evidence", Escape(e.evidence)) + Field("hash", e.hash) + "}"
  }

  /** The lines of an entry's text: one, unless stage, target or hash, which are written as they are, have newlines. */
  function DetailLines(e: Entry): (r: seq<string>)
    ensures r != []
  {
    ClosedSnoc('\n', Details(e), '\n');
    Closed('\n', Details(e) + "\n")
  }

  /** The lines after the first, which do not begin with a record's number. */
  function Stray(e: Entry): seq<string> { DetailLines(e)[1..] }

  ghost predicate OneLine(e: Entry) {
    Free('\n', e.stage) && Free('\n', e.target) && Free('\n', e.hash)
  }

  /** The largest sequence number on any line. */
  function MaxSeq(lines: seq<string>): U64 {
    if lines == [] then 0
    else
      var m := MaxSeq(lines[..|lines| - 1]);
      var n := Extract(lines[|lines| - 1]);
      if n > m then n else m
  }

  /** What the constructor recovers from a file: getline line by line, the last possibly unterminated. */
  function Recover(file: string): U64 {
    MaxSeq(Pieces('\n', file))
  }

  /** The unterminated end of a file, left by a torn write. */
  function Torn(file: string): string { Open('\n', file) }

  predicate TailHarmless(file: string) {
    FindPattern(Torn(file), 0) == -1
  }

  const ROTATE_AT: int := 10 * 1024 * 1024

  /** Copy-truncate rotation empties a file past the limit. */
  function Rotated(file: string, e: Entry): string { if Rotates(file, e) then "" else file }

  predicate Rotates(file: string, e: Entry) { e.rotate && |file| > ROTATE_AT }

  /** The text before a target, and what follows it. */
  function Lead(e: Entry): string { "\"ts\":" + PrintInt(e.ts) + Field("stage", e.stage) }
  function Rest(e: Entry): string { Field("evidence", Escape(e.evidence)) + Field("hash", e.hash) + "}" }

  lemma GroupThree(a: string, b: string, c: string, d: string)
    ensures a + b + c + d == a + (b + c + d)
  {
  }

  lemma GroupLine(lead: string, name: string, front: string, nl: string, back: string, quote: string, rest: string)
    ensures lead + (name + (front + nl + back) + quote) + rest + nl == (lead + (name + front)) + nl + (back + quote + rest + nl)
  {
    assert name + (front + nl + back) + quote == (name + front) + nl + (back + quote);
    var x, y := name + front, back + quote;
    assert lead + (x + nl + y) + rest + nl == (lead + x) + nl + (y + rest + nl);
  }

  lemma SplitDetails(e: Entry, front: string, back: string)
    requires e.target == front + "\n" + back
    ensures Details(e) + "\n" == (Lead(e) + (Label("target") + front)) + "\n" + (back + "\"" + Rest(e) + "\n")
  {
    GroupThree(Lead(e) + Field("target", e.target), Field("evidence", Escape(e.evidence)), Field("hash", e.hash), "}");
    GroupLine(Lead(e), Label("target"), front, "\n", back, "\"", Rest(e));
  }

  lemma LeadFree(e: Entry, front: string)
    requires Free('\n', e.stage) && Free('\n', front)
    ensures Free('\n', Lead(e) + (Label("target") + front))
  {
    FieldFree("stage", e.stage);
    FreeConcat('\n', "\"ts\":", PrintInt(e.ts));
    FreeConcat('\n', "\"ts\":" + PrintInt(e.ts), Field("stage", e.stage));
    FreeConcat('\n', Label("target"), front);
    FreeConcat('\n', Lead(e), Label("target") + front);
  }

  lemma RestFree(e: Entry)
    requires Free('\n', e.hash)
    ensures Free('\n', Rest(e))
  {
    EscapeNoControl(e.evidence);
    FieldFree("evidence", Escape(e.evidence));
    FieldFree("hash", e.hash);
    FreeConcat('\n', Field("evidence", Escape(e.evidence)), Field("hash", e.hash));
    FreeConcat('\n', Field("evidence", Escape(e.evidence)) + Field("hash", e.hash), "}");
  }

  lemma FieldFree(name: string, value: string)
    requires Free('\n', name) && Free('\n', value)
    ensures Free('\n', Field(name, value))
  {
  }

  lemma FreeSix(a: string, b: string, c: string, d: string, e: string, f: string)
    requires Free('\n', a) && Free('\n', b) && Free('\n', c) && Free('\n', d) && Free('\n', e) && Free('\n', f)
    ensures Free('\n', a + b + c + d + e + f + "}")
  {
    FreeConcat('\n', a + b, c);
    FreeConcat('\n', a + b + c, d);
    FreeConcat('\n', a + b + c + d, e);
    FreeConcat('\n', a + b + c + d + e, f);
    FreeConcat('\n', a + b + c + d + e + f, "}");
  }

  lemma DetailsFree(e: Entry)
    requires OneLine(e)
    ensures Free('\n', Details(e))
  {
    EscapeNoControl(e.evidence);
    FieldFree("stage", e.stage);
    FieldFree("target", e.target);
    FieldFree("evidence", Escape(e.evidence));
    FieldFree("hash", e.hash);
    FreeSix("\"ts\":", PrintInt(e.ts), Field("stage", e.stage), Field("target", e.target),
            Field("evidence", Escape(e.evidence)), Field("hash", e.hash));
  }

  /** Without newlines in its fields an entry leaves no stray line. */
  lemma NoStray(e: Entry)
    requires OneLine(e)
    ensures Stray(e) == []
  {
    DetailsFree(e);
    FreeIsOpen('\n', Details(e));
    ClosedSnoc('\n', Details(e), '\n');
  }

  lemma {:induction false} FindSame(s: string, t: string, from: nat)
    requires FindPattern(s, from) != -1 && |s| <= |t| && t[..|s|] == s
    ensures FindPattern(t, from) == FindPattern(s, from)
    decreases |s| - from
  {
    assert t[from..from + 6] == t[..|s|][from..from + 6] == s[from..from + 6];
    if s[from..from + 6] != PATTERN { FindSame(s, t, from + 1); }
  }

  /** The pattern cannot begin in a torn tail and end in a record: a record starts with a brace. */
  lemma {:induction false} FindSkipsTail(tail: string, record: string, from: nat)
    requires from <= |tail| && FindPattern(tail, from) == -1
    requires |record| >= 7 && record[0] == '{' && record[1..7] == PATTERN
    ensures FindPattern(tail + record, from) == |tail| + 1
    decreases |tail| - from
  {
    var s := tail + record;
    if from < |tail| {
      if from + 6 <= |tail| {
        assert s[from..from + 6] == tail[from..from + 6];
      } else {
        assert s[from..from + 6][|tail| - from] == s[|tail|] == '{';
        assert PATTERN[|tail| - from] != '{';
      }
      FindSkipsTail(tail, record, from + 1);
    } else {
      assert s[from..from + 6][0] == '{';
      assert s[from + 1..from + 7] == record[1..7];
    }
  }

  lemma BehindHead(head: string, a: string, b: string, c: string)
    ensures (head + a + b + c)[..|head|] == head && (head + a + b + c)[|head|..] == a + b + c
  {
  }

  lemma NumberedPattern(seqNo: U64, rest: string)
    ensures var r := Numbered(seqNo, rest);
            |r| >= 7 && r[0] == '{' && r[1..7] == PATTERN && r[7..] == Print(seqNo) + "," + rest
  {
    var head, r := "{" + PATTERN, Numbered(seqNo, rest);
    BehindHead(head, Print(seqNo), ",", rest);
    assert r[..7] == head;
    assert r[1..7] == r[..7][1..] == PATTERN && r[0] == r[..7][0];
  }

  /** A harmless tail does not hide the new record's number. */
  lemma {:induction false} ExtractNew(tail: string, seqNo: U64, rest: string)
    requires FindPattern(tail, 0) == -1
    ensures Extract(tail + Numbered(seqNo, rest)) == seqNo
  {
    var r := Numbered(seqNo, rest);
    NumberedPattern(seqNo, rest);
    FindSkipsTail(tail, r, 0);
    var s := tail + r;
    var text := s[|tail| + 7..];
    assert text == r[7..];
    ExtractDigits(text, seqNo, ",", rest);
  }

  lemma {:induction false} ExtractDigits(text: string, n: U64, stop: string, rest: string)
    requires text == Print(n) + stop + rest && stop != "" && !IsDigit(stop[0])
    ensures Bounded(DigitRun(text)) == n
  {
    var digits := Print(n);
    assert text[..|digits|] == digits && text[|digits|] == stop[0];
    DigitRunStops(text, |digits|);
    NumberPrint(n);
  }

  /** A tail with the pattern in it is all that recovery sees of the merged line. */
  lemma {:induction false} ExtractTorn(tail: string, record: string)
    requires FindPattern(tail, 0) != -1 && record != "" && record[0] == '{'
    ensures Extract(tail + record) == Extract(tail)
  {
    var s := tail + record;
    assert s[..|tail|] == tail;
    FindSame(tail, s, 0);
    var p := FindPattern(tail, 0);
    var text, more := tail[p + 6..], s[p + 6..];
    assert more == text + record;
    DigitRunExtends(text, record);
  }

  lemma {:induction false} DigitRunExtends(s: string, t: string)
    requires t == "" || !IsDigit(t[0])
    ensures DigitRun(s + t) == DigitRun(s)
  {
    if s == "" {
      assert s + t == t;
    } else {
      assert (s + t)[1..] == s[1..] + t;
      DigitRunExtends(s[1..], t);
    }
  }

  lemma {:induction false} MaxSeqSnoc(lines: seq<string>, line: string)
    ensures MaxSeq(lines + [line]) == if Extract(line) > MaxSeq(lines) then Extract(line) else MaxSeq(lines)
  {
    assert (lines + [line])[..|lines|] == lines;
  }

  function Max(a: nat, b: nat): nat { if a >= b then a else b }

  lemma {:induction false} MaxSeqConcat(a: seq<string>, b: seq<string>)
    ensures MaxSeq(a + b) == Max(MaxSeq(a), MaxSeq(b))
  {
    if b == [] {
      assert a + b == a;
    } else {
      SnocConcat(a, b);
      MaxSeqConcat(a, b[..|b| - 1]);
      MaxSeqSnoc(a + b[..|b| - 1], b[|b| - 1]);
    }
  }

  lemma {:induction false} RecoverParts(file: string)
    ensures Recover(file) == Max(MaxSeq(Closed('\n', file)), Extract(Torn(file)))
  {
    MaxSeqSnoc(Closed('\n', file), Torn(file));
  }

  lemma NumberedAhead(seqNo: U64, rest: string, more: string)
    ensures Numbered(seqNo, rest + more) == Numbered(seqNo, rest) + more
  {
  }

  lemma NumberedFree(seqNo: U64)
    ensures Free('\n', Numbered(seqNo, ""))
  {
    assert Free('\n', Print(seqNo));
  }

  /** The lines of a file after an append: the numbered one goes behind the tail, stray ones after it. */
  lemma {:induction false} AppendedLines(file: string, seqNo: U64, text: string, lines: seq<string>)
    requires lines == Closed('\n', text) && lines != [] && Open('\n', text) == ""
    ensures var all := file + Numbered(seqNo, text);
            && Torn(all) == ""
            && Closed('\n', all) == Closed('\n', file) + ([Torn(file) + Numbered(seqNo, lines[0])] + lines[1..])
  {
    var tail, head := Torn(file), Numbered(seqNo, "");
    NumberedAhead(seqNo, "", text);
    NumberedAhead(seqNo, "", lines[0]);
    assert "" + text == text && "" + lines[0] == lines[0];
    NumberedFree(seqNo);
    ClosedConcat('\n', file, head + text);
    OpenIsFree('\n', file);
    FreeConcat('\n', tail, head);
    Assoc(tail, head, text);
    Assoc(tail, head, lines[0]);
    ClosedAfter('\n', tail + head, text);
  }

  lemma DetailsEnd(e: Entry)
    ensures Open('\n', Details(e) + "\n") == "" && DetailLines(e) == Closed('\n', Details(e) + "\n")
  {
    ClosedSnoc('\n', Details(e), '\n');
  }

  lemma {:induction false} ExtractFirst(tail: string, seqNo: U64, rest: string)
    ensures Extract(tail + Numbered(seqNo, rest)) == if FindPattern(tail, 0) == -1 then seqNo else Extract(tail)
  {
    if FindPattern(tail, 0) == -1 {
      ExtractNew(tail, seqNo, rest);
    } else {
      NumberedPattern(seqNo, rest);
      ExtractTorn(tail, Numbered(seqNo, rest));
    }
  }

  /**
   One append, of any fields to any file: what reopening recovers is the largest of what it recovered before,
   the new number if the unterminated end of the file does not hide it, and the numbers on stray lines.
   */
  lemma {:induction false} AppendRecovered(file: string, seqNo: U64, e: Entry)
    ensures var all := file + (Record(seqNo, e) + "\n");
            && Torn(all) == ""
            && Recover(all) == Max(Recover(file), Max(if TailHarmless(file) then seqNo else 0, MaxSeq(Stray(e))))
  {
    var all, first := file + (Record(seqNo, e) + "\n"), Torn(file) + Numbered(seqNo, DetailLines(e)[0]);
    DetailsEnd(e);
    NumberedAhead(seqNo, Details(e), "\n");
    AppendedLines(file, seqNo, Details(e) + "\n", DetailLines(e));
    RecoverParts(file);
    RecoverParts(all);
    MaxSeqConcat(Closed('\n', file), [first] + Stray(e));
    MaxSeqConcat([first], Stray(e));
    MaxSeqSnoc([], first);
    assert [] + [first] == [first];
    ExtractFirst(Torn(file), seqNo, DetailLines(e)[0]);
  }

  /**
   If the number recovered before is within the journal's counter, then reopening after the append recovers the
   new number exactly when no stray line exceeds it and the unterminated end of the file, if any, does not
   contain the pattern that extract_seq looks for, unless a stray line happens to give the number.
   */
  lemma {:induction false} AppendRecoversIff(file: string, seqNo: U64, e: Entry)
    requires Recover(file) <= seqNo && seqNo + 1 < TWO_64
    ensures Recover(file + (Record(seqNo + 1, e) + "\n")) == seqNo + 1
       <==> MaxSeq(Stray(e)) <= seqNo + 1 && (TailHarmless(file) || MaxSeq(Stray(e)) == seqNo + 1)
    ensures OneLine(e) ==> (Recover(file + (Record(seqNo + 1, e) + "\n")) == seqNo + 1 <==> TailHarmless(file))
  {
    AppendRecovered(file, seqNo + 1, e);
    if OneLine(e) { NoStray(e); }
  }

  lemma {:induction false} ExtractAhead(n: U64, stop: string, rest: string)
    requires stop != "" && !IsDigit(stop[0])
    ensures Extract(PATTERN + Print(n) + stop + rest) == n
  {
    var line := PATTERN + Print(n) + stop + rest;
    assert line[0..6] == PATTERN;
    assert line[6..] == Print(n) + stop + rest;
    ExtractDigits(line[6..], n, stop, rest);
  }

  /** A target with a newline and then a sequence mark puts its own number on a line. */
  lemma {:induction false} TargetNumbers(e: Entry, front: string, n: U64)
    requires Free('\n', e.stage) && Free('\n', e.hash) && Free('\n', front) && e.target == front + "\n" + (PATTERN + Print(n))
    ensures MaxSeq(Stray(e)) == n
  {
    var first, line := Lead(e) + (Label("target") + front), PATTERN + Print(n) + "\"" + Rest(e);
    SplitDetails(e, front, PATTERN + Print(n));
    LeadFree(e, front);
    RestFree(e);
    LineFree(n, Rest(e));
    ClosedCons('\n', first, line + "\n");
    FreeIsOpen('\n', line);
    ClosedSnoc('\n', line, '\n');
    ExtractAhead(n, "\"", Rest(e));
    MaxSeqSnoc([], line);
    assert [] + [line] == [line];
    DetailsEnd(e);
    assert DetailLines(e) == [first] + [line];
  }

  lemma LineFree(n: U64, rest: string)
    requires Free('\n', rest)
    ensures Free('\n', PATTERN + Print(n) + "\"" + rest)
  {
    assert Free('\n', Print(n)) && Free('\n', PATTERN);
    FreeConcat('\n', PATTERN, Print(n));
    FreeConcat('\n', PATTERN + Print(n) + "\"", rest);
  }

  const TORN: string := "{\"seq\":5"

  lemma {:induction false} TornNumber()
    ensures FindPattern(TORN, 0) == 1 && Extract(TORN) == 5
  {
    assert TORN[0..6][0] == '{';
    assert TORN[1..7] == PATTERN && TORN[7..] == "5";
    DigitRunStops("5", 1);
    assert "5"[..1] == "5" && "5"[..0] == "";
  }

  /** A write torn after its number: whatever is appended next on one line is not recovered. */
  lemma {:induction false} TornHidesRecord(e: Entry)
    requires OneLine(e)
    ensures Recover(TORN) == 5 && Recover(TORN + (Record(6, e) + "\n")) != 6
  {
    TornNumber();
    FreeIsOpen('\n', TORN);
    MaxSeqSnoc([], TORN);
    AppendRecoversIff(TORN, 5, e);
  }

  class StateJournal {
    var file: string
    var seqNo: U64

    constructor (existing: string)
      ensures file == existing && seqNo == Recover(existing)
    {
      file := existing;
      new;
      var r := RecoverFrom(existing);
      seqNo := r;
    }

    /** Append, with whatever the clock, the hash and the file system contributed. */
    method Append(e: Entry) returns (s: U64)
      modifies this
      ensures s == seqNo == (old(seqNo) + 1) % TWO_64
      ensures file == Appended(old(file), seqNo, e) && TailHarmless(file)
      ensures TailHarmless(Rotated(old(file), e)) ==>
                Recover(file) == Max(Recover(Rotated(old(file), e)), Max(seqNo, MaxSeq(Stray(e))))
    {
      seqNo := (seqNo + 1) % TWO_64;
      s := seqNo;
      var line := Format(s, e);
      AppendedFile(file, s, e);
      if e.rotate && |file| > ROTATE_AT { file := ""; }
      file := file + line;
    }
  }

  method Format(seqNo: U64, e: Entry) returns (line: string)
    ensures line == Record(seqNo, e) + "\n"
  {
    var escaped := EscapeInPlace(e.evidence);
    line := "{" + PATTERN + Print(seqNo) + "," +
            ("\"ts\":" + PrintInt(e.ts) + Field("stage", e.stage) + Field("target", e.target)
            + Field("evidence", escaped) + Field("hash", e.hash) + "}") + "\n";
  }

  function Appended(file: string, seqNo: U64, e: Entry): string { Rotated(file, e) + (Record(seqNo, e) + "\n") }

  lemma {:induction false} AppendedFile(file: string, seqNo: U64, e: Entry)
    ensures TailHarmless(Appended(file, seqNo, e))
    ensures TailHarmless(Rotated(file, e)) ==>
              Recover(Appended(file, seqNo, e)) == Max(Recover(Rotated(file, e)), Max(seqNo, MaxSeq(Stray(e))))
  {
    AppendRecovered(Rotated(file, e), seqNo, e);
  }

  /** The recovery loop of the constructor. */
  method RecoverFrom(file: string) returns (r: U64)
    ensures r == Recover(file)
  {
    var lines := Pieces('\n', file);
    r := 0;
    var i := 0;
    while i < |lines|
      invariant 0 <= i <= |lines| && r == MaxSeq(lines[..i])
    {
      assert lines[..i + 1] == lines[..i] + [lines[i]];
      MaxSeqSnoc(lines[..i], lines[i]);
      if lines[i] != "" {
        var n := ExtractSeq(lines[i]);
        if n > r { r := n; }
      }
      i := i + 1;
    }
    assert lines[..i] == lines;
  }

  // ---------------------------------------------------------------- whole runs of appends

  function FileAfter(file: string, seqNo: nat, es: seq<Entry>): string
    requires seqNo + |es| < TWO_64
  {
    if es == [] then file
    else
      Appended(FileAfter(file, seqNo, es[..|es| - 1]), seqNo + |es|, es[|es| - 1])
  }

  /** The largest number on a stray line that is still in the file. */
  function StrayMax(file: string, seqNo: nat, es: seq<Entry>): nat
    requires seqNo + |es| < TWO_64
  {
    if es == [] then 0
    else
      var before, e := es[..|es| - 1], es[|es| - 1];
      MoreStrays(FileAfter(file, seqNo, before), e, StrayMax(file, seqNo, before))
  }

  /** Reopening would find `n` or a larger stray number, and the next append is not hidden. */
  predicate Recoverable(file: string, n: nat, strays: nat) {
    TailHarmless(file) && Recover(file) == Max(n, strays)
  }

  function MoreStrays(file: string, e: Entry, strays: nat): nat {
    if Rotates(file, e) then MaxSeq(Stray(e)) else Max(strays, MaxSeq(Stray(e)))
  }

  lemma {:induction false} RunStep(file: string, seqNo: nat, e: Entry, strays: nat)
    requires seqNo + 1 < TWO_64 && Recoverable(file, seqNo, strays)
    ensures Recoverable(Appended(file, seqNo + 1, e), seqNo + 1, MoreStrays(file, e, strays))
  {
    AppendedFile(file, seqNo + 1, e);
  }

  /** What every append keeps, of the file, the counter and the largest stray number, every run keeps. */
  lemma {:induction false} RunKeeps(ok: (string, nat, nat) -> bool, file: string, seqNo: nat, es: seq<Entry>)
    requires seqNo + |es| < TWO_64 && ok(file, seqNo, 0)
    requires forall f, n: nat, e, strays :: n + 1 < TWO_64 && ok(f, n, strays) ==> ok(Appended(f, n + 1, e), n + 1, MoreStrays(f, e, strays))
    ensures ok(FileAfter(file, seqNo, es), seqNo + |es|, StrayMax(file, seqNo, es))
  {
    if es != [] {
      RunKeeps(ok, file, seqNo, es[..|es| - 1]);
    }
  }

  /**
   After any appends of any fields to a file without a harmful tail, rotations included, reopening recovers the
   last number or the largest stray one, whichever is larger.
   */
  lemma {:induction false} RunRecovered(file: string, seqNo: nat, es: seq<Entry>)
    requires Recoverable(file, seqNo, 0) && seqNo + |es| < TWO_64
    ensures Recoverable(FileAfter(file, seqNo, es), seqNo + |es|, StrayMax(file, seqNo, es))
  {
    var ok := (f: string, n: nat, strays: nat) => Recoverable(f, n, strays);
    forall f, n: nat, e, strays | n + 1 < TWO_64 && ok(f, n, strays) ensures ok(Appended(f, n + 1, e), n + 1, MoreStrays(f, e, strays)) {
      RunStep(f, n, e, strays);
    }
    RunKeeps(ok, file, seqNo, es);
  }

  lemma {:induction false} NoStrays(file: string, seqNo: nat, es: seq<Entry>)
    requires seqNo + |es| < TWO_64 && forall e :: e in es ==> OneLine(e)
    ensures StrayMax(file, seqNo, es) == 0
  {
    if es != [] {
      NoStray(es[|es| - 1]);
      NoStrays(file, seqNo, es[..|es| - 1]);
    }
  }

  /** So it recovers exactly the last number if and only if no stray line exceeds it, and always if all fields are on one line. */
  lemma {:induction false} RunRecoversIff(file: string, seqNo: nat, es: seq<Entry>)
    requires TailHarmless(file) && Recover(file) == seqNo && seqNo + |es| < TWO_64
    ensures Recover(FileAfter(file, seqNo, es)) == seqNo + |es| <==> StrayMax(file, seqNo, es) <= seqNo + |es|
    ensures (forall e :: e in es ==> OneLine(e)) ==> Recover(FileAfter(file, seqNo, es)) == seqNo + |es|
  {
    RunRecovered(file, seqNo, es);
    if forall e :: e in es ==> OneLine(e) { NoStrays(file, seqNo, es); }
  }
}
