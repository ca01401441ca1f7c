/** The telemetry pipe of telemetry/TelemetryBridge.cpp: newline framing on one side, line splitting of arbitrary reads on the other. */
module Framing {
  import opened Delimited

  const MAX_UNTERMINATED: int := 1048576

  function NonEmpties(lines: seq<string>): seq<string> {
    if lines == [] then []
    else if lines[0] == "" then NonEmpties(lines[1..])
    else [lines[0]] + NonEmpties(lines[1..])
  }

  /** push_telemetry, message after message. */
  function Framed(messages: seq<string>): string {
    if messages == [] then "" else messages[0] + "\n" + Framed(messages[1..])
  }

  /** The lines a stream completes, empty ones left out. */
  function Lines(stream: string): seq<string> {
    NonEmpties(Closed('\n', stream))
  }

  function Leftover(stream: string): string {
    Open('\n', stream)
  }

  lemma {:induction false} NonEmptiesConcat(a: seq<string>, b: seq<string>)
    ensures NonEmpties(a + b) == NonEmpties(a) + NonEmpties(b)
  {
    if a == [] {
      assert a + b == b;
    } else {
      NonEmptiesConcat(a[1..], b);
      TailConcat(a, b);
      Assoc([a[0]], NonEmpties(a[1..]), NonEmpties(b));
    }
  }

  /** Taking the first line off a buffer. */
  lemma FirstLine(line: string, rest: string)
    requires Free('\n', line)
    ensures Lines(line + "\n" + rest) == (if line == "" then [] else [line]) + Lines(rest)
    ensures Leftover(line + "\n" + rest) == Leftover(rest)
  {
    ClosedCons('\n', line, rest);
    NonEmptiesConcat([line], Closed('\n', rest));
  }

  method Find(s: string, start: nat) returns (found: bool, pos: nat)
    requires start <= |s|
    ensures found ==> start <= pos < |s| && s[pos] == '\n' && Free('\n', s[start..pos])
    ensures !found ==> Free('\n', s[start..])
  {
    pos := start;
    while pos < |s|
      invariant start <= pos <= |s| && forall i :: start <= i < pos ==> s[i] != '\n'
    {
      if s[pos] == '\n' { return true, pos; }
      pos := pos + 1;
    }
    return false, pos;
  }

  lemma FramedSnoc(messages: seq<string>, line: string)
    ensures Framed(messages + [line]) == Framed(messages) + line + "\n"
  {
    if messages == [] {
      assert messages + [line] == [line] && [line][1..] == [];
      assert line + "\n" + "" == line + "\n";
    } else {
      FramedSnoc(messages[1..], line);
      assert (messages + [line])[1..] == messages[1..] + [line];
      assert messages[0] + "\n" + (Framed(messages[1..]) + line + "\n") == messages[0] + "\n" + Framed(messages[1..]) + line + "\n";
    }
  }

  /** The lines taken so far and those still in the buffer are all of them. */
  ghost predicate Drained(buffer: string, lines: seq<string>, rest: string) {
    lines + Lines(rest) == Lines(buffer) && Leftover(rest) == Leftover(buffer)
  }

  lemma CutAt(s: string, pos: nat)
    requires pos < |s| && s[pos] == '\n'
    ensures s == s[..pos] + "\n" + s[pos + 1..]
  {
  }

  lemma DrainOne(buffer: string, lines: seq<string>, rest: string, pos: nat)
    requires Drained(buffer, lines, rest) && pos < |rest| && rest[pos] == '\n' && Free('\n', rest[..pos])
    ensures Drained(buffer, if rest[..pos] == "" then lines else lines + [rest[..pos]], rest[pos + 1..])
  {
    var line, after := rest[..pos], rest[pos + 1..];
    CutAt(rest, pos);
    FirstLine(line, after);
    Assoc(lines, [line], Lines(after));
    assert [] + Lines(after) == Lines(after);
  }

  /** The first loop: complete lines move from the buffer into one text, each with its newline put back. */
  method DrainLines(buffer: string) returns (rest: string, text: string)
    ensures rest == Leftover(buffer) && text == Framed(Lines(buffer))
  {
    rest, text := buffer, "";
    ghost var lines: seq<string> := [];
    var found, pos := Find(rest, 0);
    while found
      invariant found ==> 0 <= pos < |rest| && rest[pos] == '\n' && Free('\n', rest[..pos])
      invariant !found ==> Free('\n', rest)
      invariant Drained(buffer, lines, rest) && text == Framed(lines)
      decreases |rest|, found
    {
      var line := rest[..pos];
      DrainOne(buffer, lines, rest, pos);
      rest := rest[pos + 1..];
      if line != "" {
        FramedSnoc(lines, line);
        text := text + line + "\n";
        lines := lines + [line];
      }
      found, pos := Find(rest, 0);
    }
    FreeIsOpen('\n', rest);
    assert lines + [] == lines;
  }

  /** The second loop: the text is scanned again from an advancing start, and each non-empty line published. */
  method PublishLines(text: string) returns (published: seq<string>)
    ensures published == Lines(text)
  {
    published := [];
    var start := 0;
    var found, end := Find(text, start);
    assert text[0..] == text;
    while found
      invariant 0 <= start <= |text|
      invariant found ==> start <= end < |text| && text[end] == '\n' && Free('\n', text[start..end])
      invariant !found ==> Free('\n', text[start..])
      invariant published + Lines(text[start..]) == Lines(text)
      decreases |text| - start, found
    {
      var line := text[start..end];
      ghost var after := text[end + 1..];
      assert text[start..] == line + "\n" + after;
      FirstLine(line, after);
      if line != "" {
        assert published + ([line] + Lines(after)) == published + [line] + Lines(after);
        published := published + [line];
      }
      start := end + 1;
      found, end := Find(text, start);
    }
    FreeIsOpen('\n', text[start..]);
  }

  // ---------------------------------------------------------------- framing and unframing

  ghost predicate Sendable(messages: seq<string>) {
    forall i :: 0 <= i < |messages| ==> messages[i] != "" && Free('\n', messages[i])
  }

  lemma {:induction false} LinesFramed(messages: seq<string>)
    requires Sendable(messages)
    ensures Closed('\n', Framed(messages)) == messages && Lines(Framed(messages)) == messages && Leftover(Framed(messages)) == ""
  {
    if messages != [] {
      var rest := messages[1..];
      LinesFramed(rest);
      ClosedCons('\n', messages[0], Framed(rest));
      FirstLine(messages[0], Framed(rest));
      assert messages == [messages[0]] + rest;
    }
  }

  lemma {:induction false} LinesSendable(lines: seq<string>)
    requires forall i :: 0 <= i < |lines| ==> Free('\n', lines[i])
    ensures Sendable(NonEmpties(lines))
  {
    if lines != [] {
      LinesSendable(lines[1..]);
    }
  }

  // ---------------------------------------------------------------- the monitor

  function Trim(leftover: string): string {
    if |leftover| > MAX_UNTERMINATED then "" else leftover
  }

  class PipeMonitor {
    var buffer: string

    constructor ()
      ensures buffer == ""
    {
      buffer := "";
    }

    /** One successful read of the pipe. */
    method OnRead(chunk: string) returns (published: seq<string>)
      modifies this
      ensures published == Lines(old(buffer) + chunk)
      ensures buffer == Trim(Leftover(old(buffer) + chunk))
    {
      buffer := buffer + chunk;
      ghost var all := buffer;
      var rest, text := DrainLines(buffer);
      buffer := rest;
      if |buffer| > MAX_UNTERMINATED { buffer := ""; }
      published := [];
      if text != "" { published := PublishLines(text); }
      ClosedAreFree('\n', all);
      LinesSendable(Closed('\n', all));
      LinesFramed(Lines(all));
    }
  }

  // ---------------------------------------------------------------- any way of cutting the stream

  function Concat(chunks: seq<string>): string {
    if chunks == [] then "" else Concat(chunks[..|chunks| - 1]) + chunks[|chunks| - 1]
  }

  /** The buffer after a sequence of reads, and everything published on the way. */
  function BufferAfter(chunks: seq<string>): string {
    if chunks == [] then ""
    else Trim(Leftover(BufferAfter(chunks[..|chunks| - 1]) + chunks[|chunks| - 1]))
  }

  function PublishedAfter(chunks: seq<string>): seq<string> {
    if chunks == [] then []
    else PublishedAfter(chunks[..|chunks| - 1]) + Lines(BufferAfter(chunks[..|chunks| - 1]) + chunks[|chunks| - 1])
  }

  /** No read leaves more unterminated text than the monitor keeps. */
  ghost predicate LeftoversFit(chunks: seq<string>) {
    chunks == [] ||
    (LeftoversFit(chunks[..|chunks| - 1]) && |Leftover(Concat(chunks))| <= MAX_UNTERMINATED)
  }

  /** However the stream is cut into reads, what is published is exactly its non-empty complete lines in order. */
  lemma {:induction false} ChunkingIrrelevant(chunks: seq<string>)
    requires LeftoversFit(chunks)
    ensures PublishedAfter(chunks) == Lines(Concat(chunks)) && BufferAfter(chunks) == Leftover(Concat(chunks))
  {
    if chunks != [] {
      var before, chunk := chunks[..|chunks| - 1], chunks[|chunks| - 1];
      ChunkingIrrelevant(before);
      ClosedConcat('\n', Concat(before), chunk);
      NonEmptiesConcat(Closed('\n', Concat(before)), Closed('\n', Leftover(Concat(before)) + chunk));
    }
  }

  lemma {:induction false} NothingClosed(s: string)
    requires Closed('\n', s) == []
    ensures Open('\n', s) == s
  {
    if s != "" { NothingClosed(s[..|s| - 1]); }
  }

  /** An open beginning is part of the first line that closes after it. */
  lemma {:induction false} FirstPieceCovers(x: string, y: string)
    requires Free('\n', x) && Closed('\n', x + y) != []
    ensures |x| <= |Closed('\n', x + y)[0]|
  {
    FreeIsOpen('\n', x);
    assert x + "" == x;
    if y != "" {
      var front, c := y[..|y| - 1], y[|y| - 1];
      assert x + y == (x + front) + [c];
      ClosedSnoc('\n', x + front, c);
      if Closed('\n', x + front) != [] {
        FirstPieceCovers(x, front);
      } else {
        NothingClosed(x + front);
      }
    }
  }

  ghost predicate MessagesFit(messages: seq<string>) {
    forall i :: 0 <= i < |messages| ==> |messages[i]| <= MAX_UNTERMINATED
  }

  lemma LeftoverFits(messages: seq<string>, p: string, q: string)
    requires Sendable(messages) && MessagesFit(messages) && Framed(messages) == p + q
    ensures |Leftover(p)| <= MAX_UNTERMINATED
  {
    LinesFramed(messages);
    ClosedConcat('\n', p, q);
    OpenIsFree('\n', p);
    var x := Open('\n', p);
    if Closed('\n', x + q) == [] {
      NothingClosed(x + q);
    } else {
      FirstPieceCovers(x, q);
      assert Closed('\n', x + q)[0] == messages[|Closed('\n', p)|];
    }
  }

  lemma {:induction false} FramedLeftoversFit(messages: seq<string>, chunks: seq<string>, q: string)
    requires Sendable(messages) && MessagesFit(messages) && Framed(messages) == Concat(chunks) + q
    ensures LeftoversFit(chunks)
    decreases |chunks|
  {
    if chunks != [] {
      var before, chunk := chunks[..|chunks| - 1], chunks[|chunks| - 1];
      assert Concat(before) + (chunk + q) == Concat(chunks) + q;
      FramedLeftoversFit(messages, before, chunk + q);
      LeftoverFits(messages, Concat(chunks), q);
    }
  }

  /** Non-empty newline-free messages of at most a mebibyte come out unchanged, for every cutting of the pipe. */
  lemma PushedComesOut(messages: seq<string>, chunks: seq<string>)
    requires Sendable(messages) && MessagesFit(messages) && Concat(chunks) == Framed(messages)
    ensures PublishedAfter(chunks) == messages && BufferAfter(chunks) == ""
  {
    assert Concat(chunks) + "" == Concat(chunks);
    FramedLeftoversFit(messages, chunks, "");
    ChunkingIrrelevant(chunks);
    LinesFramed(messages);
  }
}
