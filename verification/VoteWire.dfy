/** The VOTE message of consensus/MeshNode.cpp: printing, splitting, parsing and the receiver's guards. */
module VoteWire {
  import opened Wrappers
  import opened Delimited
  import opened Decimal
  import opened Base64
  import opened Symbolic

  const MAX_MESSAGE: int := 65536
  const MAX_ID: int := 64
  const BRACE: Byte := 0x7B
  const INT_MAX: int := 0x7FFF_FFFF
  const INT_MIN: int := -0x8000_0000

  datatype WireVote = WireVote(
    stage: string, sender: string, seqNo: U64, view: int, target: string,
    evidence: seq<Byte>, prevHash: string, signature: seq<Byte>)

  // ---------------------------------------------------------------- joining and splitting

  function Join(tokens: seq<string>): string
    requires tokens != []
  {
    if |tokens| == 1 then tokens[0] else tokens[0] + "|" + Join(tokens[1..])
  }

  /** The pieces of a target between its bars: one, unless it has any. */
  function Segments(target: string): (r: seq<string>)
    ensures r != []
  {
    Closed('|', target) + [Open('|', target)]
  }

  function Front(v: WireVote): seq<string> { ["VOTE", v.stage, v.sender, Print(v.seqNo), PrintInt(v.view)] }

  function Back(v: WireVote): seq<string> { [Encode(v.evidence), v.prevHash, Encode(v.signature)] }

  /** The tokens of a vote, as they are between bars. */
  function Tokens(v: WireVote): seq<string> { Front(v) + Segments(v.target) + Back(v) }

  function Payload(v: WireVote): string {
    "VOTE" + "|" + (v.stage + "|" + (v.sender + "|" + (Print(v.seqNo) + "|" + (PrintInt(v.view) + "|" +
    (v.target + "|" + (Encode(v.evidence) + "|" + (v.prevHash + "|" + Encode(v.signature))))))))
  }

  function Split(s: string): seq<string> {
    Pieces('|', s)
  }

  method SplitString(str: string) returns (tokens: seq<string>)
    ensures tokens == Split(str)
  {
    tokens := [];
    var token := "";
    var i := 0;
    while i < |str|
      invariant 0 <= i <= |str|
      invariant tokens == Closed('|', str[..i]) && token == Open('|', str[..i])
    {
      assert str[..i + 1] == str[..i] + [str[i]];
      ClosedSnoc('|', str[..i], str[i]);
      if str[i] == '|' {
        tokens, token := tokens + [token], "";
      } else {
        token := token + [str[i]];
      }
      i := i + 1;
    }
    assert str[..i] == str;
    if token != "" { tokens := tokens + [token]; }
  }

  ghost predicate AllFree(tokens: seq<string>) {
    forall i :: 0 <= i < |tokens| ==> BarFree(tokens[i])
  }

  lemma SplitFirst(a: string, b: string)
    requires BarFree(a)
    ensures Split(a + "|" + b) == [a] + Split(b)
  {
    ClosedCons('|', a, b);
  }

  lemma FrontOfCons(tokens: seq<string>)
    requires |tokens| > 1
    ensures tokens == [tokens[0]] + tokens[1..]
    ensures tokens[..|tokens| - 1] == [tokens[0]] + tokens[1..][..|tokens| - 2]
  {
  }

  /** Splitting undoes joining as long as the last token is not empty; an empty last token is lost. */
  lemma {:induction false} SplitJoin(tokens: seq<string>)
    requires tokens != [] && AllFree(tokens)
    ensures Split(Join(tokens)) ==
              if tokens[|tokens| - 1] != "" then tokens else tokens[..|tokens| - 1]
    decreases |tokens|
  {
    if |tokens| == 1 {
      assert tokens == [tokens[0]];
      FreeIsOpen('|', tokens[0]);
    } else {
      var rest := tokens[1..];
      SplitJoin(rest);
      SplitFirst(tokens[0], Join(rest));
      FrontOfCons(tokens);
    }
  }

  lemma {:induction false} JoinConcat(a: seq<string>, b: seq<string>)
    requires a != [] && b != []
    ensures Join(a + b) == Join(a) + "|" + Join(b)
    decreases |a|
  {
    TailConcat(a, b);
    assert (a + b)[0] == a[0];
    if |a| == 1 {
      assert a[1..] + b == b;
    } else {
      JoinConcat(a[1..], b);
      assert a[0] + "|" + (Join(a[1..]) + "|" + Join(b)) == a[0] + "|" + Join(a[1..]) + "|" + Join(b);
    }
  }

  lemma {:induction false} JoinSnoc(a: seq<string>, x: string)
    ensures Join(a + [x]) == if a == [] then x else Join(a) + "|" + x
  {
    if a == [] { assert a + [x] == [x]; } else { JoinConcat(a, [x]); }
  }

  /** Joining the pieces of a text gives the text. */
  lemma {:induction false} JoinSegments(s: string)
    ensures Join(Segments(s)) == s
  {
    if s != "" {
      var front, x := s[..|s| - 1], s[|s| - 1];
      JoinSegments(front);
      assert front + [x] == s;
      ClosedSnoc('|', front, x);
      JoinSnoc(Closed('|', front), Open('|', front));
      if x == '|' {
        JoinSnoc(Segments(front), "");
      } else {
        JoinSnoc(Closed('|', front), Open('|', front) + [x]);
      }
    }
  }

  lemma FrontJoined(v: WireVote)
    ensures Join(Front(v)) == "VOTE" + "|" + (v.stage + "|" + (v.sender + "|" + (Print(v.seqNo) + "|" + PrintInt(v.view))))
  {
    var t := Front(v);
    JoinTail(t, 3);
    JoinTail(t, 2);
    JoinTail(t, 1);
    JoinTail(t, 0);
    assert t[0..] == t && t[4..] == [PrintInt(v.view)];
  }

  lemma BackJoined(v: WireVote)
    ensures Join(Back(v)) == Encode(v.evidence) + "|" + (v.prevHash + "|" + Encode(v.signature))
  {
    var t := Back(v);
    JoinTail(t, 1);
    JoinTail(t, 0);
    assert t[0..] == t && t[2..] == [Encode(v.signature)];
  }

  lemma GroupFront(a: string, b: string, c: string, d: string, e: string, rest: string)
    ensures a + "|" + (b + "|" + (c + "|" + (d + "|" + (e + "|" + rest)))) == (a + "|" + (b + "|" + (c + "|" + (d + "|" + e)))) + "|" + rest
  {
    var de := d + "|" + e;
    assert d + "|" + (e + "|" + rest) == de + "|" + rest;
    var cde := c + "|" + de;
    assert c + "|" + (de + "|" + rest) == cde + "|" + rest;
    assert b + "|" + (cde + "|" + rest) == (b + "|" + cde) + "|" + rest;
  }

  lemma JoinThree(a: seq<string>, b: seq<string>, c: seq<string>)
    requires a != [] && b != [] && c != []
    ensures Join(a + b + c) == Join(a) + "|" + (Join(b) + "|" + Join(c))
  {
    JoinConcat(a + b, c);
    JoinConcat(a, b);
    GroupTwo(Join(a), Join(b), Join(c));
  }

  lemma GroupTwo(x: string, y: string, z: string)
    ensures x + "|" + y + "|" + z == x + "|" + (y + "|" + z)
  {
  }

  /** For every target: the payload is its tokens joined. */
  lemma PayloadIsJoin(v: WireVote)
    ensures Payload(v) == Join(Tokens(v))
  {
    JoinThree(Front(v), Segments(v.target), Back(v));
    JoinSegments(v.target);
    FrontJoined(v);
    BackJoined(v);
    GroupFront("VOTE", v.stage, v.sender, Print(v.seqNo), PrintInt(v.view),
               v.target + "|" + (Encode(v.evidence) + "|" + (v.prevHash + "|" + Encode(v.signature))));
  }

  lemma JoinTail(t: seq<string>, i: nat)
    requires i + 1 < |t|
    ensures Join(t[i..]) == t[i] + "|" + Join(t[i + 1..])
  {
    assert t[i..][1..] == t[i + 1..];
  }

  // ---------------------------------------------------------------- numbers

  predicate IsSpace(c: char) {
    c == ' ' || c == '\t' || c == '\n' || c == '\r' || c == '\U{000B}' || c == '\U{000C}'
  }

  function SkipSpace(s: string): string {
    if s != "" && IsSpace(s[0]) then SkipSpace(s[1..]) else s
  }

  predicate Negative(s: string) { s != "" && s[0] == '-' }

  function Unsigned(s: string): string {
    if s != "" && (s[0] == '-' || s[0] == '+') then s[1..] else s
  }

  /** std::stoull: white space, a sign, digits; a minus sign negates modulo 2^64. */
  function Stoull(s: string): Option<U64> {
    var t := SkipSpace(s);
    var digits := DigitRun(Unsigned(t));
    if digits == "" || Number(digits) >= TWO_64 then None
    else Some(if Negative(t) then (TWO_64 - Number(digits)) % TWO_64 else Number(digits))
  }

  /** std::stoi: as above for a 32-bit int. */
  function Stoi(s: string): Option<int> {
    var t := SkipSpace(s);
    var digits := DigitRun(Unsigned(t));
    if digits == "" then None
    else
      var n: int := if Negative(t) then 0 - Number(digits) else Number(digits);
      if INT_MIN <= n <= INT_MAX then Some(n) else None
  }

  lemma {:induction false} StoullPrint(n: U64)
    ensures Stoull(Print(n)) == Some(n)
  {
    var s := Print(n);
    assert IsDigit(s[0]);
    DigitRunAll(s);
    NumberPrint(n);
  }

  lemma {:induction false} StoiPrint(v: int)
    requires INT_MIN <= v <= INT_MAX
    ensures Stoi(PrintInt(v)) == Some(v)
  {
    var n := if v < 0 then -v else v;
    StoiDigits(n, v < 0);
  }

  lemma {:induction false} StoiDigits(n: nat, negative: bool)
    requires n <= INT_MAX || (negative && n <= 0 - INT_MIN)
    ensures Stoi(if negative then "-" + Print(n) else Print(n)) == Some(if negative then 0 - n else n)
  {
    NumberPrint(n);
    StoiText(Print(n), negative);
  }

  /** A sign, if any, and digits. */
  lemma {:induction false} StoiText(digits: string, negative: bool)
    requires digits != "" && AllDigits(digits)
    requires Number(digits) <= INT_MAX || (negative && Number(digits) <= 0 - INT_MIN)
    ensures Stoi(if negative then "-" + digits else digits) == Some(if negative then 0 - Number(digits) else Number(digits))
  {
    assert IsDigit(digits[0]);
    DigitRunAll(digits);
    var s := if negative then "-" + digits else digits;
    SkipNothing(s);
    if negative { assert s[1..] == digits; }
  }

  lemma SkipNothing(s: string)
    requires s == "" || !IsSpace(s[0])
    ensures SkipSpace(s) == s
  {
  }

  // ---------------------------------------------------------------- the receiver

  /** A char is signed: codes from 128 up compare below 32 and are refused with the control characters. */
  predicate ByteOk(c: char) {
    32 <= c as int < 128 || c == '\n' || c == '\r'
  }

  predicate ValidMessage(msg: string) {
    0 < |msg| <= MAX_MESSAGE && forall i :: 0 <= i < |msg| ==> ByteOk(msg[i])
  }

  predicate StageKnown(stage: string) {
    stage == "PRE_PREPARE" || stage == "PREPARE" || stage == "COMMIT" || stage == "BAN_PEER"
  }

  /** base64_decode(...).value_or(""). */
  function DecodedOr(s: string): seq<Byte> {
    match Decode(s)
    case Bytes(bytes) => bytes
    case _ => []
  }

  /** The VOTE branch of process_message, up to the message handed to the engine. */
  function Receive(msg: string, me: string, maxEvidence: nat): Option<WireVote> {
    if !ValidMessage(msg) then None
    else
      var t := Split(msg);
      if |t| < 9 || t[0] != "VOTE" then None
      else ReceiveTokens(t, me, maxEvidence)
  }

  function ReceiveTokens(t: seq<string>, me: string, maxEvidence: nat): Option<WireVote>
    requires |t| >= 9
  {
    if t[1] == "" || t[2] == "" || t[5] == "" then None
    else if |t[2]| > MAX_ID || |t[5]| > MAX_ID then None
    else if |t[6]| > maxEvidence * 4 / 3 + 4 then None
    else
      var evidence := DecodedOr(t[6]);
      if evidence == [] || |evidence| > maxEvidence then None
      else if evidence[0] != BRACE then None
      else if !StageKnown(t[1]) then None
      else if Stoull(t[3]).None? || Stoi(t[4]).None? then None
      else
        var signature := DecodedOr(t[8]);
        if signature == [] then None
        else if t[2] == me then None
        else Some(WireVote(t[1], t[2], Stoull(t[3]).value, Stoi(t[4]).value, t[5], evidence, t[7], signature))
  }

  // ---------------------------------------------------------------- the round trip

  ghost predicate Printable(s: string) {
    forall i :: 0 <= i < |s| ==> ByteOk(s[i])
  }

  /** What a node sends: a stage, its id and a hash without bars, an int, and any target, evidence and signature. */
  ghost predicate Sendable(v: WireVote) {
    INT_MIN <= v.view <= INT_MAX && BarFree(v.stage) && BarFree(v.sender) && BarFree(v.prevHash)
  }

  /** What the receiver takes the vote for: of a target with bars it sees the first piece, and the next ones as later fields. */
  function Reading(v: WireVote): WireVote {
    var t := Segments(v.target) + Back(v);
    WireVote(v.stage, v.sender, v.seqNo, v.view, t[0], DecodedOr(t[1]), t[2], DecodedOr(t[3]))
  }

  ghost predicate TextPrintable(v: WireVote) {
    Printable(v.stage) && Printable(v.sender) && Printable(v.target) && Printable(v.prevHash)
  }

  /** The receiver's conditions, on the fields as it reads them. */
  ghost predicate Admitted(w: WireVote, me: string, maxEvidence: nat) {
    && StageKnown(w.stage)
    && 0 < |w.sender| <= MAX_ID && 0 < |w.target| <= MAX_ID
    && 0 < |w.evidence| <= maxEvidence && w.evidence[0] == BRACE
    && w.signature != []
    && w.sender != me
  }

  /** The vote arrives: it is printable and short enough, and so is the text read as its evidence. */
  ghost predicate Arrives(v: WireVote, maxEvidence: nat) {
    && TextPrintable(v) && |Payload(v)| <= MAX_MESSAGE
    && |(Segments(v.target) + Back(v))[1]| <= maxEvidence * 4 / 3 + 4
  }

  /** The size guard before decoding never refuses evidence the bound after decoding would take. */
  lemma {:induction false} SizeGuardAdmits(evidence: seq<Byte>, maxEvidence: nat)
    requires |evidence| <= maxEvidence
    ensures |Encode(evidence)| <= maxEvidence * 4 / 3 + 4
  {
    EncodeLength(evidence);
  }

  lemma SegmentsFree(s: string)
    ensures AllFree(Segments(s))
  {
    ClosedAreFree('|', s);
    OpenIsFree('|', s);
  }

  lemma AllFreeConcat(a: seq<string>, b: seq<string>)
    requires AllFree(a) && AllFree(b)
    ensures AllFree(a + b)
  {
  }

  lemma FrontFree(v: WireVote)
    requires Sendable(v)
    ensures AllFree(Front(v))
  {
    var t := Front(v);
    assert BarFree(t[0]) && BarFree(t[1]) && BarFree(t[2]) && BarFree(t[3]) && BarFree(t[4]);
  }

  lemma TokensFree(v: WireVote)
    requires Sendable(v)
    ensures AllFree(Tokens(v))
  {
    EncodeBarFree(v.evidence);
    EncodeBarFree(v.signature);
    FrontFree(v);
    SegmentsFree(v.target);
    AllFreeConcat(Front(v), Segments(v.target));
    var t := Back(v);
    assert BarFree(t[0]) && BarFree(t[1]) && BarFree(t[2]);
    AllFreeConcat(Front(v) + Segments(v.target), Back(v));
  }

  lemma PrintableConcat(s: string, t: string)
    ensures Printable(s + t) <==> Printable(s) && Printable(t)
  {
    if Printable(s + t) {
      forall i | 0 <= i < |s| ensures ByteOk(s[i]) { assert (s + t)[i] == s[i]; }
      forall i | 0 <= i < |t| ensures ByteOk(t[i]) { assert (s + t)[|s| + i] == t[i]; }
    }
  }

  lemma PrintableField(s: string, t: string)
    ensures Printable(s + "|" + t) <==> Printable(s) && Printable(t)
  {
    PrintableConcat(s, "|");
    PrintableConcat(s + "|", t);
  }

  lemma {:induction false} EncodePrintable(s: seq<Byte>)
    ensures Printable(Encode(s))
  {
    EncodeKnown(s);
    forall i | 0 <= i < |Encode(s)| ensures ByteOk(Encode(s)[i]) { assert Known(Encode(s)[i]); }
  }

  /** Everything a node prints itself is printable; so it depends on the text fields. */
  lemma PayloadPrintable(v: WireVote)
    ensures (Printable(Payload(v)) <==> TextPrintable(v)) && Payload(v) != ""
  {
    EncodePrintable(v.evidence);
    EncodePrintable(v.signature);
    var t7 := v.prevHash + "|" + Encode(v.signature);
    var t6 := Encode(v.evidence) + "|" + t7;
    var t5 := v.target + "|" + t6;
    var t4 := PrintInt(v.view) + "|" + t5;
    var t3 := Print(v.seqNo) + "|" + t4;
    var t2 := v.sender + "|" + t3;
    var t1 := v.stage + "|" + t2;
    PrintableField(v.prevHash, Encode(v.signature));
    PrintableField(Encode(v.evidence), t7);
    PrintableField(v.target, t6);
    PrintableField(PrintInt(v.view), t5);
    PrintableField(Print(v.seqNo), t4);
    PrintableField(v.sender, t3);
    PrintableField(v.stage, t2);
    PrintableField("VOTE", t1);
    assert Printable(PrintInt(v.view)) && Printable(Print(v.seqNo)) && Printable("VOTE");
  }

  /** The receiver's split gives back the tokens, but for an empty signature at the end. */
  lemma PayloadSplits(v: WireVote)
    requires Sendable(v)
    ensures Split(Payload(v)) == if v.signature != [] then Tokens(v) else Tokens(v)[..|Tokens(v)| - 1]
  {
    TokensFree(v);
    PayloadIsJoin(v);
    SplitJoin(Tokens(v));
    EncodeLength(v.signature);
  }

  lemma TokensReceived(v: WireVote, t: seq<string>, me: string, maxEvidence: nat)
    requires INT_MIN <= v.view <= INT_MAX && |t| >= 9 && t[..5] == Front(v) && t[5..9] == (Segments(v.target) + Back(v))[..4]
    ensures ReceiveTokens(t, me, maxEvidence) ==
              if Admitted(Reading(v), me, maxEvidence) && |t[6]| <= maxEvidence * 4 / 3 + 4 then Some(Reading(v)) else None
  {
    var f, b := t[..5], t[5..9];
    assert t[1] == f[1] && t[2] == f[2] && t[3] == f[3] && t[4] == f[4];
    assert t[5] == b[0] && t[6] == b[1] && t[7] == b[2] && t[8] == b[3];
    StoullPrint(v.seqNo);
    StoiPrint(v.view);
  }

  lemma FirstNine(v: WireVote)
    ensures |Tokens(v)| >= 9 && Tokens(v)[..5] == Front(v) && Tokens(v)[5..9] == (Segments(v.target) + Back(v))[..4]
    ensures Tokens(v)[0] == "VOTE" && Tokens(v)[6] == (Segments(v.target) + Back(v))[1]
  {
    var rest := Segments(v.target) + Back(v);
    assert Tokens(v) == Front(v) + rest;
  }

  /** Without a bar in the target the empty signature is the ninth token, which is lost. */
  lemma EmptySignature(v: WireVote)
    requires v.signature == [] && |Segments(v.target)| == 1
    ensures Reading(v).signature == []
  {
  }

  /**
   What the receiver makes of any vote a node can send, whatever its target: exactly its reading of it if that
   arrives and is admitted, and nothing at all otherwise.
   */
  lemma VoteReceived(v: WireVote, me: string, maxEvidence: nat)
    requires Sendable(v)
    ensures Receive(Payload(v), me, maxEvidence) ==
              if Arrives(v, maxEvidence) && Admitted(Reading(v), me, maxEvidence) then Some(Reading(v)) else None
  {
    PayloadPrintable(v);
    if TextPrintable(v) && |Payload(v)| <= MAX_MESSAGE {
      PayloadSplits(v);
      FirstNine(v);
      var t := Split(Payload(v));
      if v.signature != [] {
        TokensReceived(v, t, me, maxEvidence);
      } else if |Segments(v.target)| == 1 {
        EmptySignature(v);
      } else {
        assert t[..5] == Tokens(v)[..5] && t[5..9] == Tokens(v)[5..9] && t[6] == Tokens(v)[6];
        TokensReceived(v, t, me, maxEvidence);
      }
    }
  }

  /** The reading is the vote itself exactly if its target has no bar. */
  lemma ReadingExactIff(v: WireVote)
    ensures Reading(v) == v <==> BarFree(v.target)
  {
    SegmentsFree(v.target);
    if BarFree(v.target) {
      FreeIsOpen('|', v.target);
      DecodeEncode(v.evidence);
      DecodeEncode(v.signature);
      assert Segments(v.target) + Back(v) == [v.target] + Back(v);
    } else {
      assert (Segments(v.target) + Back(v))[0] == Segments(v.target)[0];
    }
  }

  /** The receiver recovers exactly the vote that was sent if and only if its target has no bar and the receiver's conditions hold. */
  lemma VoteRoundTripIff(v: WireVote, me: string, maxEvidence: nat)
    requires Sendable(v)
    ensures Receive(Payload(v), me, maxEvidence) == Some(v)
       <==> && BarFree(v.target) && TextPrintable(v) && |Payload(v)| <= MAX_MESSAGE && Admitted(v, me, maxEvidence)
    ensures BarFree(v.target) && Receive(Payload(v), me, maxEvidence) != Some(v) ==> Receive(Payload(v), me, maxEvidence) == None
  {
    VoteReceived(v, me, maxEvidence);
    ReadingExactIff(v);
    if BarFree(v.target) {
      FreeIsOpen('|', v.target);
      assert (Segments(v.target) + Back(v))[1] == Encode(v.evidence);
      if |v.evidence| <= maxEvidence { SizeGuardAdmits(v.evidence, maxEvidence); }
    }
  }

  /** With one bar in the target the receiver takes what follows it for the evidence, and the hash for the signature. */
  lemma OneBarReading(v: WireVote, front: string, back: string)
    requires v.target == front + "|" + back && BarFree(front) && BarFree(back)
    ensures Reading(v) == v.(target := front, evidence := DecodedOr(back), prevHash := Encode(v.evidence), signature := DecodedOr(v.prevHash))
  {
    ClosedCons('|', front, back);
    FreeIsOpen('|', back);
    assert Segments(v.target) == [front, back];
    assert Segments(v.target) + Back(v) == [front, back] + Back(v);
  }

  lemma {:induction false} EmptyObject()
    ensures DecodedOr("e30=") == [0x7B, 0x7D]
  {
    assert Encode([0x7B, 0x7D]) == "e30=";
    DecodeEncode([0x7B, 0x7D]);
  }

  /** For example, a vote against "b|e30=" is delivered as a vote of its sender against "b", with the hash as its signature. */
  lemma ShiftedVote(v: WireVote, me: string, maxEvidence: nat)
    requires Sendable(v) && TextPrintable(v) && |Payload(v)| <= MAX_MESSAGE && v.target == "b|e30="
    requires StageKnown(v.stage) && 0 < |v.sender| <= MAX_ID && v.sender != me && maxEvidence >= 2 && DecodedOr(v.prevHash) != []
    ensures Receive(Payload(v), me, maxEvidence) ==
              Some(v.(target := "b", evidence := [0x7B, 0x7D], prevHash := Encode(v.evidence), signature := DecodedOr(v.prevHash)))
  {
    EmptyObject();
    var front, back := "b", "e30=";
    assert v.target == front + "|" + back;
    OneBarReading(v, front, back);
    ClosedCons('|', front, back);
    FreeIsOpen('|', back);
    assert Segments(v.target) == [front, back];
    VoteReceived(v, me, maxEvidence);
  }
}
