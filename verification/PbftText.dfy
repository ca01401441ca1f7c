/** The signed blob and the hashed text determine the message they were made from, as far as they do. */
module PbftText {
  import opened Delimited
  import opened Decimal
  import opened Symbolic
  import opened Pbft
  import Wire = VoteWire

  lemma PrintFree(n: nat)
    ensures Free(BAR, Lift(Print(n)))
  {
    LiftFree(Print(n));
  }

  lemma PrintIntFree(v: int)
    ensures Free(BAR, Lift(PrintInt(v)))
  {
    LiftFree(PrintInt(v));
  }

  lemma LiftPrintInjective(m: nat, n: nat)
    requires Lift(Print(m)) == Lift(Print(n))
    ensures m == n
  {
    LiftInjective(Print(m), Print(n));
    PrintInjective(m, n);
  }

  lemma LiftPrintIntInjective(v: int, w: int)
    requires Lift(PrintInt(v)) == Lift(PrintInt(w))
    ensures v == w
  {
    LiftInjective(PrintInt(v), PrintInt(w));
    PrintIntInjective(v, w);
  }

  /** What the signed blob determines, for every target and evidence: everything but the cut between these two. */
  lemma BlobText(stage: string, target: NodeId, evidence: string, seqNo: U64, view: int, prev: Str,
                 stage': string, target': NodeId, evidence': string, seqNo': U64, view': int, prev': Str)
    requires BarFree(stage) && Free(BAR, prev) && BarFree(stage') && Free(BAR, prev')
    ensures SigningBlob(stage, target, evidence, seqNo, view, prev) == SigningBlob(stage', target', evidence', seqNo', view', prev')
       <==> && stage == stage' && Joined(target, evidence) == Joined(target', evidence')
            && seqNo == seqNo' && view == view' && prev == prev'
  {
    var rest := Lift(Print(seqNo)) + [BAR] + (Lift(PrintInt(view)) + [BAR] + prev);
    var rest' := Lift(Print(seqNo')) + [BAR] + (Lift(PrintInt(view')) + [BAR] + prev');
    JoinedText(target, evidence, rest);
    JoinedText(target', evidence', rest');
    if SigningBlob(stage, target, evidence, seqNo, view, prev) == SigningBlob(stage', target', evidence', seqNo', view', prev') {
      CutText(stage, Lift(Joined(target, evidence)) + [BAR] + rest, stage', Lift(Joined(target', evidence')) + [BAR] + rest');
      PrintFree(seqNo);
      PrintFree(seqNo');
      PrintIntFree(view);
      PrintIntFree(view');
      CutThree(Lift(Joined(target, evidence)), Lift(Print(seqNo)), Lift(PrintInt(view)), prev,
               Lift(Joined(target', evidence')), Lift(Print(seqNo')), Lift(PrintInt(view')), prev');
      LiftInjective(Joined(target, evidence), Joined(target', evidence'));
      LiftPrintInjective(seqNo, seqNo');
      LiftPrintIntInjective(view, view');
    }
  }

  /**
   A signature that verifies for two messages is for one stage, sequence, view and predecessor; and for one
   target and evidence if and only if neither target begins with the other and a bar.
   */
  lemma SignatureBindsIff(key: PublicKey, m: Message, m': Message)
    requires BarFree(m.stage) && Free(BAR, m.prevHash) && BarFree(m'.stage) && Free(BAR, m'.prevHash)
    requires m.signature == m'.signature
    requires SignatureVerifies(key, Blob(m), m.signature) && SignatureVerifies(key, Blob(m'), m'.signature)
    ensures m' == m.(sender := m'.sender, target := m'.target, evidence := m'.evidence)
    ensures m' == m.(sender := m'.sender) <==> !Overlaps(m.target, m'.target)
  {
    BlobText(m.stage, m.target, m.evidence, m.seqNo, m.view, m.prevHash,
             m'.stage, m'.target, m'.evidence, m'.seqNo, m'.view, m'.prevHash);
    JoinedSameIff(m.target, m.evidence, m'.target, m'.evidence);
  }

  /** Equal hash inputs, cut up. */
  lemma HashInputText(m: Message, m': Message)
    requires BarFree(m.stage) && BarFree(m.sender) && Free(BAR, m.prevHash)
    requires BarFree(m'.stage) && BarFree(m'.sender) && Free(BAR, m'.prevHash)
    requires HashInput(m) == HashInput(m')
    ensures m.stage == m'.stage && m.sender == m'.sender && Joined(m.target, m.evidence) == Joined(m'.target, m'.evidence)
    ensures m.prevHash == m'.prevHash && m.seqNo == m'.seqNo && m.view == m'.view
  {
    var rest := m.prevHash + [BAR] + (Lift(Print(m.seqNo)) + [BAR] + Lift(PrintInt(m.view)));
    var rest' := m'.prevHash + [BAR] + (Lift(Print(m'.seqNo)) + [BAR] + Lift(PrintInt(m'.view)));
    JoinedText(m.target, m.evidence, rest);
    JoinedText(m'.target, m'.evidence, rest');
    var text, text' := Lift(Joined(m.target, m.evidence)) + [BAR] + rest, Lift(Joined(m'.target, m'.evidence)) + [BAR] + rest';
    CutText(m.stage, Lift(m.sender) + [BAR] + text, m'.stage, Lift(m'.sender) + [BAR] + text');
    CutText(m.sender, text, m'.sender, text');
    PrintFree(m.seqNo);
    PrintFree(m'.seqNo);
    PrintIntFree(m.view);
    PrintIntFree(m'.view);
    CutThree(Lift(Joined(m.target, m.evidence)), m.prevHash, Lift(Print(m.seqNo)), Lift(PrintInt(m.view)),
             Lift(Joined(m'.target, m'.evidence)), m'.prevHash, Lift(Print(m'.seqNo)), Lift(PrintInt(m'.view)));
    LiftInjective(Joined(m.target, m.evidence), Joined(m'.target, m'.evidence));
    LiftPrintInjective(m.seqNo, m'.seqNo);
    LiftPrintIntInjective(m.view, m'.view);
  }

  /**
   Equal message hashes mean one stage, sender, sequence, view and predecessor; and one message, up to the
   signature, which is not hashed, if and only if neither target begins with the other and a bar.
   */
  lemma MessageHashBindsIff(m: Message, m': Message)
    requires BarFree(m.stage) && BarFree(m.sender) && Free(BAR, m.prevHash)
    requires BarFree(m'.stage) && BarFree(m'.sender) && Free(BAR, m'.prevHash)
    requires MessageHash(m) == MessageHash(m')
    ensures m' == m.(signature := m'.signature, target := m'.target, evidence := m'.evidence)
    ensures m' == m.(signature := m'.signature) <==> !Overlaps(m.target, m'.target)
  {
    assert Digest(HashInput(m)) == MessageHash(m)[0] == MessageHash(m')[0] == Digest(HashInput(m'));
    HashInputText(m, m');
    JoinedSameIff(m.target, m.evidence, m'.target, m'.evidence);
  }

  // ---------------------------------------------------------------- what a receiver can make of a signed text

  /** Evidence as every way into the node demands it. */
  predicate Opens(evidence: string) {
    evidence != "" && evidence[0] == '{'
  }

  /** A target and evidence that a receiver takes from a VOTE. */
  ghost predicate Receivable(target: NodeId, evidence: string) {
    BarFree(target) && 0 < |target| <= Wire.MAX_ID && Opens(evidence)
  }

  ghost predicate MisreadAt(target: NodeId, i: int) {
    && 0 < i <= Wire.MAX_ID && i + 1 < |target|
    && BarFree(target[..i]) && target[i] == '|' && target[i + 1] == '{'
  }

  /** Up to its first bar the target is an id, and right after it there is a brace. */
  ghost predicate Misread(target: NodeId) {
    exists i :: MisreadAt(target, i)
  }

  lemma MisreadTexts(target: NodeId, evidence: string, i: int) returns (target': NodeId, evidence': string)
    requires MisreadAt(target, i)
    ensures target' == target[..i] && evidence' == target[i + 1..] + "|" + evidence
    ensures Receivable(target', evidence') && Joined(target', evidence') == Joined(target, evidence)
  {
    target', evidence' := target[..i], target[i + 1..] + "|" + evidence;
    assert target == target' + "|" + target[i + 1..];
  }

  lemma OtherReading(target: NodeId, evidence: string, target': NodeId, evidence': string)
    requires Receivable(target', evidence') && Joined(target', evidence') == Joined(target, evidence)
    requires target' != target || evidence' != evidence
    ensures MisreadAt(target, |target'|)
  {
    JoinedSameIff(target, evidence, target', evidence');
    var text, i := Joined(target, evidence), |target'|;
    assert text == Joined(target', evidence');
    assert text[..i] == target' && text[i] == '|' && text[i + 1] == '{';
    if StartsWith(target', target + "|") { StartHasBar(target', target); }
    assert |target| > i;
    assert target == text[..|target|];
    assert text[|target|] == '|';
  }

  /**
   A receiver can take a signed target and evidence for a different pair if and only if what precedes the
   first bar of the target is an id and what follows it starts with a brace, whatever the evidence.
   */
  lemma MisreadIff(target: NodeId, evidence: string)
    ensures (exists target', evidence' :: Receivable(target', evidence') && (target' != target || evidence' != evidence)
                                       && Joined(target', evidence') == Joined(target, evidence))
       <==> Misread(target)
  {
    forall target', evidence' | Receivable(target', evidence') && (target' != target || evidence' != evidence)
                                && Joined(target', evidence') == Joined(target, evidence)
      ensures Misread(target)
    {
      OtherReading(target, evidence, target', evidence');
    }
    if Misread(target) {
      var i :| MisreadAt(target, i);
      var target', evidence' := MisreadTexts(target, evidence, i);
      assert |target'| < |target|;
    }
  }

  lemma BarFreeRead(target: NodeId)
    requires BarFree(target)
    ensures !Misread(target)
  {
  }

  // ---------------------------------------------------------------- round keys

  predicate EndsWith(s: string, end: string) {
    |end| <= |s| && s[|s| - |end|..] == end
  }

  /** One target is the other behind a bar and something more. */
  predicate Confusable(target: NodeId, target': NodeId) {
    EndsWith(target, "|" + target') || EndsWith(target', "|" + target)
  }

  /** Two different pairs of evidence and target that are counted as one round. */
  ghost predicate Collide(evidence: string, target: NodeId, evidence': string, target': NodeId) {
    RoundKey(evidence, target) == RoundKey(evidence', target') && (evidence, target) != (evidence', target')
  }

  lemma RoundKeyText(evidence: string, target: NodeId, evidence': string, target': NodeId)
    ensures RoundKey(evidence, target) == RoundKey(evidence', target')
       <==> evidence + "|" + target == evidence' + "|" + target'
  {
    var text, text' := Lift(evidence) + [BAR] + Lift(target), Lift(evidence') + [BAR] + Lift(target');
    var plain, plain' := evidence + "|" + target, evidence' + "|" + target';
    assert RoundKey(evidence, target)[0] == Digest(text) && RoundKey(evidence', target')[0] == Digest(text');
    assert text == Lift(plain) && text' == Lift(plain');
    if text == text' { LiftInjective(plain, plain'); }
  }

  /** Of two equal texts the one cut earlier has the longer target. */
  lemma LongerTarget(evidence: string, target: NodeId, evidence': string, target': NodeId)
    requires evidence + "|" + target == evidence' + "|" + target' && |evidence| < |evidence'|
    ensures EndsWith(target, "|" + target')
  {
    var text, text' := evidence + "|" + target, evidence' + "|" + target';
    var n := |"|" + target'|;
    assert text[|text| - n..] == text'[|text'| - n..] == "|" + target';
    assert target[|target| - n..] == text[|text| - n..];
  }

  /** Two pairs with one round key are one pair exactly if their targets are not confusable. */
  lemma RoundKeySameIff(evidence: string, target: NodeId, evidence': string, target': NodeId)
    requires RoundKey(evidence, target) == RoundKey(evidence', target')
    ensures evidence == evidence' && target == target' <==> !Confusable(target, target')
  {
    RoundKeyText(evidence, target, evidence', target');
    var text, text' := evidence + "|" + target, evidence' + "|" + target';
    if |evidence| < |evidence'| {
      LongerTarget(evidence, target, evidence', target');
    } else if |evidence'| < |evidence| {
      LongerTarget(evidence', target', evidence, target);
    } else {
      assert evidence == text[..|evidence|] == text'[..|evidence'|] == evidence';
      assert target == text[|evidence| + 1..] == text'[|evidence'| + 1..] == target';
    }
  }

  /** With bar-free targets a round key belongs to one evidence and one target. */
  lemma RoundKeyInjective(evidence: string, target: NodeId, evidence': string, target': NodeId)
    requires BarFree(target) && BarFree(target')
    requires RoundKey(evidence, target) == RoundKey(evidence', target')
    ensures evidence == evidence' && target == target'
  {
    if EndsWith(target, "|" + target') { EndsHasBar(target, target'); }
    if EndsWith(target', "|" + target) { EndsHasBar(target', target); }
    RoundKeySameIff(evidence, target, evidence', target');
  }

  lemma EndsHasBar(target: NodeId, other: NodeId)
    requires EndsWith(target, "|" + other)
    ensures !BarFree(target)
  {
    var end := "|" + other;
    assert target[|target| - |end|] == target[|target| - |end|..][0] == end[0] == '|';
  }

  lemma ConfusableCollide(target: NodeId, target': NodeId) returns (evidence: string, evidence': string)
    requires EndsWith(target, "|" + target')
    ensures Opens(evidence) && Opens(evidence') && Collide(evidence, target, evidence', target')
  {
    var front := target[..|target| - |"|" + target'|];
    assert target == front + ("|" + target');
    evidence, evidence' := "{}", "{}|" + front;
    assert evidence + "|" + target == evidence' + "|" + target';
    RoundKeyText(evidence, target, evidence', target');
    assert |evidence| < |evidence'|;
  }

  /**
   Two targets can make one round out of two pairs if and only if one ends with a bar and the other; and
   then evidence that the node accepts does it.
   */
  lemma RoundKeyCollidesIff(target: NodeId, target': NodeId)
    ensures (exists evidence, evidence' :: Collide(evidence, target, evidence', target')) <==> Confusable(target, target')
    ensures (exists evidence, evidence' :: Opens(evidence) && Opens(evidence') && Collide(evidence, target, evidence', target'))
       <==> Confusable(target, target')
  {
    forall evidence, evidence' | Collide(evidence, target, evidence', target') ensures Confusable(target, target') {
      RoundKeySameIff(evidence, target, evidence', target');
    }
    if EndsWith(target, "|" + target') {
      var e, e' := ConfusableCollide(target, target');
    } else if EndsWith(target', "|" + target) {
      var e', e := ConfusableCollide(target', target);
      assert Collide(e, target, e', target');
    }
  }
}
