/** The outbound rewrite: identity phrases out of system turns, the identity line out of every turn. */
module Scrub {
  import opened Replace
  import opened Sentinels

  const PAIRS: seq<(string, string)> :=
    [(IDENTITY, NEUTRAL), (CODE, CODING), (AGENT, CODING), (CLI, CODING_CLI), (SDK, THE_SDK)]

  function ScrubUpTo(text: string, n: nat): string
    requires n <= 5
  {
    if n == 0 then text else ReplaceAll(ScrubUpTo(text, n - 1), PAIRS[n - 1].0, PAIRS[n - 1].1)
  }

  function ScrubSystem(text: string): string {
    ScrubUpTo(text, 5)
  }

  method ScrubText(text: string) returns (out: string)
    ensures out == ScrubSystem(text)
  {
    out := text;
    if text == "" {
      EmptyStaysEmpty(5);
      return;
    }
    for i := 0 to |PAIRS|
      invariant out == ScrubUpTo(text, i)
    {
      out := ReplaceAll(out, PAIRS[i].0, PAIRS[i].1);
    }
  }

  lemma {:induction false} EmptyStaysEmpty(n: nat)
    requires n <= 5
    ensures ScrubUpTo("", n) == ""
  {
    if n > 0 {
      EmptyStaysEmpty(n - 1);
      assert |PAIRS[n - 1].0| > 0;
    }
  }

  function ScrubHistory(text: string): string {
    ReplaceAll(text, IDENTITY, NEUTRAL)
  }

  lemma Unfold(text: string)
    ensures ScrubSystem(text)
         == ReplaceAll(ReplaceAll(ReplaceAll(ReplaceAll(ReplaceAll(text, IDENTITY, NEUTRAL), CODE, CODING), AGENT,
                                             CODING), CLI, CODING_CLI), SDK, THE_SDK)
  {
    assert ScrubUpTo(text, 1) == ReplaceAll(text, IDENTITY, NEUTRAL);
    assert ScrubUpTo(text, 2) == ReplaceAll(ScrubUpTo(text, 1), CODE, CODING);
    assert ScrubUpTo(text, 3) == ReplaceAll(ScrubUpTo(text, 2), AGENT, CODING);
    assert ScrubUpTo(text, 4) == ReplaceAll(ScrubUpTo(text, 3), CLI, CODING_CLI);
    assert ScrubUpTo(text, 5) == ReplaceAll(ScrubUpTo(text, 4), SDK, THE_SDK);
  }

  // ---- the identity line never survives ----

  lemma HistoryIsClean(text: string)
    ensures !Contains(ScrubHistory(text), IDENTITY)
  {
    hide *;
    IdentityApart();
    NonEmptyPhrases();
    AllReplaced(text, IDENTITY, NEUTRAL);
    ScrubHistoryIs(text);
  }

  lemma ScrubHistoryIs(text: string)
    ensures IDENTITY != "" && ScrubHistory(text) == ReplaceAll(text, IDENTITY, NEUTRAL)
  {
  }

  lemma NonEmptyPhrases()
    ensures IDENTITY != "" && CODE != "" && AGENT != "" && CLI != "" && SDK != ""
  {
  }

  /** Though each later replacement could in principle rebuild the line across a boundary, none does. */
  lemma SystemIsClean(text: string)
    ensures !Contains(ScrubSystem(text), IDENTITY)
  {
    hide *;
    NonEmptyPhrases();
    IdentityApart();
    var t1 := ReplaceAll(text, IDENTITY, NEUTRAL);
    var t2 := ReplaceAll(t1, CODE, CODING);
    var t3 := ReplaceAll(t2, AGENT, CODING);
    var t4 := ReplaceAll(t3, CLI, CODING_CLI);
    AllReplaced(text, IDENTITY, NEUTRAL);
    NoneCreated(t1, CODE, CODING, IDENTITY);
    NoneCreated(t2, AGENT, CODING, IDENTITY);
    NoneCreated(t3, CLI, CODING_CLI, IDENTITY);
    NoneCreated(t4, SDK, THE_SDK, IDENTITY);
    Unfold(text);
  }

  // ---- the fragments ----

  lemma FragmentsAreGone(text: string)
    ensures !Contains(ScrubSystem(text), CODE)
    ensures !Contains(ScrubSystem(text), CLI)
    ensures !Contains(ScrubSystem(text), SDK)
  {
    hide *;
    NonEmptyPhrases();
    CodeApart();
    CliApart();
    var t1 := ReplaceAll(text, IDENTITY, NEUTRAL);
    var t2 := ReplaceAll(t1, CODE, CODING);
    var t3 := ReplaceAll(t2, AGENT, CODING);
    var t4 := ReplaceAll(t3, CLI, CODING_CLI);
    AllReplaced(t1, CODE, CODING);
    NoneCreated(t2, AGENT, CODING, CODE);
    NoneCreated(t3, CLI, CODING_CLI, CODE);
    NoneCreated(t4, SDK, THE_SDK, CODE);
    AllReplaced(t3, CLI, CODING_CLI);
    NoneCreated(t4, SDK, THE_SDK, CLI);
    AllReplaced(t4, SDK, THE_SDK);
    Unfold(text);
  }

  /** Replacing the SDK phrase rebuilds the agent phrase behind its stem, and nowhere else. */
  lemma {:induction false} SpliceRebuilds(t: string)
    requires !Contains(t, AGENT)
    ensures SDK != "" && (Contains(ReplaceAll(t, SDK, THE_SDK), AGENT) <==> Contains(t, SPLICE))
    decreases |t|
  {
    hide Contains, IDENTITY, CLI, NEUTRAL, CODING, CODING_CLI;
    var i := Index(t, SDK);
    if i < 0 {
      NoSplice(t);
    } else {
      Pieces(t, SDK);
      var a, c := t[..i], t[i + |SDK|..];
      var c' := ReplaceAll(c, SDK, THE_SDK);
      if Contains(c, AGENT) {
        Spread(a, SDK, c, AGENT);
      } else {
        SpliceRebuilds(c);
        Rebuilt(a, c, c');
        Spliced(a, c, c');
      }
    }
  }

  lemma NoSplice(t: string)
    requires forall j :: !At(t, SDK, j)
    ensures !Contains(t, SPLICE)
  {
    forall p ensures !At(t, SPLICE, p) {
      if At(t, SPLICE, p) {
        SplitSplice(t, p);
      }
    }
  }

  lemma SplitSplice(t: string, p: int)
    requires At(t, SPLICE, p)
    ensures At(t, AGENT_STEM, p) && At(t, SDK, p + |AGENT_STEM|)
  {
    var n, m := |AGENT_STEM|, |SDK|;
    assert t[p..p + n] == t[p..p + n + m][..n];
    assert t[p + n..p + n + m] == t[p..p + n + m][n..];
  }

  lemma JoinAt(t: string, x: string, y: string, p: int)
    requires At(t, x, p) && At(t, y, p + |x|)
    ensures At(t, x + y, p)
  {
    assert t[p..p + |x| + |y|] == t[p..p + |x|] + t[p + |x|..p + |x| + |y|];
  }

  lemma SplitAt(t: string, x: string, y: string, p: int)
    requires At(t, x + y, p)
    ensures At(t, x, p) && At(t, y, p + |x|)
  {
    assert t[p..p + |x|] == t[p..p + |x + y|][..|x|];
    assert t[p + |x|..p + |x| + |y|] == t[p..p + |x + y|][|x|..];
  }

  /** A rebuilt phrase comes from a splice at the seam or from further right. */
  lemma Rebuilt(a: string, c: string, c': string)
    requires !Contains(a + SDK + c, AGENT)
    requires Contains(c', AGENT) ==> Contains(c, SPLICE)
    ensures Contains(a + THE_SDK + c', AGENT) ==> Contains(a + SDK + c, SPLICE)
  {
    if Contains(a + THE_SDK + c', AGENT) {
      var p :| At(a + THE_SDK + c', AGENT, p);
      if |a| - p == |AGENT_STEM| {
        SplitAt(a + THE_SDK + c', AGENT_STEM, "t", p);
        assert a[p..] == (a + THE_SDK + c')[p..p + |AGENT_STEM|];
        assert a + SDK + c == a[..p] + (AGENT_STEM + SDK) + c;
        Seam(a[..p], AGENT_STEM + SDK, c);
      } else {
        Locally(a, c, c', p);
      }
    }
  }

  lemma Locally(a: string, c: string, c': string, p: int)
    requires !Contains(a + SDK + c, AGENT) && (Contains(c', AGENT) ==> Contains(c, SPLICE))
    requires At(a + THE_SDK + c', AGENT, p) && |a| - p != |AGENT_STEM|
    ensures Contains(a + SDK + c, SPLICE)
  {
    if -|THE_SDK| < |a| - p < |AGENT| {
      TheSdkMeetsAgent(|a| - p);
    }
    Around(a, THE_SDK, c', AGENT, p);
    hide *;
    if Contains(a, AGENT) {
      Spread(a, SDK, c, AGENT);
    } else {
      ContainsIf(a, AGENT, p);
      ContainsIf(c', AGENT, p - |a| - |THE_SDK|);
      Spread(a, SDK, c, SPLICE);
    }
  }

  lemma ContainsIf(t: string, b: string, p: int)
    ensures At(t, b, p) ==> Contains(t, b)
  {
  }

  lemma Seam(a: string, b: string, c: string)
    ensures Contains(a + b + c, b)
  {
    assert At(a + b + c, b, |a|);
  }

  /** A splice at the seam or further right is rebuilt into the phrase. */
  lemma Spliced(a: string, c: string, c': string)
    requires !Contains(a, SDK)
    requires forall j :: j < |a| ==> !At(a + SDK + c, SDK, j)
    requires Contains(c, SPLICE) ==> Contains(c', AGENT)
    ensures Contains(a + SDK + c, SPLICE) ==> Contains(a + THE_SDK + c', AGENT)
  {
    if Contains(a + SDK + c, SPLICE) {
      var p :| At(a + SDK + c, SPLICE, p);
      var n := |AGENT_STEM|;
      SplitSplice(a + SDK + c, p);
      if p + n == |a| {
        assert a[p..] == (a + SDK + c)[p..p + n];
        assert a + THE_SDK + c' == a[..p] + (AGENT_STEM + "t") + (THE_SDK[1..] + c') by {
          assert a == a[..p] + AGENT_STEM;
          assert THE_SDK == "t" + THE_SDK[1..];
        }
        Seam(a[..p], AGENT_STEM + "t", THE_SDK[1..] + c');
      } else {
        SpliceIsLater(a, c, p);
        ContainsIf(c, SPLICE, p - |a| - |SDK|);
        Spread(a, THE_SDK, c', AGENT);
      }
    }
  }

  /** A splice that does not end at the first SDK phrase lies wholly behind it. */
  lemma SpliceIsLater(a: string, c: string, p: int)
    requires forall j :: j < |a| ==> !At(a + SDK + c, SDK, j)
    requires At(a + SDK + c, SPLICE, p) && p + |AGENT_STEM| != |a|
    ensures At(c, SPLICE, p - |a| - |SDK|)
  {
    var t := a + SDK + c;
    var n := |AGENT_STEM|;
    SplitSplice(t, p);
    SdkApart();
    assert p + n > |a|;
    var d := |a| - (p + n);
    if -|SDK| < d < 0 {
      assert ClashAt(SDK, SDK, -d);
      MirrorClash(SDK, SDK, -d);
    }
    Around(a, SDK, c, SDK, p + n);
    assert At(c, SDK, p + n - |a| - |SDK|);
    Around(a, SDK, c, AGENT_STEM, p);
    JoinAt(c, AGENT_STEM, SDK, p - |a| - |SDK|);
  }

  lemma MirrorClash(r: string, b: string, d: int)
    requires ClashAt(r, b, d)
    ensures ClashAt(b, r, -d)
  {
    var k :| 0 <= k < |b| && 0 <= k - d < |r| && b[k] != r[k - d];
    assert r[k - d] != b[(k - d) - (-d)];
  }

  /** The four earlier replacements neither make nor break a splice. */
  lemma SpliceSurvives(text: string)
    ensures var t4 := ScrubUpTo(text, 4);
            !Contains(t4, AGENT) && (Contains(t4, SPLICE) <==> Contains(text, SPLICE))
  {
    assert ScrubUpTo(text, 1) == ReplaceAll(text, IDENTITY, NEUTRAL);
    assert ScrubUpTo(text, 2) == ReplaceAll(ScrubUpTo(text, 1), CODE, CODING);
    assert ScrubUpTo(text, 3) == ReplaceAll(ScrubUpTo(text, 2), AGENT, CODING);
    assert ScrubUpTo(text, 4) == ReplaceAll(ScrubUpTo(text, 3), CLI, CODING_CLI);
    hide *;
    NonEmptyPhrases();
    AgentApart();
    SpliceApart();
    SpliceApartFromCli();
    var t1 := ReplaceAll(text, IDENTITY, NEUTRAL);
    var t2 := ReplaceAll(t1, CODE, CODING);
    var t3 := ReplaceAll(t2, AGENT, CODING);
    Unaffected(text, IDENTITY, NEUTRAL, SPLICE);
    Unaffected(t1, CODE, CODING, SPLICE);
    Unaffected(t2, AGENT, CODING, SPLICE);
    Unaffected(t3, CLI, CODING_CLI, SPLICE);
    AllReplaced(t2, AGENT, CODING);
    NoneCreated(t3, CLI, CODING_CLI, AGENT);
  }

  /**
   The fifth replacement can recreate the third phrase. It does exactly when the client's own text
   already held the stem of that phrase directly in front of the SDK phrase.
   */
  lemma AgentPhraseReturns(text: string)
    ensures Contains(ScrubSystem(text), AGENT) <==> Contains(text, SPLICE)
  {
    assert ScrubSystem(text) == ReplaceAll(ScrubUpTo(text, 4), SDK, THE_SDK) by {
      assert ScrubUpTo(text, 5) == ReplaceAll(ScrubUpTo(text, 4), SDK, THE_SDK);
    }
    hide *;
    SpliceSurvives(text);
    SpliceRebuilds(ScrubUpTo(text, 4));
  }

  ghost predicate HasPhrase(text: string) {
    Contains(text, IDENTITY) || Contains(text, CODE) || Contains(text, AGENT) || Contains(text, CLI)
      || Contains(text, SDK)
  }

  lemma PhraseFreeIsKept(text: string)
    requires !HasPhrase(text)
    ensures ScrubSystem(text) == text
  {
    NonEmptyPhrases();
    Unfold(text);
    hide IDENTITY, CODE, AGENT, CLI, SDK, NEUTRAL, CODING, CODING_CLI, THE_SDK, ReplaceAll, Contains, ScrubSystem;
    Absent(text, IDENTITY, NEUTRAL);
    Absent(text, CODE, CODING);
    Absent(text, AGENT, CODING);
    Absent(text, CLI, CODING_CLI);
    Absent(text, SDK, THE_SDK);
  }

  lemma SpliceHoldsSdk(text: string)
    requires Contains(text, SPLICE)
    ensures Contains(text, SDK)
  {
    var p :| At(text, SPLICE, p);
    SplitSplice(text, p);
  }

  /** A system text is forwarded byte for byte exactly when it holds none of the five phrases. */
  lemma UnchangedIffPhraseFree(text: string)
    ensures ScrubSystem(text) == text <==> !HasPhrase(text)
  {
    if !HasPhrase(text) {
      PhraseFreeIsKept(text);
    } else {
      hide IDENTITY, CODE, AGENT, CLI, SDK, SPLICE, Contains, ScrubSystem;
      SystemIsClean(text);
      FragmentsAreGone(text);
      AgentPhraseReturns(text);
      if Contains(text, SPLICE) {
        SpliceHoldsSdk(text);
      }
    }
  }

  /** A second pass changes nothing exactly when the client's text holds no splice. */
  lemma IdempotentIffNoSplice(text: string)
    ensures ScrubSystem(ScrubSystem(text)) == ScrubSystem(text) <==> !Contains(text, SPLICE)
  {
    hide IDENTITY, CODE, AGENT, CLI, SDK, SPLICE, Contains, ScrubSystem;
    var once := ScrubSystem(text);
    SystemIsClean(text);
    FragmentsAreGone(text);
    AgentPhraseReturns(text);
    UnchangedIffPhraseFree(once);
  }

  /** Outside the system role a text is forwarded byte for byte exactly when it does not hold the line. */
  lemma HistoryIsKeptIff(text: string)
    ensures ScrubHistory(text) == text <==> !Contains(text, IDENTITY)
  {
    NonEmptyPhrases();
    HistoryIsClean(text);
    if !Contains(text, IDENTITY) {
      hide IDENTITY;
      Absent(text, IDENTITY, NEUTRAL);
    }
  }
}
