/** The identity phrases, their replacements, and which of them can overlap in a text. */
module Sentinels {
  import opened Replace

  const IDENTITY := "You are Claude Code, Anthropic" + "'s official CLI for Claude"
  const CODE := "You are Claude Code"
  const AGENT_STEM := "You are a Claude agen"
  const AGENT := AGENT_STEM + "t"
  const CLI := "Anthropic's official CLI " + "for Claude"
  const SDK := "Claude Agent SDK"

  const NEUTRAL := "You are a helpful assistant."
  const CODING := "You are an interactive " + "coding agent"
  const CODING_CLI := "an interactive CLI coding agent"
  const THE_SDK := "the agent SDK"

  /** The one text from which the replacements rebuild a phrase they had removed. */
  const SPLICE := AGENT_STEM + SDK

  /** A capital Y opens the text and occurs nowhere else. */
  ghost predicate OneY(s: string) {
    s != "" && s[0] == 'Y' && forall i :: 1 <= i < |s| ==> s[i] != 'Y'
  }

  ghost predicate NoY(s: string) {
    s != "" && forall i :: 0 <= i < |s| ==> s[i] != 'Y'
  }

  lemma Openings()
    ensures OneY(IDENTITY) && OneY(CODE) && OneY(AGENT) && OneY(AGENT_STEM) && OneY(SPLICE) && OneY(NEUTRAL)
              && OneY(CODING)
    ensures NoY(CLI) && NoY(SDK) && NoY(CODING_CLI) && NoY(THE_SDK)
  {
  }

  /** Two such texts that differ somewhere cannot overlap at all. */
  lemma DifferentOpenings(r: string, b: string, k: nat)
    requires OneY(r) && OneY(b) && k < |r| && k < |b| && r[k] != b[k]
    ensures Apart(r, b)
  {
    forall d | -|r| < d < |b| ensures ClashAt(r, b, d) {
      if d == 0 {
        assert b[k] != r[k - d];
      } else if d > 0 {
        assert b[d] != r[d - d];
      } else {
        assert b[0] != r[0 - d];
      }
    }
  }

  /** Placed at offset `d` of `b`, one of the first three letters of `r` disagrees. */
  predicate HeadClash(r: string, b: string, d: nat)
    requires |r| >= 3 && d < |b|
  {
    b[d] != r[0] || (d + 1 < |b| && b[d + 1] != r[1]) || (d + 2 < |b| && b[d + 2] != r[2])
  }

  lemma HeadClashes(r: string, b: string, d: nat)
    requires |r| >= 3 && d < |b| && HeadClash(r, b, d)
    ensures ClashAt(r, b, d)
  {
    if b[d] != r[0] {
      assert b[d] != r[d - d];
    } else if d + 1 < |b| && b[d + 1] != r[1] {
      assert b[d + 1] != r[d + 1 - d];
    } else {
      assert b[d + 2] != r[d + 2 - d];
    }
  }

  /** `r` starts nowhere inside `b`, and the first letter of `b` occurs in `r` at most at its start. */
  lemma ApartByHeads(r: string, b: string)
    requires |r| >= 3 && b != ""
    requires forall d :: 0 <= d < |b| ==> HeadClash(r, b, d)
    requires forall i :: 1 <= i < |r| ==> r[i] != b[0]
    ensures Apart(r, b)
  {
    forall d | -|r| < d < |b| ensures ClashAt(r, b, d) {
      if d >= 0 {
        HeadClashes(r, b, d);
      } else {
        assert b[0] != r[0 - d];
      }
    }
  }

  lemma IdentityApart()
    ensures Apart(NEUTRAL, IDENTITY) && Apart(CODING, IDENTITY) && Apart(CODING_CLI, IDENTITY)
              && Apart(THE_SDK, IDENTITY)
  {
    Openings();
    assert NEUTRAL[8] == 'a' && CODING[8] == 'a' && IDENTITY[8] == 'C';
    DifferentOpenings(NEUTRAL, IDENTITY, 8);
    DifferentOpenings(CODING, IDENTITY, 8);
    hide Apart;
    ApartByHeads(CODING_CLI, IDENTITY);
    ApartByHeads(THE_SDK, IDENTITY);
  }

  lemma CodeApart()
    ensures Apart(CODING, CODE) && Apart(CODING_CLI, CODE) && Apart(THE_SDK, CODE)
  {
    Openings();
    assert CODING[8] == 'a' && CODE[8] == 'C';
    DifferentOpenings(CODING, CODE, 8);
    ApartByHeads(CODING_CLI, CODE);
    ApartByHeads(THE_SDK, CODE);
  }

  lemma AgentApart()
    ensures Apart(CODING, AGENT) && Apart(CODING_CLI, AGENT)
  {
    Openings();
    assert CODING[9] == 'n' && AGENT[9] == ' ';
    DifferentOpenings(CODING, AGENT, 9);
    ApartByHeads(CODING_CLI, AGENT);
  }

  lemma CliApart()
    ensures Apart(CODING_CLI, CLI) && Apart(THE_SDK, CLI) && Apart(THE_SDK, SDK)
  {
    ApartByHeads(CODING_CLI, CLI);
    ApartByHeads(THE_SDK, CLI);
    ApartByHeads(THE_SDK, SDK);
  }

  lemma SpliceApart()
    ensures Apart(IDENTITY, SPLICE) && Apart(CODE, SPLICE) && Apart(AGENT, SPLICE)
    ensures Apart(NEUTRAL, SPLICE) && Apart(CODING, SPLICE)
  {
    Openings();
    assert IDENTITY[8] == 'C' && CODE[8] == 'C' && SPLICE[8] == 'a' && SPLICE[9] == ' ' && SPLICE[10] == 'C';
    assert NEUTRAL[10] == 'h' && CODING[9] == 'n' && AGENT[21] == 't' && SPLICE[21] == 'C';
    DifferentOpenings(IDENTITY, SPLICE, 8);
    DifferentOpenings(CODE, SPLICE, 8);
    DifferentOpenings(AGENT, SPLICE, 21);
    DifferentOpenings(NEUTRAL, SPLICE, 10);
    DifferentOpenings(CODING, SPLICE, 9);
  }

  lemma SpliceApartFromCli()
    ensures Apart(CLI, SPLICE) && Apart(CODING_CLI, SPLICE)
  {
    ApartByHeads(CLI, SPLICE);
    ApartByHeads(CODING_CLI, SPLICE);
  }

  /** The SDK phrase overlaps neither the stem of the agent phrase nor another copy of itself. */
  lemma SdkApart()
    ensures Apart(SDK, AGENT_STEM)
    ensures forall d :: 0 < d < |SDK| ==> ClashAt(SDK, SDK, d)
  {
    Openings();
    forall d | -|SDK| < d < |AGENT_STEM| ensures ClashAt(SDK, AGENT_STEM, d) {
      if d == 10 {
        assert AGENT_STEM[17] == 'a' && SDK[17 - 10] == 'A';
      } else if d >= 0 {
        HeadClashes(SDK, AGENT_STEM, d);
      } else {
        assert AGENT_STEM[0] != SDK[0 - d];
      }
    }
    forall d | 0 < d < |SDK| ensures ClashAt(SDK, SDK, d) {
      assert SDK[d] != SDK[0] || SDK[d] == 'C';
      assert HeadClash(SDK, SDK, d);
      HeadClashes(SDK, SDK, d);
    }
  }

  /** The SDK replacement can overlap the agent phrase only in that phrase's last letter. */
  lemma TheSdkMeetsAgent(d: int)
    requires -|THE_SDK| < d < |AGENT| && d != |AGENT_STEM|
    ensures ClashAt(THE_SDK, AGENT, d)
  {
    Openings();
    if d >= 0 {
      assert HeadClash(THE_SDK, AGENT, d);
      HeadClashes(THE_SDK, AGENT, d);
    } else {
      assert AGENT[0] != THE_SDK[0 - d];
    }
  }
}
