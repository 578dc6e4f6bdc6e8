/**
 * The keyword rewrite that both the message translator and the pass-through
 * router apply to outgoing text, so that the backend does not see phrases that
 * name competing tooling: five literal substitutions applied in a fixed order.
 */
module Keywords {
  import opened Strings

  const ClaudeCode := "Claude Code"
  const CodeBuddyCode := "CodeBuddy Code"
  const OfficialCli := "Anthropic's official CLI for Claude"
  const TencentCli := "Tencent's official CLI for CodeBuddy"
  const Claude := "Claude"
  const CodeBuddy := "CodeBuddy"
  const Anthropic := "Anthropic"
  const Tencent := "Tencent"
  // The two issue-tracker URLs. Each is a host literal joined to a path literal,
  // which the lemmas below about the characters of NewIssues prove far more
  // cheaply than one long literal.
  const OldIssues := "https://github.com/" + "anthropics/claude-code/issues"
  const NewIssues := "https://cnb.cool/" + "codebuddy/codebuddy-code/-/issues"

  /** The phrases that the rewrite replaces, in the order it replaces them. */
  const Phrases: seq<string> := [ClaudeCode, OfficialCli, Claude, Anthropic, OldIssues]

  /** The five substitutions, applied one after the other. */
  function Rewrite(text: string): string {
    var t1 := Replace(text, ClaudeCode, CodeBuddyCode);
    var t2 := Replace(t1, OfficialCli, TencentCli);
    var t3 := Replace(t2, Claude, CodeBuddy);
    var t4 := Replace(t3, Anthropic, Tencent);
    Replace(t4, OldIssues, NewIssues)
  }

  /** Text that contains none of the five phrases passes through unchanged. */
  lemma RewriteUnchanged(text: string)
    requires forall i | 0 <= i < |Phrases| :: !Occurs(text, Phrases[i])
    ensures Rewrite(text) == text
  {
    assert !Occurs(text, Phrases[0]) && !Occurs(text, Phrases[1]) && !Occurs(text, Phrases[2]);
    assert !Occurs(text, Phrases[3]) && !Occurs(text, Phrases[4]);
    ReplaceAbsent(text, ClaudeCode, CodeBuddyCode);
    ReplaceAbsent(text, OfficialCli, TencentCli);
    ReplaceAbsent(text, Claude, CodeBuddy);
    ReplaceAbsent(text, Anthropic, Tencent);
    ReplaceAbsent(text, OldIssues, NewIssues);
  }

  lemma ClaudeVersusCodeBuddy()
    ensures Compatible(Claude, CodeBuddy)
  {
    var q, r := Claude, CodeBuddy;
    forall i | 0 <= i <= |r| - |q| ensures !OccursAt(r, q, i) {
      assert r[i..i + |q|][1] == r[i + 1];
    }
    forall L | 1 <= L < |q| && L <= |r| ensures q[..L] != r[|r| - L..] {
      assert q[..L][L - 1] == q[L - 1] && r[|r| - L..][L - 1] == r[|r| - 1];
    }
    forall L | 1 <= L < |q| && L <= |r| ensures q[|q| - L..] != r[..L] {
      assert q[|q| - L..][0] == q[|q| - L] && r[..L][0] == r[0];
    }
  }

  lemma ClaudeVersusTencent()
    ensures Compatible(Claude, Tencent)
  {
    var q, r := Claude, Tencent;
    forall i | 0 <= i <= |r| - |q| ensures !OccursAt(r, q, i) {
      assert r[i..i + |q|][0] == r[i];
    }
    forall L | 1 <= L < |q| && L <= |r| ensures q[..L] != r[|r| - L..] {
      assert q[..L][L - 1] == q[L - 1] && r[|r| - L..][L - 1] == r[|r| - 1];
    }
    forall L | 1 <= L < |q| && L <= |r| ensures q[|q| - L..] != r[..L] {
      assert q[|q| - L..][0] == q[|q| - L] && r[..L][0] == r[0];
    }
  }

  lemma AnthropicVersusTencent()
    ensures Compatible(Anthropic, Tencent)
  {
    var q, r := Anthropic, Tencent;
    forall L | 1 <= L < |q| && L <= |r| ensures q[..L] != r[|r| - L..] {
      assert q[..L][L - 1] == q[L - 1] && r[|r| - L..][L - 1] == r[|r| - 1];
      assert q[..L][0] == q[0] && r[|r| - L..][0] == r[|r| - L];
    }
    forall L | 1 <= L < |q| && L <= |r| ensures q[|q| - L..] != r[..L] {
      assert q[|q| - L..][0] == q[|q| - L] && r[..L][0] == r[0];
    }
    forall m | 1 <= m && m + |r| < |q| ensures !OccursAt(q, r, m) {
      assert q[m..m + |r|][0] == q[m];
    }
  }

  /** The new issue URL has no capital C, A or T, begins "ht" and ends with 's'. */
  lemma NewIssuesShape()
    ensures 'C' !in NewIssues && 'A' !in NewIssues
    ensures |NewIssues| > 2 && NewIssues[0] == 'h' && NewIssues[1] == 't'
    ensures NewIssues[|NewIssues| - 1] == 's'
  {
  }

  lemma PhraseVersusNewIssues(q: string)
    requires q == Claude || q == Anthropic
    ensures Compatible(q, NewIssues)
  {
    var r := NewIssues;
    NewIssuesShape();
    forall i | 0 <= i <= |r| - |q| ensures !OccursAt(r, q, i) {
      assert r[i..i + |q|][0] == r[i];
    }
    forall L | 1 <= L < |q| && L <= |r| ensures q[..L] != r[|r| - L..] {
      assert q[..L][L - 1] == q[L - 1] && r[|r| - L..][L - 1] == r[|r| - 1];
    }
    forall L | 1 <= L < |q| && L <= |r| ensures q[|q| - L..] != r[..L] {
      assert q[|q| - L..][0] == q[|q| - L] && r[..L][0] == r[0];
      if L >= 2 {
        assert q[|q| - L..][1] == q[|q| - L + 1] && r[..L][1] == r[1];
      }
    }
  }

  /** The rewritten text never mentions "Claude" or "Anthropic". */
  lemma RewriteRemovesNames(text: string)
    ensures !Occurs(Rewrite(text), Claude)
    ensures !Occurs(Rewrite(text), Anthropic)
  {
    var t1 := Replace(text, ClaudeCode, CodeBuddyCode);
    var t2 := Replace(t1, OfficialCli, TencentCli);
    var t3 := Replace(t2, Claude, CodeBuddy);
    var t4 := Replace(t3, Anthropic, Tencent);
    ClaudeVersusCodeBuddy();
    ReplaceLeavesAbsent(t2, Claude, CodeBuddy, Claude);
    ClaudeVersusTencent();
    ReplaceLeavesAbsent(t3, Anthropic, Tencent, Claude);
    AnthropicVersusTencent();
    ReplaceLeavesAbsent(t3, Anthropic, Tencent, Anthropic);
    PhraseVersusNewIssues(Claude);
    ReplaceLeavesAbsent(t4, OldIssues, NewIssues, Claude);
    PhraseVersusNewIssues(Anthropic);
    ReplaceLeavesAbsent(t4, OldIssues, NewIssues, Anthropic);
  }
}
