/**
 * Token-budgeted assembly of the context text from the page sections the
 * similarity search returned (supabase/functions/vector-search/index.ts,
 * lines 74-88). The GPT-3 tokenizer is not modelled: `tokenLen` stands for
 * `tokenizer.encode(content).text.length`.
 */
module ContextBudget {
  import opened JsText

  /** The loop stops at the first section that brings the running count to this many tokens. */
  const MaxContextTokens: nat := 1500

  /** Written after each accepted section. */
  const Separator: string := "\n---\n"

  /** Tokens of a run of sections, each measured on its content as the store returned it (untrimmed). */
  function TokenSum(sections: seq<string>, tokenLen: string -> nat): nat
  {
    if sections == [] then 0 else tokenLen(sections[0]) + TokenSum(sections[1..], tokenLen)
  }

  /** Each section's trimmed content followed by the separator, in order. */
  function Joined(sections: seq<string>): string
  {
    if sections == [] then "" else Trim(sections[0]) + Separator + Joined(sections[1..])
  }

  /** How many leading sections are taken when `used` tokens are already counted. */
  function Accepted(sections: seq<string>, tokenLen: string -> nat, used: nat): (k: nat)
    ensures k <= |sections|
  {
    if sections == [] then 0
    else if used + tokenLen(sections[0]) >= MaxContextTokens then 0
    else 1 + Accepted(sections[1..], tokenLen, used + tokenLen(sections[0]))
  }

  /** How many leading sections make it into the context. */
  function AcceptedCount(sections: seq<string>, tokenLen: string -> nat): nat
  {
    Accepted(sections, tokenLen, 0)
  }

  /** The context text the handler builds from `sections`. */
  function ContextOf(sections: seq<string>, tokenLen: string -> nat): string
  {
    Joined(sections[..AcceptedCount(sections, tokenLen)])
  }

  /**
   * `k` is the length of the longest prefix whose cumulative token count
   * stays below the budget: that prefix fits, and either it is everything
   * or the next section brings the count to the budget or more.
   */
  predicate IsBudgetPrefix(sections: seq<string>, tokenLen: string -> nat, k: nat)
  {
    && k <= |sections|
    && TokenSum(sections[..k], tokenLen) < MaxContextTokens
    && (k < |sections| ==> TokenSum(sections[..k + 1], tokenLen) >= MaxContextTokens)
  }

  lemma {:induction false} TokenSumAppend(a: seq<string>, b: seq<string>, tokenLen: string -> nat)
    ensures TokenSum(a + b, tokenLen) == TokenSum(a, tokenLen) + TokenSum(b, tokenLen)
  {
    if a == [] {
      assert a + b == b;
    } else {
      assert (a + b)[0] == a[0];
      assert (a + b)[1..] == a[1..] + b;
      TokenSumAppend(a[1..], b, tokenLen);
    }
  }

  lemma {:induction false} JoinedAppend(a: seq<string>, b: seq<string>)
    ensures Joined(a + b) == Joined(a) + Joined(b)
  {
    if a == [] {
      assert a + b == b;
    } else {
      assert (a + b)[0] == a[0];
      assert (a + b)[1..] == a[1..] + b;
      JoinedAppend(a[1..], b);
    }
  }

  /** One more loop iteration adds the next section's tokens to the running count. */
  lemma TokenSumStep(sections: seq<string>, tokenLen: string -> nat, i: nat)
    requires i < |sections|
    ensures TokenSum(sections[..i + 1], tokenLen) == TokenSum(sections[..i], tokenLen) + tokenLen(sections[i])
  {
    assert sections[..i + 1] == sections[..i] + [sections[i]];
    TokenSumAppend(sections[..i], [sections[i]], tokenLen);
  }

  /** One more loop iteration appends the next section's trimmed content and the separator. */
  lemma JoinedStep(sections: seq<string>, i: nat)
    requires i < |sections|
    ensures Joined(sections[..i + 1]) == Joined(sections[..i]) + Trim(sections[i]) + Separator
  {
    assert sections[..i + 1] == sections[..i] + [sections[i]];
    JoinedAppend(sections[..i], [sections[i]]);
    JoinedSingle(sections[i]);
  }

  lemma JoinedSingle(section: string)
    ensures Joined([section]) == Trim(section) + Separator
  {
    assert [section][1..] == [];
    assert Joined([section]) == Trim(section) + Separator + "";
  }

  /** Token counts never fall as the prefix grows. */
  lemma TokenSumMonotone(sections: seq<string>, tokenLen: string -> nat, j: nat, k: nat)
    requires j <= k <= |sections|
    ensures TokenSum(sections[..j], tokenLen) <= TokenSum(sections[..k], tokenLen)
  {
    assert sections[..k] == sections[..j] + sections[j..k];
    TokenSumAppend(sections[..j], sections[j..k], tokenLen);
  }

  lemma {:induction false} AcceptedFits(sections: seq<string>, tokenLen: string -> nat, used: nat)
    requires used < MaxContextTokens
    ensures var k := Accepted(sections, tokenLen, used);
      && used + TokenSum(sections[..k], tokenLen) < MaxContextTokens
      && (k < |sections| ==> used + TokenSum(sections[..k + 1], tokenLen) >= MaxContextTokens)
  {
    var k := Accepted(sections, tokenLen, used);
    if sections != [] {
      var head := tokenLen(sections[0]);
      if used + head >= MaxContextTokens {
        assert sections[..1][1..] == [];
      } else {
        var rest := sections[1..];
        var k' := Accepted(rest, tokenLen, used + head);
        assert k == 1 + k';
        AcceptedFits(rest, tokenLen, used + head);
        assert sections[..k][0] == sections[0];
        assert sections[..k][1..] == rest[..k'];
        if k < |sections| {
          assert sections[..k + 1][0] == sections[0];
          assert sections[..k + 1][1..] == rest[..k' + 1];
        }
      }
    }
  }

  lemma BudgetPrefixUnique(sections: seq<string>, tokenLen: string -> nat, j: nat, k: nat)
    requires IsBudgetPrefix(sections, tokenLen, j) && IsBudgetPrefix(sections, tokenLen, k)
    ensures j == k
  {
    if j < k {
      TokenSumMonotone(sections, tokenLen, j + 1, k);
    } else if k < j {
      TokenSumMonotone(sections, tokenLen, k + 1, j);
    }
  }

  /** Prefix law: the accepted count is exactly the longest prefix that stays within the budget. */
  lemma AcceptedCountIsBudgetPrefix(sections: seq<string>, tokenLen: string -> nat, k: nat)
    ensures IsBudgetPrefix(sections, tokenLen, k) <==> k == AcceptedCount(sections, tokenLen)
  {
    AcceptedFits(sections, tokenLen, 0);
    if IsBudgetPrefix(sections, tokenLen, k) {
      BudgetPrefixUnique(sections, tokenLen, k, AcceptedCount(sections, tokenLen));
    }
  }

  /** Budget invariant: the sections whose text is in the context total fewer than 1500 tokens. */
  lemma ContextWithinBudget(sections: seq<string>, tokenLen: string -> nat)
    ensures TokenSum(sections[..AcceptedCount(sections, tokenLen)], tokenLen) < MaxContextTokens
  {
    AcceptedFits(sections, tokenLen, 0);
  }

  /** Accepted sections appear whole and in store order: section `j` sits right after sections `0..j`. */
  lemma AcceptedSectionAt(sections: seq<string>, tokenLen: string -> nat, j: nat)
    requires j < AcceptedCount(sections, tokenLen)
    ensures var text, lo := ContextOf(sections, tokenLen), |Joined(sections[..j])|;
      && lo + |Trim(sections[j])| + |Separator| <= |text|
      && text[lo..lo + |Trim(sections[j])| + |Separator|] == Trim(sections[j]) + Separator
  {
    var k := AcceptedCount(sections, tokenLen);
    var accepted := sections[..k];
    assert accepted == sections[..j] + [sections[j]] + sections[j + 1..k];
    JoinedAppend(sections[..j] + [sections[j]], sections[j + 1..k]);
    JoinedAppend(sections[..j], [sections[j]]);
    JoinedSingle(sections[j]);
  }

  /** The section that reaches the budget, and every section after it, have no effect on the context. */
  lemma SectionsAfterCutIgnored(sections: seq<string>, later: seq<string>, tokenLen: string -> nat)
    requires AcceptedCount(sections, tokenLen) < |sections|
    ensures ContextOf(sections + later, tokenLen) == ContextOf(sections, tokenLen)
  {
    var k := AcceptedCount(sections, tokenLen);
    var all := sections + later;
    AcceptedCountIsBudgetPrefix(sections, tokenLen, k);
    assert all[..k] == sections[..k];
    assert all[..k + 1] == sections[..k + 1];
    AcceptedCountIsBudgetPrefix(all, tokenLen, k);
  }

  /** Returning more sections can only extend the context, never change what is already in it. */
  lemma ContextGrowsWithMatches(sections: seq<string>, later: seq<string>, tokenLen: string -> nat)
    ensures ContextOf(sections, tokenLen) <= ContextOf(sections + later, tokenLen)
  {
    var k := AcceptedCount(sections, tokenLen);
    if k < |sections| {
      SectionsAfterCutIgnored(sections, later, tokenLen);
    } else {
      var all := sections + later;
      var k' := AcceptedCount(all, tokenLen);
      AcceptedCountIsBudgetPrefix(sections, tokenLen, k);
      AcceptedCountIsBudgetPrefix(all, tokenLen, k');
      assert sections[..k] == sections;
      if k' < |sections| {
        assert all[..k' + 1] == sections[..k' + 1];
        TokenSumMonotone(sections, tokenLen, k' + 1, |sections|);
        assert false;
      }
      assert all[..k'] == sections + all[|sections|..k'];
      JoinedAppend(sections, all[|sections|..k']);
    }
  }

  /**
   * The loop of index.ts:78-88: walks the sections in order, adds each one's
   * token length to `tokenCount`, breaks at the first that brings it to the
   * budget, and otherwise appends the trimmed content and the separator.
   */
  method AssembleContext(sections: seq<string>, tokenLen: string -> nat) returns (contextText: string)
    ensures contextText == Joined(sections[..AcceptedCount(sections, tokenLen)])
    ensures TokenSum(sections[..AcceptedCount(sections, tokenLen)], tokenLen) < MaxContextTokens
    ensures sections == [] ==> contextText == ""
  {
    var tokenCount: nat := 0;
    contextText := "";
    ghost var cut := |sections|;
    for i := 0 to |sections|
      invariant cut == |sections|
      invariant tokenCount == TokenSum(sections[..i], tokenLen) < MaxContextTokens
      invariant contextText == Joined(sections[..i])
    {
      var content := sections[i];
      TokenSumStep(sections, tokenLen, i);
      tokenCount := tokenCount + tokenLen(content);

      if tokenCount >= MaxContextTokens {
        cut := i;
        break;
      }

      JoinedStep(sections, i);
      contextText := contextText + Trim(content) + Separator;
    }
    assert sections[..|sections|] == sections;
    AcceptedCountIsBudgetPrefix(sections, tokenLen, cut);
  }
}
