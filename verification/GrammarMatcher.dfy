/**
 A grammar matcher with a cached termination flag, as structured output uses it.
 */
module GrammarMatcher {

  type Token = nat

  /** What a grammar says after a history of tokens: whether it takes a token, and
      whether it is finished. A grammar is not finished before it has begun. */
  datatype Grammar = Grammar(takes: (seq<Token>, Token) -> bool, finished: seq<Token> -> bool)

  /** The matcher of the grammar library: it keeps its history, refuses a token without
      a trace, and takes back any number of tokens. */
  class Matcher {
    const grammar: Grammar
    var history: seq<Token>

    constructor (g: Grammar)
      ensures grammar == g && history == []
    {
      grammar, history := g, [];
    }

    method AcceptToken(t: Token) returns (ok: bool)
      modifies this
      ensures ok == grammar.takes(old(history), t)
      ensures history == if ok then old(history) + [t] else old(history)
    {
      ok := grammar.takes(history, t);
      if ok {
        history := history + [t];
      }
    }

    method IsTerminated() returns (b: bool)
      ensures b == grammar.finished(history)
    {
      b := grammar.finished(history);
    }

    method Rollback(n: nat)
      requires n <= |history|
      modifies this
      ensures history == old(history)[..|old(history)| - n]
    {
      history := history[..|history| - n];
    }

    method Reset()
      modifies this
      ensures history == []
    {
      history := [];
    }
  }

  // ---------------------------------------------------------------------
  // What the wrapper is meant to do
  // ---------------------------------------------------------------------

  /** The longest prefix of the tokens that the grammar takes, up to where it finishes. */
  function Taken(g: Grammar, h: seq<Token>, tokens: seq<Token>): (r: seq<Token>)
    ensures r <= tokens
    decreases |tokens|
  {
    if tokens == [] || g.finished(h) || !g.takes(h, tokens[0]) then []
    else [tokens[0]] + Taken(g, h + [tokens[0]], tokens[1..])
  }

  /** The tokens after the end do not count as refused. */
  predicate Accepts(g: Grammar, h: seq<Token>, tokens: seq<Token>) {
    Taken(g, h, tokens) == tokens || g.finished(h + Taken(g, h, tokens))
  }

  lemma {:induction false} TakenFollows(g: Grammar, h: seq<Token>, tokens: seq<Token>, k: nat)
    requires k <= |Taken(g, h, tokens)|
    ensures Taken(g, h, tokens) == tokens[..k] + Taken(g, h + tokens[..k], tokens[k..])
    decreases k
  {
    if k == 0 {
      assert h + tokens[..0] == h;
    } else {
      var now, rest := h + tokens[..k - 1], tokens[k - 1..];
      TakenFollows(g, h, tokens, k - 1);
      assert Taken(g, now, rest) == [rest[0]] + Taken(g, now + [rest[0]], rest[1..]);
      hide Taken;
      assert rest[0] == tokens[k - 1] && rest[1..] == tokens[k..];
      assert tokens[..k] == tokens[..k - 1] + [tokens[k - 1]];
      assert now + [tokens[k - 1]] == h + tokens[..k];
    }
  }

  /** What is taken is the longest such prefix: each of its tokens is taken in turn by a
      grammar not finished, and the next one, if any, is not. */
  lemma {:induction false} TakenIsLongest(g: Grammar, h: seq<Token>, tokens: seq<Token>)
    ensures var n := |Taken(g, h, tokens)|;
            && (forall k :: 0 <= k < n ==> !g.finished(h + tokens[..k]) && g.takes(h + tokens[..k], tokens[k]))
            && (n < |tokens| ==> g.finished(h + tokens[..n]) || !g.takes(h + tokens[..n], tokens[n]))
  {
    var n := |Taken(g, h, tokens)|;
    forall k | 0 <= k < n ensures !g.finished(h + tokens[..k]) && g.takes(h + tokens[..k], tokens[k]) {
      TakenFollows(g, h, tokens, k);
      assert Taken(g, h + tokens[..k], tokens[k..]) != [];
    }
    TakenFollows(g, h, tokens, n);
    assert Taken(g, h + tokens[..n], tokens[n..]) == [];
  }

  /** Taking what was taken takes all of it, and the grammar accepts it. */
  lemma {:induction false} TakenAgain(g: Grammar, h: seq<Token>, tokens: seq<Token>)
    ensures var t := Taken(g, h, tokens); Taken(g, h, t) == t && Accepts(g, h, t)
    decreases |tokens|
  {
    var t := Taken(g, h, tokens);
    if t != [] {
      TakenAgain(g, h + [tokens[0]], tokens[1..]);
      assert t[1..] == Taken(g, h + [tokens[0]], tokens[1..]);
    }
  }

  lemma TakenStep(g: Grammar, h: seq<Token>, tokens: seq<Token>, k: nat)
    requires k < |tokens| && tokens[..k] <= Taken(g, h, tokens)
    ensures var now := h + tokens[..k];
            && (!g.finished(now) && g.takes(now, tokens[k]) ==>
                tokens[..k + 1] <= Taken(g, h, tokens) && h + tokens[..k + 1] == now + [tokens[k]])
            && (g.finished(now) || !g.takes(now, tokens[k]) ==> Taken(g, h, tokens) == tokens[..k])
  {
    assert |tokens[..k]| == k;
    TakenFollows(g, h, tokens, k);
    var now, rest := h + tokens[..k], tokens[k..];
    if !g.finished(now) && g.takes(now, tokens[k]) {
      assert rest[0] == tokens[k];
      assert Taken(g, h, tokens) == tokens[..k] + ([tokens[k]] + Taken(g, now + [tokens[k]], rest[1..]));
      assert tokens[..k + 1] == tokens[..k] + [tokens[k]];
      assert Taken(g, h, tokens)[..k + 1] == tokens[..k + 1];
    } else {
      assert Taken(g, now, rest) == [];
    }
  }

  // ---------------------------------------------------------------------
  // The wrapper
  // ---------------------------------------------------------------------

  class XgrammarGrammar {
    const matcher: Matcher
    var isTerminated: bool
    var numProcessedTokens: nat

    /** The cached flag is the matcher's, and every token of its history was counted. */
    ghost predicate Valid()
      reads this, matcher
    {
      && isTerminated == matcher.grammar.finished(matcher.history)
      && numProcessedTokens == |matcher.history|
      && !matcher.grammar.finished([])
    }

    constructor (g: Grammar)
      requires !g.finished([])
      ensures Valid() && fresh(matcher) && matcher.grammar == g && matcher.history == []
    {
      matcher := new Matcher(g);
      isTerminated, numProcessedTokens := false, 0;
    }

    method AcceptTokens(tokens: seq<Token>) returns (ok: bool)
      requires Valid()
      modifies this, matcher
      ensures Valid()
      ensures matcher.history == old(matcher.history) + Taken(matcher.grammar, old(matcher.history), tokens)
      ensures ok <==> Accepts(matcher.grammar, old(matcher.history), tokens)
    {
      ghost var g, h := matcher.grammar, matcher.history;
      if isTerminated {
        assert h + [] == h;
        return true;
      }
      hide Taken;
      ghost var all := Taken(g, h, tokens);
      assert h + tokens[..0] == h;
      for k := 0 to |tokens|
        invariant Valid() && !isTerminated
        invariant tokens[..k] <= all && matcher.history == h + tokens[..k]
      {
        TakenStep(g, h, tokens, k);
        var taken := matcher.AcceptToken(tokens[k]);
        if !taken {
          assert all != tokens by {
            assert |all| == k;
          }
          return false;
        }
        numProcessedTokens := numProcessedTokens + 1;
        isTerminated := matcher.IsTerminated();
        if isTerminated {
          FinishedIsAll(g, h, tokens, k + 1);
          return true;
        }
      }
      assert tokens[..|tokens|] == tokens;
      assert all == tokens;
      return true;
    }

    method ValidateTokens(tokens: seq<Token>) returns (accepted: seq<Token>)
      requires Valid()
      modifies matcher
      ensures Valid() && matcher.history == old(matcher.history)
      ensures accepted == Taken(matcher.grammar, old(matcher.history), tokens)
    {
      ghost var g, h := matcher.grammar, matcher.history;
      if isTerminated {
        return [];
      }
      hide Taken;
      ghost var all := Taken(g, h, tokens);
      accepted := [];
      assert h + tokens[..0] == h;
      var k := 0;
      while k < |tokens|
        invariant k <= |tokens| && accepted == tokens[..k] <= all && matcher.history == h + tokens[..k]
        invariant !g.finished(matcher.history)
        decreases |tokens| - k
      {
        TakenStep(g, h, tokens, k);
        var taken := matcher.AcceptToken(tokens[k]);
        if !taken {
          break;
        }
        accepted := accepted + [tokens[k]];
        k := k + 1;
        assert accepted == tokens[..k];
        var finished := matcher.IsTerminated();
        if finished {
          FinishedIsAll(g, h, tokens, k);
          break;
        }
      }
      assert accepted == all;
      if |accepted| > 0 {
        matcher.Rollback(|accepted|);
      }
      assert (h + accepted)[..|h|] == h;
    }

    method Reset()
      requires Valid()
      modifies this, matcher
      ensures Valid() && matcher.history == [] && !isTerminated
    {
      matcher.Reset();
      numProcessedTokens := 0;
      isTerminated := false;
    }

    /** The manager's step over one drafted token: after the end of reasoning a token
        that the grammar refuses is passed over, before it it is an error; either way
        the grammar advances exactly over what it takes. */
    method Advance(token: Token, advance: bool, afterReasoning: bool, advancements: nat)
        returns (advancements1: nat, error: bool)
      requires Valid()
      modifies this, matcher
      ensures Valid()
      ensures matcher.history
              == old(matcher.history) + if advance then Taken(matcher.grammar, old(matcher.history), [token]) else []
      ensures advancements1 == advancements + |matcher.history| - |old(matcher.history)|
      ensures error <==> advance && !afterReasoning && !Accepts(matcher.grammar, old(matcher.history), [token])
    {
      advancements1, error := advancements, false;
      ghost var g, h := matcher.grammar, matcher.history;
      assert h + [] == h;
      OneToken(g, h, token);
      if advance && !isTerminated {
        var accepted;
        if afterReasoning {
          var valid := ValidateTokens([token]);
          accepted := valid != [];
          if accepted {
            accepted := AcceptTokens([token]);
          }
        } else {
          accepted := AcceptTokens([token]);
        }
        if accepted {
          advancements1 := advancements1 + 1;
        } else if !afterReasoning {
          error := true;
        }
      }
    }
  }

  lemma FinishedIsAll(g: Grammar, h: seq<Token>, tokens: seq<Token>, k: nat)
    requires k <= |tokens| && tokens[..k] <= Taken(g, h, tokens) && g.finished(h + tokens[..k])
    ensures Taken(g, h, tokens) == tokens[..k] && Accepts(g, h, tokens)
  {
    assert |tokens[..k]| == k;
    TakenFollows(g, h, tokens, k);
    assert Taken(g, h + tokens[..k], tokens[k..]) == [];
  }

  lemma OneToken(g: Grammar, h: seq<Token>, t: Token)
    ensures Taken(g, h, [t]) == if !g.finished(h) && g.takes(h, t) then [t] else []
    ensures !g.finished(h) ==> (Accepts(g, h, [t]) <==> g.takes(h, t))
  {
    assert h + [] == h;
    assert [t][1..] == [];
    assert [t] + [] == [t];
  }

  /** Validating and then accepting what was validated: nothing is refused, and the
      grammar ends where accepting all tokens at once would have taken it. */
  method ValidateThenAccept(grammar: XgrammarGrammar, tokens: seq<Token>) returns (ok: bool, accepted: seq<Token>)
    requires grammar.Valid()
    modifies grammar, grammar.matcher
    ensures grammar.Valid() && ok && accepted == Taken(grammar.matcher.grammar, old(grammar.matcher.history), tokens)
    ensures grammar.matcher.history == old(grammar.matcher.history) + accepted
  {
    accepted := grammar.ValidateTokens(tokens);
    TakenAgain(grammar.matcher.grammar, grammar.matcher.history, tokens);
    ok := grammar.AcceptTokens(accepted);
  }
}
