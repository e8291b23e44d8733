/** The top-level `check` of a file: the formatting, link, grammar, spelling and lint passes run
    in a fixed order and their issues are concatenated; the first pass that fails ends the check. */
module Checker {
  import opened Wrappers

  /** The issue record `check` returns. */
  datatype Issue = Issue(
    id: string,
    filePath: string,
    category: string,
    description: string,
    issueInCode: Option<string>,
    suggestions: seq<string>)

  /** The outcome of running `passes` in order: the first failure, or all issues in pass order. */
  function RunPasses<E>(passes: seq<Result<seq<Issue>, E>>): Result<seq<Issue>, E>
  {
    if |passes| == 0 then Success([])
    else if passes[0].Failure? then Failure(passes[0].error)
    else
      match RunPasses(passes[1..])
      case Failure(e) => Failure(e)
      case Success(rest) => Success(passes[0].value + rest)
  }

  /** The passes `check` runs: the grammar pass only when an API key is set, and with that key. */
  function Passes<E>(format: Result<seq<Issue>, E>, link: Result<seq<Issue>, E>, apiKey: Option<string>,
                     grammar: string -> Result<seq<Issue>, E>,
                     spelling: Result<seq<Issue>, E>, lint: Result<seq<Issue>, E>): (ps: seq<Result<seq<Issue>, E>>)
    ensures apiKey.None? ==> ps == [format, link, spelling, lint]
    ensures apiKey.Some? ==> ps == [format, link, grammar(apiKey.value), spelling, lint]
  {
    [format, link] + (if apiKey.Some? then [grammar(apiKey.value)] else []) + [spelling, lint]
  }

  /** Runs the passes one after the other, appending each non-empty list of issues; the results
      of the passes (and the `SAPLING_API_KEY` lookup) are inputs. */
  method Check<E>(format: Result<seq<Issue>, E>, link: Result<seq<Issue>, E>, apiKey: Option<string>,
                  grammar: string -> Result<seq<Issue>, E>,
                  spelling: Result<seq<Issue>, E>, lint: Result<seq<Issue>, E>) returns (r: Result<seq<Issue>, E>)
    ensures r == RunPasses(Passes(format, link, apiKey, grammar, spelling, lint))
  {
    PassesInOrder(format, link, apiKey, grammar, spelling, lint);
    var issues: seq<Issue> := [];
    if format.Failure? {
      return Failure(format.error);
    }
    if |format.value| != 0 {
      issues := issues + format.value;
    }
    assert issues == format.value;
    if link.Failure? {
      return Failure(link.error);
    }
    if |link.value| != 0 {
      issues := issues + link.value;
    }
    ghost var expected := format.value + link.value;
    assert issues == expected;
    if apiKey.Some? {
      var g := grammar(apiKey.value);
      if g.Failure? {
        return Failure(g.error);
      }
      if |g.value| != 0 {
        issues := issues + g.value;
      }
      expected := expected + g.value;
      assert issues == expected;
    }
    ghost var grammarIssues := if apiKey.Some? then grammar(apiKey.value).value else [];
    assert expected == format.value + link.value + grammarIssues;
    if spelling.Failure? {
      return Failure(spelling.error);
    }
    if |spelling.value| != 0 {
      issues := issues + spelling.value;
    }
    expected := expected + spelling.value;
    assert issues == expected;
    if lint.Failure? {
      return Failure(lint.error);
    }
    if |lint.value| != 0 {
      issues := issues + lint.value;
    }
    expected := expected + lint.value;
    assert issues == expected;
    assert expected == format.value + link.value + grammarIssues + spelling.value + lint.value;
    return Success(issues);
  }

  /** The run succeeds exactly when every pass succeeds. */
  lemma {:induction false} RunPassesSucceedsIffAll<E>(passes: seq<Result<seq<Issue>, E>>)
    ensures RunPasses(passes).Success? <==> forall i :: 0 <= i < |passes| ==> passes[i].Success?
  {
    if |passes| > 0 {
      RunPassesSucceedsIffAll(passes[1..]);
      assert forall i :: 1 <= i < |passes| ==> passes[i] == passes[1..][i - 1];
    }
  }

  /** One step of a run: a failing first pass ends it, a succeeding one is prepended to the rest. */
  lemma RunPassesCons<E>(pass: Result<seq<Issue>, E>, rest: seq<Result<seq<Issue>, E>>)
    ensures RunPasses([pass] + rest)
      == if pass.Failure? then Failure(pass.error)
         else if RunPasses(rest).Failure? then RunPasses(rest)
         else Success(pass.value + RunPasses(rest).value)
  {
    assert ([pass] + rest)[1..] == rest;
  }

  /** A run over two lists of passes is the first run followed by the second. */
  lemma {:induction false} RunPassesAppend<E>(first: seq<Result<seq<Issue>, E>>, second: seq<Result<seq<Issue>, E>>)
    ensures RunPasses(first).Failure? ==> RunPasses(first + second) == RunPasses(first)
    ensures RunPasses(first).Success? && RunPasses(second).Failure? ==> RunPasses(first + second) == RunPasses(second)
    ensures RunPasses(first).Success? && RunPasses(second).Success? ==>
      RunPasses(first + second) == Success(RunPasses(first).value + RunPasses(second).value)
  {
    if |first| > 0 {
      assert (first + second)[1..] == first[1..] + second;
      RunPassesAppend(first[1..], second);
      if RunPasses(first).Success? && RunPasses(second).Success? {
        var head, rest, last := first[0].value, RunPasses(first[1..]).value, RunPasses(second).value;
        assert head + (rest + last) == (head + rest) + last;
      }
    } else {
      assert first + second == second;
      assert RunPasses(first).value == [];
      assert RunPasses(second).Success? ==> [] + RunPasses(second).value == RunPasses(second).value;
    }
  }

  /** The first failing pass decides the outcome: passes after it make no difference. */
  lemma FirstFailureWins<E>(passes: seq<Result<seq<Issue>, E>>, i: nat, later: seq<Result<seq<Issue>, E>>)
    requires i < |passes| && passes[i].Failure?
    requires forall j :: 0 <= j < i ==> passes[j].Success?
    ensures RunPasses(passes) == Failure(passes[i].error)
    ensures RunPasses(passes[..i + 1] + later) == Failure(passes[i].error)
  {
    RunPassesSucceedsIffAll(passes[..i]);
    assert passes[..i] + [passes[i]] == passes[..i + 1];
    RunPassesAppend(passes[..i], [passes[i]]);
    RunPassesAppend(passes[..i + 1], later);
    assert passes[..i + 1] + passes[i + 1..] == passes;
    RunPassesAppend(passes[..i + 1], passes[i + 1..]);
  }

  /** The passes of `check` decide its outcome in order: the first failing one gives the error;
      otherwise the issues are the formatting, link, grammar (when a key is set), spelling and
      lint issues, in that order. */
  lemma PassesInOrder<E>(format: Result<seq<Issue>, E>, link: Result<seq<Issue>, E>,
                         apiKey: Option<string>, grammar: string -> Result<seq<Issue>, E>,
                         spelling: Result<seq<Issue>, E>, lint: Result<seq<Issue>, E>)
    ensures RunPasses(Passes(format, link, apiKey, grammar, spelling, lint))
      == if format.Failure? then Failure(format.error)
         else if link.Failure? then Failure(link.error)
         else if apiKey.Some? && grammar(apiKey.value).Failure? then Failure(grammar(apiKey.value).error)
         else if spelling.Failure? then Failure(spelling.error)
         else if lint.Failure? then Failure(lint.error)
         else Success(format.value + link.value
                      + (if apiKey.Some? then grammar(apiKey.value).value else [])
                      + spelling.value + lint.value)
  {
    var last := [lint] + [];
    RunPassesCons(lint, []);
    var tail := [spelling] + last;
    RunPassesCons(spelling, last);
    var middle := (if apiKey.Some? then [grammar(apiKey.value)] else []) + tail;
    if apiKey.Some? {
      assert middle == [grammar(apiKey.value)] + tail;
      RunPassesCons(grammar(apiKey.value), tail);
    } else {
      assert middle == tail;
    }
    RunPassesCons(link, middle);
    RunPassesCons(format, [link] + middle);
    assert Passes(format, link, apiKey, grammar, spelling, lint) == [format] + ([link] + middle);
    if RunPasses(Passes(format, link, apiKey, grammar, spelling, lint)).Success? {
      var g := if apiKey.Some? then grammar(apiKey.value).value else [];
      assert RunPasses<E>([]) == Success([]);
      assert lint.value + [] == lint.value;
      assert RunPasses(last) == Success(lint.value);
      assert RunPasses(tail) == Success(spelling.value + lint.value);
      if apiKey.None? {
        assert g + (spelling.value + lint.value) == spelling.value + lint.value;
      }
      assert RunPasses(middle) == Success(g + (spelling.value + lint.value));
      assert format.value + (link.value + (g + (spelling.value + lint.value)))
        == format.value + link.value + g + spelling.value + lint.value;
    }
  }

  /** Without `SAPLING_API_KEY` the grammar pass is never consulted: the outcome is that of the
      other four passes, whatever the grammar pass would have answered. */
  lemma AbsentKeySkipsGrammar<E>(format: Result<seq<Issue>, E>, link: Result<seq<Issue>, E>,
                                 grammar: string -> Result<seq<Issue>, E>,
                                 spelling: Result<seq<Issue>, E>, lint: Result<seq<Issue>, E>)
    ensures RunPasses(Passes(format, link, None, grammar, spelling, lint))
      == RunPasses([format, link, spelling, lint])
  {
  }
}
