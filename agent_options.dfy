/**
 * The option loop of `JVMAgent::parse_options`, over the tokens the tokenizer yields
 * (separators " ,=" for the first token, ",=" afterwards). Only the last `include`
 * item is kept: every `include` overwrites the same buffer `m_include`.
 */
module AgentOptions {
  import opened Common

  const INCLUDE_ERROR := "ERROR: include option error\n"

  /** `fatal_error("ERROR: Unknown option: %s\n", token)`. */
  function UnknownOption(token: string): (message: string) {
    "ERROR: Unknown option: " + token + "\n"
  }

  /** How option parsing ends, and the include filter it leaves behind. */
  datatype OptionsResult = OptionsResult(outcome: Outcome, filter: string)

  /** The token loop, starting from the include filter `filter`. */
  function ParsedOptionTokens(tokens: seq<string>, filter: string): (r: OptionsResult)
    ensures r.outcome != NullDereference && (r.outcome.Exit? ==> r.outcome == Exit(0))
    ensures r.filter == filter || exists i :: 0 <= i < |tokens| - 1 && tokens[i] == "include" && tokens[i + 1] == r.filter
    decreases |tokens|
  {
    if tokens == [] then OptionsResult(Ok, filter)
    else if tokens[0] == "help" then OptionsResult(Exit(0), filter)
    else if tokens[0] == "include" then
      if |tokens| < 2 then OptionsResult(Fatal(INCLUDE_ERROR), filter)
      else ParsedOptionTokens(tokens[2..], tokens[1])
    else if tokens[0] != "" then OptionsResult(Fatal(UnknownOption(tokens[0])), filter)
    else ParsedOptionTokens(tokens[1..], filter)
  }

  /** `parse_options(options)`; `None` is a null options string, which changes nothing. */
  function ParsedOptions(options: Option<seq<string>>, filter: string): (r: OptionsResult)
    ensures options.None? ==> r == OptionsResult(Ok, filter)
  {
    if options.None? then OptionsResult(Ok, filter) else ParsedOptionTokens(options.value, filter)
  }

  /** The option string `include=x1,include=x2,...` as tokens. */
  function IncludeOptions(items: seq<string>): (tokens: seq<string>)
    ensures |tokens| == 2 * |items|
  {
    if items == [] then [] else ["include", items[0]] + IncludeOptions(items[1..])
  }

  /** Parsing a prefix that ends normally and then the rest is parsing the rest from where the prefix left off. */
  lemma {:induction false} ParsedOptionTokensAppend(a: seq<string>, b: seq<string>, filter: string)
    requires ParsedOptionTokens(a, filter).outcome == Ok
    ensures ParsedOptionTokens(a + b, filter) == ParsedOptionTokens(b, ParsedOptionTokens(a, filter).filter)
    decreases |a|
  {
    if a == [] {
      assert a + b == b;
    } else if a[0] == "include" {
      assert (a + b)[2..] == a[2..] + b;
      ParsedOptionTokensAppend(a[2..], b, a[1]);
    } else {
      assert (a + b)[1..] == a[1..] + b;
      ParsedOptionTokensAppend(a[1..], b, filter);
    }
  }

  /** Every include overwrites the filter: the last item is the one that stays. */
  lemma {:induction false} LastIncludeWins(items: seq<string>, filter: string)
    ensures ParsedOptionTokens(IncludeOptions(items), filter)
         == OptionsResult(Ok, if items == [] then filter else items[|items| - 1])
    decreases |items|
  {
    if items != [] {
      var tokens := IncludeOptions(items);
      assert tokens[2..] == IncludeOptions(items[1..]);
      LastIncludeWins(items[1..], items[0]);
    }
  }

  /** `help` exits with code 0 as soon as it is reached; later tokens are never looked at. */
  lemma HelpExits(before: seq<string>, after: seq<string>, filter: string)
    requires ParsedOptionTokens(before, filter).outcome == Ok
    ensures ParsedOptionTokens(before + ["help"] + after, filter).outcome == Exit(0)
  {
    assert before + ["help"] + after == before + (["help"] + after);
    ParsedOptionTokensAppend(before, ["help"] + after, filter);
  }

  /** A non-empty token that is neither `help` nor `include` is fatal. */
  lemma UnknownOptionIsFatal(before: seq<string>, token: string, after: seq<string>, filter: string)
    requires ParsedOptionTokens(before, filter).outcome == Ok
    requires token != "" && token != "help" && token != "include"
    ensures ParsedOptionTokens(before + [token] + after, filter).outcome == Fatal(UnknownOption(token))
  {
    assert before + [token] + after == before + ([token] + after);
    ParsedOptionTokensAppend(before, [token] + after, filter);
  }

  /** An `include` with no item after it is fatal. */
  lemma IncludeWithoutItemIsFatal(before: seq<string>, filter: string)
    requires ParsedOptionTokens(before, filter).outcome == Ok
    ensures ParsedOptionTokens(before + ["include"], filter).outcome == Fatal(INCLUDE_ERROR)
  {
    ParsedOptionTokensAppend(before, ["include"], filter);
  }

  /** An empty token is skipped. */
  lemma EmptyTokenSkipped(before: seq<string>, after: seq<string>, filter: string)
    requires ParsedOptionTokens(before, filter).outcome == Ok
    ensures ParsedOptionTokens(before + [""] + after, filter) == ParsedOptionTokens(before + after, filter)
  {
    assert before + [""] + after == before + ([""] + after);
    ParsedOptionTokensAppend(before, [""] + after, filter);
    ParsedOptionTokensAppend(before, after, filter);
    assert ([""] + after)[1..] == after;
  }
}
