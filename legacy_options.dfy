/**
 * The C agent of `main.c`: `parse_agent_options` accumulates every `include` item
 * into the heap buffer `gdata->include`, comma-separated, and `Agent_OnLoad`
 * runs it before `init_global_data` has set `gdata`.
 */
module LegacyOptions {
  import opened Common
  import opened AgentOptions

  /** The view the parser has of `gdata`: a null pointer, or the data with its include buffer (`None` is NULL). */
  datatype GlobalData = NullData | Data(includeList: Option<string>)

  datatype LegacyResult = LegacyResult(outcome: Outcome, data: GlobalData)

  /** The include buffer before an item is read in: freshly allocated and empty, or the old list followed by ','. */
  function BufferBeforeItem(includeList: Option<string>): (buffer: string)
    ensures includeList.None? ==> buffer == ""
    ensures includeList.Some? ==> |buffer| == |includeList.value| + 1 && includeList.value <= buffer && buffer[|buffer| - 1] == ','
  {
    if includeList.None? then "" else includeList.value + ","
  }

  /** The token loop of `parse_agent_options`. */
  function ParsedAgentTokens(tokens: seq<string>, data: GlobalData): (r: LegacyResult)
    ensures r.outcome == NullDereference ==> data.NullData?
    ensures r.outcome.Exit? ==> r.outcome == Exit(0)
    ensures data.NullData? ==> r.data.NullData?
    ensures data.Data? ==> r.data.Data?
    ensures data.Data? && data.includeList.Some? ==> r.data.includeList.Some? && data.includeList.value <= r.data.includeList.value
    decreases |tokens|
  {
    if tokens == [] then LegacyResult(Ok, data)
    else if tokens[0] == "help" then LegacyResult(Exit(0), data)
    else if tokens[0] == "include" then
      if data.NullData? then LegacyResult(NullDereference, data)
      else
        var buffer := BufferBeforeItem(data.includeList);
        if |tokens| < 2 then LegacyResult(Fatal(INCLUDE_ERROR), Data(Some(buffer)))
        else ParsedAgentTokens(tokens[2..], Data(Some(buffer + tokens[1])))
    else if tokens[0] != "" then LegacyResult(Fatal(UnknownOption(tokens[0])), data)
    else ParsedAgentTokens(tokens[1..], data)
  }

  /** `parse_agent_options(options)`; a null options string leaves the include list unset. */
  function ParsedAgentOptions(options: Option<seq<string>>, data: GlobalData): (r: LegacyResult)
    ensures options.None? ==> r == LegacyResult(Ok, data)
  {
    if options.None? then LegacyResult(Ok, data) else ParsedAgentTokens(options.value, data)
  }

  /** The items joined with ',' in order. */
  function Join(items: seq<string>): (list: string)
    decreases |items|
  {
    if items == [] then ""
    else if |items| == 1 then items[0]
    else items[0] + "," + Join(items[1..])
  }

  /** Parsing a prefix that ends normally and then the rest is parsing the rest from the data the prefix left. */
  lemma {:induction false} ParsedAgentTokensAppend(a: seq<string>, b: seq<string>, data: GlobalData)
    requires ParsedAgentTokens(a, data).outcome == Ok
    ensures ParsedAgentTokens(a + b, data) == ParsedAgentTokens(b, ParsedAgentTokens(a, data).data)
    decreases |a|
  {
    if a == [] {
      assert a + b == b;
    } else if a[0] == "include" {
      assert (a + b)[2..] == a[2..] + b;
      ParsedAgentTokensAppend(a[2..], b, Data(Some(BufferBeforeItem(data.includeList) + a[1])));
    } else {
      assert (a + b)[1..] == a[1..] + b;
      ParsedAgentTokensAppend(a[1..], b, data);
    }
  }

  /** An empty token is skipped: it changes neither the outcome nor the include list. */
  lemma AgentEmptyTokenSkipped(before: seq<string>, after: seq<string>, data: GlobalData)
    requires ParsedAgentTokens(before, data).outcome == Ok
    ensures ParsedAgentTokens(before + [""] + after, data) == ParsedAgentTokens(before + after, data)
  {
    assert before + [""] + after == before + ([""] + after);
    ParsedAgentTokensAppend(before, [""] + after, data);
    ParsedAgentTokensAppend(before, after, data);
    assert ([""] + after)[1..] == after;
  }

  lemma {:induction false} IncludeItemsAppended(list: string, items: seq<string>)
    ensures ParsedAgentTokens(IncludeOptions(items), Data(Some(list)))
         == LegacyResult(Ok, Data(Some(if items == [] then list else list + "," + Join(items))))
    decreases |items|
  {
    if items != [] {
      var tokens := IncludeOptions(items);
      assert tokens[2..] == IncludeOptions(items[1..]);
      IncludeItemsAppended(list + "," + items[0], items[1..]);
      if |items| > 1 {
        assert list + "," + items[0] + "," + Join(items[1..]) == list + "," + (items[0] + "," + Join(items[1..]));
      }
    }
  }

  /** With initialised data, the include list becomes every item joined with ',', in option order. */
  lemma {:induction false} IncludeItemsJoined(items: seq<string>)
    ensures ParsedAgentTokens(IncludeOptions(items), Data(None))
         == LegacyResult(Ok, Data(if items == [] then None else Some(Join(items))))
  {
    if items != [] {
      var tokens := IncludeOptions(items);
      assert tokens[2..] == IncludeOptions(items[1..]);
      IncludeItemsAppended(items[0], items[1..]);
      assert "" + items[0] == items[0];
    }
  }

  /** On initialised data this parser ends exactly as the C++ one does; only the include lists differ. */
  lemma {:induction false} SameOutcomeAsAgentParser(tokens: seq<string>, includeList: Option<string>, filter: string)
    ensures ParsedAgentTokens(tokens, Data(includeList)).outcome == ParsedOptionTokens(tokens, filter).outcome
    decreases |tokens|
  {
    if tokens != [] && tokens[0] != "help" {
      if tokens[0] == "include" && |tokens| >= 2 {
        SameOutcomeAsAgentParser(tokens[2..], Some(BufferBeforeItem(includeList) + tokens[1]), tokens[1]);
      } else if tokens[0] == "" {
        SameOutcomeAsAgentParser(tokens[1..], includeList, filter);
      }
    }
  }

  /** With `gdata` still null, the first `include` reached reads `gdata->include` through the null pointer. */
  lemma IncludeBeforeInitFaults(before: seq<string>, item: string, after: seq<string>)
    requires forall i :: 0 <= i < |before| ==> before[i] == ""
    ensures ParsedAgentTokens(before + ["include", item] + after, NullData).outcome == NullDereference
    decreases |before|
  {
    if before != [] {
      assert (before + ["include", item] + after)[1..] == before[1..] + ["include", item] + after;
      IncludeBeforeInitFaults(before[1..], item, after);
    }
  }

  /** The static `GlobalAgentData`; only its include buffer is used by the parser. */
  class GlobalAgentData {
    var includeList: Option<string>

    constructor ()
      ensures includeList == None
    {
      includeList := None;
    }
  }

  class LegacyAgent {
    var gdata: GlobalAgentData?   // the static `gdata`, null until init_global_data

    ghost function DataView(): GlobalData
      reads this, gdata
    {
      if gdata == null then NullData else Data(gdata.includeList)
    }

    /** The load-time state: `gdata` is null. */
    constructor ()
      ensures gdata == null
    {
      gdata := null;
    }

    /** `init_global_data`: `gdata` points to zeroed data, whose include buffer is NULL. */
    method InitGlobalData()
      modifies this
      ensures gdata != null && fresh(gdata) && DataView() == Data(None)
    {
      gdata := new GlobalAgentData();
    }

    /** `parse_agent_options`: the token loop appending every include item to `gdata->include`. */
    method ParseAgentOptions(options: Option<seq<string>>) returns (o: Outcome)
      modifies gdata
      ensures LegacyResult(o, DataView()) == ParsedAgentOptions(options, old(DataView()))
    {
      if options.None? {
        return Ok;
      }
      var tokens := options.value;
      var i := 0;
      while i < |tokens|
        invariant 0 <= i <= |tokens|
        invariant ParsedAgentTokens(tokens[i..], DataView()) == ParsedAgentTokens(tokens, old(DataView()))
      {
        var token := tokens[i];
        if token == "help" {
          return Exit(0);
        } else if token == "include" {
          if gdata == null {
            return NullDereference;
          }
          if gdata.includeList.None? {
            gdata.includeList := Some("");
          } else {
            gdata.includeList := Some(gdata.includeList.value + ",");
          }
          if i + 1 == |tokens| {
            return Fatal(INCLUDE_ERROR);
          }
          assert tokens[i..][2..] == tokens[i + 2..];
          gdata.includeList := Some(gdata.includeList.value + tokens[i + 1]);
          i := i + 2;
        } else if token != "" {
          return Fatal(UnknownOption(token));
        } else {
          assert tokens[i..][1..] == tokens[i + 1..];
          i := i + 1;
        }
      }
      return Ok;
    }

    /**
     * `Agent_OnLoad` as written: options are parsed while `gdata` is still null, and
     * `init_global_data` then zeroes the data, so no include list survives.
     */
    method AgentOnLoad(options: Option<seq<string>>) returns (o: Outcome)
      requires gdata == null
      modifies this
      ensures o == ParsedAgentOptions(options, NullData).outcome
      ensures o == Ok ==> DataView() == Data(None)
    {
      o := ParseAgentOptions(options);
      if o == Ok {
        InitGlobalData();
      }
    }

    /** `Agent_OnLoad` with `init_global_data` before the parse: the include list is the joined items. */
    method AgentOnLoadFixed(options: Option<seq<string>>) returns (o: Outcome)
      modifies this
      ensures LegacyResult(o, DataView()) == ParsedAgentOptions(options, Data(None))
    {
      InitGlobalData();
      o := ParseAgentOptions(options);
    }
  }
}
