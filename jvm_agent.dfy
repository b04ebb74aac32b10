/**
 * `JVMAgent`: the session flags, the class registry, the class-load hook's
 * registry part, the rewriter's method callback, the method entry / exit path,
 * the thread callbacks' dead guard, the thread name fallback and the option loop.
 * Each section the source runs under the agent's monitor is one method.
 */
module JVMAgent {
  import opened Common
  import opened TraceLines
  import opened AgentRegistry
  import opened AgentOptions
  import NS = NetworkServer

  const MAX_THREAD_NAME_LENGTH := 512

  const CLASS_RANGE_ERROR := "ERROR: Class number out of range\n"
  const METHOD_RANGE_ERROR := "ERROR: Method number out of range\n"
  const NO_CLASSNAME_ERROR := "ERROR: No classname inside classfile\n"

  /** `interested(class, method, include list, nullptr)` of the agent utilities; its matching rule is not modelled. */
  type Filter = (string, string, string) -> bool

  /** The arguments the agent passes to the bytecode rewriter `java_crw_demo`. */
  datatype RewriteRequest = RewriteRequest(cnum: nat, className: string, classData: seq<byte>, systemClass: bool)

  /** The arguments the rewriter passes to `mnum_callbacks`, for the class it was asked to rewrite. */
  datatype MethodTable = MethodTable(names: seq<string>, sigs: seq<string>, mcount: int)

  /**
   * What the rewriter produces: the method table it reports through the callback
   * (if it calls it), and the new image with its length.
   */
  datatype Rewrite = Rewrite(methods: Option<MethodTable>, newImage: seq<byte>, newLength: int)

  type Rewriter = RewriteRequest -> Rewrite

  /** What the rewriter promises: `mcount` names and signatures, and at least `new_length` image bytes. */
  predicate RewriteValid(rw: Rewrite) {
    (rw.methods.Some? ==> 0 <= rw.methods.value.mcount <= |rw.methods.value.names| && rw.methods.value.mcount <= |rw.methods.value.sigs|)
    && rw.newLength <= |rw.newImage|
  }

  /** The hook's out-parameters: left alone, or set to a length and a pointer (`None` is `nullptr`). */
  datatype NewClassData = Untouched | Written(length: int, data: Option<seq<byte>>)

  /** The registry entry a loaded class ends up with, once the rewriter has reported its methods. */
  function Registered(className: string, rw: Rewrite): (c: ClassInfo)
    requires RewriteValid(rw)
    ensures ClassValid(c) && c.name == className && c.callCount == 0
    ensures |c.methods| == if rw.methods.Some? then rw.methods.value.mcount else 0
    ensures forall i :: 0 <= i < |c.methods| ==>
      c.methods[i].name == rw.methods.value.names[i] && c.methods[i].signature == rw.methods.value.sigs[i]
  {
    var c := NewClass(className);
    if rw.methods.Some? && rw.methods.value.mcount != 0 then
      WithMethods(c, rw.methods.value.names, rw.methods.value.sigs, rw.methods.value.mcount)
    else c
  }

  /** The new image the hook reports: a copy of the rewriter's image when it returned a positive length, else nothing. */
  function ReturnedImage(rw: Rewrite): (out: NewClassData)
    requires RewriteValid(rw)
    ensures out.Written?
    ensures out.data.Some? <==> rw.newLength > 0
    ensures out.data.None? ==> out.length == 0
    ensures out.data.Some? ==> out.length == rw.newLength == |out.data.value| && out.data.value == rw.newImage[..rw.newLength]
  {
    if rw.newLength > 0 then Written(rw.newLength, Some(rw.newImage[..rw.newLength])) else Written(0, None)
  }

  /** The effect of one method entry or exit callback: how it ends, and the line it enqueues, if any. */
  datatype Capture = Capture(outcome: Outcome, line: Option<string>)

  function Captured(dead: bool, classes: seq<ClassInfo>, filter: string, interested: Filter, d: Direction, cnum: int, mnum: int): (r: Capture)
    requires RegistryValid(classes)
    ensures dead ==> r == Capture(Ok, None)
    ensures !dead && !(0 <= cnum < |classes|) ==> r == Capture(Fatal(CLASS_RANGE_ERROR), None)
    ensures !dead && 0 <= cnum < |classes| && !(0 <= mnum < |classes[cnum].methods|) ==> r == Capture(Fatal(METHOD_RANGE_ERROR), None)
    ensures r.line.Some? ==> r.outcome == Ok
    ensures !dead && 0 <= cnum < |classes| && 0 <= mnum < |classes[cnum].methods| ==> r.outcome == Ok
    ensures r.line.Some? <==> !dead && 0 <= cnum < |classes| && 0 <= mnum < |classes[cnum].methods|
                              && interested(classes[cnum].name, classes[cnum].methods[mnum].name, filter)
    ensures r.line.Some? ==> r.line.value == TraceLine(d, classes[cnum].name, classes[cnum].methods[mnum].name)
  {
    if dead then Capture(Ok, None)
    else match Lookup(classes, cnum, mnum)
      case ClassOutOfRange => Capture(Fatal(CLASS_RANGE_ERROR), None)
      case MethodOutOfRange => Capture(Fatal(METHOD_RANGE_ERROR), None)
      case Found(c, m) => if interested(c, m, filter) then Capture(Ok, Some(TraceLine(d, c, m))) else Capture(Ok, None)
  }

  /** The queue's new messages for a capture. */
  function Enqueued(r: Capture): (lines: seq<string>) {
    if r.line.Some? then [r.line.value] else []
  }

  /** An enqueued line reads back as the direction, class and method that were looked up. */
  lemma CapturedLineReadsBack(dead: bool, classes: seq<ClassInfo>, filter: string, interested: Filter, d: Direction, cnum: int, mnum: int)
    requires RegistryValid(classes)
    requires forall i :: 0 <= i < |classes| ==> ':' !in classes[i].name
    requires Captured(dead, classes, filter, interested, d, cnum, mnum).line.Some?
    ensures ParseTraceLine(Captured(dead, classes, filter, interested, d, cnum, mnum).line.value)
         == Some(TraceEvent(d, classes[cnum].name, classes[cnum].methods[mnum].name))
  {
    TraceLineRoundTrip(d, classes[cnum].name, classes[cnum].methods[mnum].name);
  }

  /** The placeholder name "Unknown", as the bytes `strcpy` writes. */
  const UNKNOWN_NAME: seq<byte> := [0x55, 0x6E, 0x6B, 0x6E, 0x6F, 0x77, 0x6E]

  /**
   * `get_thread_name`: the host's name when there is one and it fits the buffer
   * (`strlen < maxlen`), otherwise the placeholder "Unknown". The host's name is the
   * byte string JVMTI returns (modified UTF-8, without its terminator), so the fit is
   * measured in bytes, not characters.
   */
  function ThreadName(hostName: Option<seq<byte>>, maxlen: int): (name: seq<byte>)
    requires maxlen > |UNKNOWN_NAME|
    ensures |name| < maxlen
    ensures name == UNKNOWN_NAME || hostName == Some(name)
    ensures hostName.Some? && |hostName.value| < maxlen ==> name == hostName.value
  {
    if hostName.Some? && |hostName.value| < maxlen then hostName.value else UNKNOWN_NAME
  }

  class Agent {
    var classes: seq<ClassInfo>   // m_classes
    var vmStarted: bool           // m_vm_is_started
    var vmDead: bool              // m_vm_is_dead
    var filter: string            // m_include
    const server: NS.Server       // m_server
    const interested: Filter

    ghost predicate Valid()
      reads this, server
    {
      RegistryValid(classes) && server.Valid()
    }

    /** The constructor: no classes, neither started nor dead, an empty filter and a fresh server. */
    constructor (interested: Filter)
      ensures Valid() && fresh(server) && server.Initial()
      ensures classes == [] && !vmStarted && !vmDead && filter == "" && this.interested == interested
    {
      classes := [];
      vmStarted := false;
      vmDead := false;
      filter := "";
      server := new NS.Server();
      this.interested := interested;
    }

    /**
     * `init_jvmti`: parses the options, then starts the network server. `fatal_error` and
     * `exit` end the process, so a parse that does not end normally never reaches the server.
     */
    method InitJvmti(options: Option<seq<string>>, listenHandle: nat, acceptResult: NS.Socket) returns (o: Outcome)
      requires Valid()
      modifies this`filter, server`listenSocket, server`clientSocket, server`workerActive, server`hasWorker
      ensures Valid()
      ensures OptionsResult(o, filter) == ParsedOptions(options, old(filter))
      ensures o != Ok ==> server.listenSocket == old(server.listenSocket) && server.clientSocket == old(server.clientSocket)
                          && server.workerActive == old(server.workerActive) && server.hasWorker == old(server.hasWorker)
      ensures o == Ok ==> server.listenSocket == NS.Handle(listenHandle) && server.clientSocket == acceptResult
                          && server.workerActive == (old(server.workerActive) || acceptResult.Handle?)
                          && server.hasWorker == (old(server.hasWorker) || acceptResult.Handle?)
    {
      o := ParseOptions(options);
      if o == Ok {
        server.Start(listenHandle, acceptResult);
      }
    }

    /** `finit_jvmti`: stops the network server. */
    method FinitJvmti()
      requires Valid()
      modifies server`workerActive, server`listenSocket, server`clientSocket, server`closed
      ensures Valid() && !server.workerActive
      ensures !old(server.workerActive) ==> server.listenSocket == old(server.listenSocket)
                                            && server.clientSocket == old(server.clientSocket) && server.closed == old(server.closed)
      ensures old(server.workerActive) ==> server.listenSocket == NS.InvalidSocket && server.clientSocket == NS.InvalidSocket
                                           && server.closed == old(server.closed) + NS.Closable(old(server.listenSocket)) + NS.Closable(old(server.clientSocket))
    {
      server.Stop();
    }

    /** `parse_options`: the token loop writing the last `include` item into the filter. */
    method ParseOptions(options: Option<seq<string>>) returns (o: Outcome)
      modifies this`filter
      ensures OptionsResult(o, filter) == ParsedOptions(options, old(filter))
    {
      if options.None? {
        return Ok;
      }
      var tokens := options.value;
      var i := 0;
      while i < |tokens|
        invariant 0 <= i <= |tokens|
        invariant ParsedOptionTokens(tokens[i..], filter) == ParsedOptionTokens(tokens, old(filter))
      {
        var token := tokens[i];
        if token == "help" {
          return Exit(0);
        }
        if token == "include" {
          if i + 1 == |tokens| {
            return Fatal(INCLUDE_ERROR);
          }
          assert tokens[i..][2..] == tokens[i + 2..];
          filter := tokens[i + 1];
          i := i + 2;
        } else if token != "" {
          return Fatal(UnknownOption(token));
        } else {
          assert tokens[i..][1..] == tokens[i + 1..];
          i := i + 1;
        }
      }
      return Ok;
    }

    /** `cbVMStart`. */
    method ProcessVMStart()
      modifies this`vmStarted
      ensures vmStarted
    {
      vmStarted := true;
    }

    /** `cbVMDeath`: the session is dead from now on; nothing ever clears the flag. */
    method ProcessVMDeath()
      modifies this`vmDead
      ensures vmDead
    {
      vmDead := true;
    }

    /** `cbThreadStart`: the name it logs, or nothing once the session is dead. */
    method ProcessThreadStart(hostName: Option<seq<byte>>) returns (logged: Option<seq<byte>>)
      ensures logged.Some? <==> !vmDead
      ensures logged.Some? ==> logged.value == ThreadName(hostName, MAX_THREAD_NAME_LENGTH)
    {
      logged := None;
      if !vmDead {
        logged := Some(ThreadName(hostName, MAX_THREAD_NAME_LENGTH));
      }
    }

    /** `cbThreadEnd`: the name it logs, or nothing once the session is dead. */
    method ProcessThreadEnd(hostName: Option<seq<byte>>) returns (logged: Option<seq<byte>>)
      ensures logged.Some? <==> !vmDead
      ensures logged.Some? ==> logged.value == ThreadName(hostName, MAX_THREAD_NAME_LENGTH)
    {
      logged := None;
      if !vmDead {
        logged := Some(ThreadName(hostName, MAX_THREAD_NAME_LENGTH));
      }
    }

    /**
     * `mnum_callbacks`: a class number outside the table is fatal; a count of zero
     * leaves the table alone; otherwise class `cnum` gets `mcount` methods named
     * `names[i]` with signatures `sigs[i]`, and no other class changes.
     */
    method MnumCallbacks(cnum: nat, names: seq<string>, sigs: seq<string>, mcount: int) returns (o: Outcome)
      requires Valid()
      requires 0 <= mcount <= |names| && mcount <= |sigs|
      modifies this`classes
      ensures Valid()
      ensures cnum >= |old(classes)| ==> o == Fatal(CLASS_RANGE_ERROR) && classes == old(classes)
      ensures cnum < |old(classes)| && mcount == 0 ==> o == Ok && classes == old(classes)
      ensures cnum < |old(classes)| && mcount > 0 ==>
        o == Ok && classes == old(classes)[cnum := WithMethods(old(classes)[cnum], names, sigs, mcount)]
    {
      if cnum >= |classes| {
        return Fatal(CLASS_RANGE_ERROR);
      }
      if mcount == 0 {
        return Ok;
      }
      var info := classes[cnum];
      var resized := Resized(info.methods, mcount);
      classes := classes[cnum := info.(callCount := 0, mcount := mcount, methods := resized)];
      var methodIndex := 0;
      while methodIndex < mcount
        invariant 0 <= methodIndex <= mcount
        invariant |classes| == |old(classes)|
        invariant forall j :: 0 <= j < |classes| && j != cnum ==> classes[j] == old(classes)[j]
        invariant classes[cnum].name == info.name && classes[cnum].mcount == mcount && classes[cnum].callCount == 0
        invariant |classes[cnum].methods| == mcount
        invariant forall i :: 0 <= i < methodIndex ==>
          classes[cnum].methods[i] == resized[i].(name := names[i], signature := sigs[i])
        invariant forall i :: methodIndex <= i < mcount ==> classes[cnum].methods[i] == resized[i]
      {
        var c := classes[cnum];
        var mp := c.methods[methodIndex].(name := names[methodIndex], signature := sigs[methodIndex]);
        classes := classes[cnum := c.(methods := c.methods[methodIndex := mp])];
        methodIndex := methodIndex + 1;
      }
      assert classes[cnum] == WithMethods(old(classes)[cnum], names, sigs, mcount);
      return Ok;
    }

    /**
     * The registry part of `cbClassFileLoadHook`. `name` is the host's class name
     * (`None` when null, in which case `classNameOf` reads it from the class file);
     * `crw` is the rewriter. Once dead, nothing happens. A class the filter accepts
     * is appended at the next index, rewritten with that index and with
     * `system_class` set exactly when the VM has not started, and receives the
     * methods the rewriter reports; a class it rejects leaves the registry alone.
     */
    method ProcessClassFileLoadHook(name: Option<string>, classData: seq<byte>, classNameOf: seq<byte> -> Option<string>, crw: Rewriter)
      returns (o: Outcome, out: NewClassData)
      requires Valid()
      requires forall req :: RewriteValid(crw(req))
      modifies this`classes
      ensures Valid()
      ensures vmDead ==> o == Ok && out == Untouched && classes == old(classes)
      ensures !vmDead && name.None? && classNameOf(classData).None? ==>
        o == Fatal(NO_CLASSNAME_ERROR) && out == Untouched && classes == old(classes)
      ensures !vmDead && (name.Some? || classNameOf(classData).Some?) ==>
        var className := if name.Some? then name.value else classNameOf(classData).value;
        var rw := crw(RewriteRequest(|old(classes)|, className, classData, !vmStarted));
        o == Ok &&
        if interested(className, "", filter) then
          classes == old(classes) + [Registered(className, rw)] && out == ReturnedImage(rw)
        else
          classes == old(classes) && out == Written(0, None)
    {
      if vmDead {
        return Ok, Untouched;
      }
      var className: string;
      if name.None? {
        var embedded := classNameOf(classData);
        if embedded.None? {
          return Fatal(NO_CLASSNAME_ERROR), Untouched;
        }
        className := embedded.value;
      } else {
        className := name.value;
      }
      o, out := Ok, Written(0, None);
      if interested(className, "", filter) {
        var cnum := |classes|;
        classes := classes + [NewClass(className)];
        var systemClass := !vmStarted;
        var rw := crw(RewriteRequest(cnum, className, classData, systemClass));
        if rw.methods.Some? {
          var table := rw.methods.value;
          o := MnumCallbacks(cnum, table.names, table.sigs, table.mcount);
        }
        if rw.newLength > 0 {
          out := Written(rw.newLength, Some(rw.newImage[..rw.newLength]));
        }
      }
    }

    /** The shared body of the method entry and exit callbacks. */
    method Trace(d: Direction, cnum: int, mnum: int) returns (o: Outcome)
      requires Valid()
      modifies server`queue
      ensures Valid()
      ensures var r := Captured(vmDead, classes, filter, interested, d, cnum, mnum);
        o == r.outcome && server.queue == old(server.queue) + Enqueued(r)
    {
      if !vmDead {
        if cnum < 0 || cnum >= |classes| {
          return Fatal(CLASS_RANGE_ERROR);
        }
        var info := classes[cnum];
        if mnum < 0 || mnum >= info.mcount {
          return Fatal(METHOD_RANGE_ERROR);
        }
        var m := info.methods[mnum];
        if interested(info.name, m.name, filter) {
          server.EnqueueForSending(TraceLine(d, info.name, m.name));
        }
      }
      return Ok;
    }

    /** `process_method_entry`: enqueues `"enter: <class>:<method>\r\n"` when the filter accepts the pair. */
    method ProcessMethodEntry(cnum: int, mnum: int) returns (o: Outcome)
      requires Valid()
      modifies server`queue
      ensures Valid()
      ensures var r := Captured(vmDead, classes, filter, interested, MethodEntry, cnum, mnum);
        o == r.outcome && server.queue == old(server.queue) + Enqueued(r)
    {
      o := Trace(MethodEntry, cnum, mnum);
    }

    /** `process_method_exit`: enqueues `"exit: <class>:<method>\r\n"` when the filter accepts the pair. */
    method ProcessMethodExit(cnum: int, mnum: int) returns (o: Outcome)
      requires Valid()
      modifies server`queue
      ensures Valid()
      ensures var r := Captured(vmDead, classes, filter, interested, MethodExit, cnum, mnum);
        o == r.outcome && server.queue == old(server.queue) + Enqueued(r)
    {
      o := Trace(MethodExit, cnum, mnum);
    }
  }

  /**
   * A fresh agent started with the options `include=<pattern>`, after class "Foo" with
   * the given methods has loaded.
   */
  method AgentWithFoo(interested: Filter, pattern: string, names: seq<string>, sigs: seq<string>) returns (agent: Agent)
    requires |names| == |sigs|
    ensures fresh(agent) && fresh(agent.server) && agent.Valid()
    ensures !agent.vmDead && agent.filter == pattern && agent.interested == interested && agent.server.queue == []
    ensures interested("Foo", "", pattern) ==> agent.classes == [Registered("Foo", Rewrite(Some(MethodTable(names, sigs, |names|)), [], 0))]
    ensures !interested("Foo", "", pattern) ==> agent.classes == []
  {
    agent := new Agent(interested);
    var parsed := agent.ParseOptions(Some(["include", pattern]));
    var rw := Rewrite(Some(MethodTable(names, sigs, |names|)), [], 0);
    var o, out := agent.ProcessClassFileLoadHook(Some("Foo"), [], _ => None, _ => rw);
  }

  /** The two lines traced for method bar of class Foo. */
  lemma FooBarLines()
    ensures TraceLine(MethodEntry, "Foo", "bar") == "enter: Foo:bar\r\n"
    ensures TraceLine(MethodExit, "Foo", "bar") == "exit: Foo:bar\r\n"
  {
  }

  /**
   * Options `include=Foo`, a filter accepting a class whose name is the include pattern,
   * class "Foo" with methods bar and baz, then an entry and an exit of method 0 of
   * class 0: the queue holds the two lines, in order.
   */
  method FooScenario() returns (queue: seq<string>)
    ensures queue == ["enter: Foo:bar\r\n", "exit: Foo:bar\r\n"]
  {
    var agent := AgentWithFoo((c: string, m: string, f: string) => c == f, "Foo", ["bar", "baz"], ["()V", "()V"]);
    assert agent.classes[0].name == "Foo" && agent.classes[0].methods[0].name == "bar";
    var o := agent.ProcessMethodEntry(0, 0);
    assert agent.server.queue == [TraceLine(MethodEntry, "Foo", "bar")];
    o := agent.ProcessMethodExit(0, 0);
    queue := agent.server.queue;
    assert queue == [TraceLine(MethodEntry, "Foo", "bar"), TraceLine(MethodExit, "Foo", "bar")];
    FooBarLines();
  }

  /**
   * Options `include=Other` and a filter accepting a class whose name is the include
   * pattern: "Foo" is neither registered nor rewritten, so the output image is left as
   * it was and nothing is queued.
   */
  method OtherScenario() returns (registry: seq<ClassInfo>, out: NewClassData, queue: seq<string>)
    ensures registry == [] && out == Written(0, None) && queue == []
  {
    var agent := new Agent((c: string, m: string, f: string) => c == f);
    var parsed := agent.ParseOptions(Some(["include", "Other"]));
    var rw := Rewrite(Some(MethodTable(["bar", "baz"], ["()V", "()V"], 2)), [], 0);
    var o;
    o, out := agent.ProcessClassFileLoadHook(Some("Foo"), [], _ => None, _ => rw);
    registry := agent.classes;
    queue := agent.server.queue;
  }

  /** Class number 5 on a registry with one class is fatal and enqueues nothing; the registry stays usable. */
  method OutOfRangeScenario() returns (bad: Outcome, good: Outcome, queue: seq<string>)
    ensures bad == Fatal(CLASS_RANGE_ERROR) && good == Ok && queue == ["enter: Foo:bar\r\n"]
  {
    var agent := AgentWithFoo((c: string, m: string, f: string) => c == f, "Foo", ["bar"], ["()V"]);
    assert |agent.classes| == 1 && agent.classes[0].name == "Foo" && agent.classes[0].methods[0].name == "bar";
    bad := agent.ProcessMethodEntry(5, 0);
    assert agent.server.queue == [];
    good := agent.ProcessMethodEntry(0, 0);
    queue := agent.server.queue;
    assert queue == [TraceLine(MethodEntry, "Foo", "bar")];
    FooBarLines();
  }
}
