/**
 * The text lines the agent hands to the network server for every traced call,
 * and a reader for them that a collector could use.
 */
module TraceLines {
  import opened Common

  datatype Direction = MethodEntry | MethodExit

  /** One decoded trace line. */
  datatype TraceEvent = TraceEvent(direction: Direction, className: string, methodName: string)

  function Prefix(d: Direction): (prefix: string) {
    match d
    case MethodEntry => "enter: "
    case MethodExit => "exit: "
  }

  /** The line built by `process_method_entry` / `process_method_exit`. */
  function TraceLine(d: Direction, className: string, methodName: string): (line: string)
    ensures |line| == |Prefix(d)| + |className| + |methodName| + 3
    ensures line[..|Prefix(d)|] == Prefix(d) && line[|Prefix(d)| + |className|] == ':' && line[|line| - 2..] == "\r\n"
    ensures line[|Prefix(d)|..|Prefix(d)| + |className|] == className && line[|Prefix(d)| + |className| + 1..|line| - 2] == methodName
  {
    Prefix(d) + className + ":" + methodName + "\r\n"
  }

  /** The first position of `c` in `s`, if any. */
  function IndexOf(s: string, c: char): (r: Option<nat>)
    ensures r.Some? ==> r.value < |s| && s[r.value] == c && c !in s[..r.value]
    ensures r.None? ==> c !in s
  {
    if s == [] then None
    else if s[0] == c then Some(0)
    else match IndexOf(s[1..], c)
      case None => None
      case Some(k) => Some(k + 1)
  }

  /** Reads a trace line back: the direction from its prefix, then class and method split at the first ':'. */
  function ParseTraceLine(line: string): (event: Option<TraceEvent>) {
    if |line| >= 7 && line[..7] == "enter: " then ParseBody(MethodEntry, line[7..])
    else if |line| >= 6 && line[..6] == "exit: " then ParseBody(MethodExit, line[6..])
    else None
  }

  function ParseBody(d: Direction, rest: string): (event: Option<TraceEvent>) {
    if |rest| < 2 || rest[|rest| - 2..] != "\r\n" then None
    else
      var body := rest[..|rest| - 2];
      match IndexOf(body, ':')
      case None => None
      case Some(k) => Some(TraceEvent(d, body[..k], body[k + 1..]))
  }

  lemma {:induction false} FirstSeparator(a: string, b: string)
    requires ':' !in a
    ensures IndexOf(a + ":" + b, ':') == Some(|a|)
  {
    var s := a + ":" + b;
    assert s[|a|] == ':';
    assert forall i :: 0 <= i < |a| ==> s[i] == a[i];
    var r := IndexOf(s, ':');
    assert r.Some?;
  }

  /** The part after the prefix reads back as class and method when the class name has no ':'. */
  lemma BodyRoundTrip(d: Direction, className: string, methodName: string)
    requires ':' !in className
    ensures ParseBody(d, className + ":" + methodName + "\r\n") == Some(TraceEvent(d, className, methodName))
  {
    var body := className + ":" + methodName;
    var rest := className + ":" + methodName + "\r\n";
    assert rest == body + "\r\n";
    assert rest[..|rest| - 2] == body;
    FirstSeparator(className, methodName);
    assert body[..|className|] == className;
    assert body[|className| + 1..] == methodName;
  }

  /** A trace line carries its direction, class and method: a class name without ':' reads back unchanged. */
  lemma {:induction false} TraceLineRoundTrip(d: Direction, className: string, methodName: string)
    requires ':' !in className
    ensures ParseTraceLine(TraceLine(d, className, methodName)) == Some(TraceEvent(d, className, methodName))
  {
    var p := Prefix(d);
    var line := TraceLine(d, className, methodName);
    var rest := className + ":" + methodName + "\r\n";
    assert line == p + rest;
    assert line[|p|..] == rest;
    BodyRoundTrip(d, className, methodName);
    match d
    case MethodEntry =>
      assert line[..7] == "enter: ";
    case MethodExit =>
      assert line[..6] == "exit: ";
      assert line[..7] != "enter: " by { assert line[1] == 'x'; }
  }

  /** An entry line and an exit line never coincide. */
  lemma EntryAndExitLinesDiffer(c1: string, m1: string, c2: string, m2: string)
    ensures TraceLine(MethodEntry, c1, m1) != TraceLine(MethodExit, c2, m2)
  {
    assert TraceLine(MethodEntry, c1, m1)[1] == 'n';
    assert TraceLine(MethodExit, c2, m2)[1] == 'x';
  }
}
