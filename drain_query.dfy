/** The read-everything queries of the 2450 tools (`_query_lines`,
    `_read_response_lines`, `_execute_command`): one read at the session
    timeout that may wait for the script to finish, then reads at a short
    drain timeout until the first timeout says the output is exhausted.
    Blank lines are dropped, any other error propagates, and the session
    timeout is put back on every path. */
module DrainQuery {
  import opened Outcome
  import opened PyText
  import opened Channel

  /** What a sequence of reads produces: the kept lines, how many reads were made, and
      whether a read ended in an error that propagates. */
  datatype Drained = Drained(lines: seq<string>, count: nat, failed: bool)

  /** A stripped line is kept unless it is blank. */
  function Keep(s: string): seq<string>
  {
    var t := Strip(s);
    if t == [] then [] else [t]
  }

  /** The drain phase: read until the first timeout; another error fails. */
  function DrainRest(p: seq<ReadOutcome>): (d: Drained)
    ensures d.count >= 1
    ensures d.count <= |p| || (d.count == |p| + 1 && !d.failed)
  {
    if p == [] then Drained([], 1, false)
    else
      match p[0]
      case Timeout => Drained([], 1, false)
      case OtherError => Drained([], 1, true)
      case Line(s) =>
        var d := DrainRest(p[1..]);
        Drained(Keep(s) + d.lines, d.count + 1, d.failed)
  }

  /** The whole response: the first read must deliver a line (a timeout there is an error). */
  function Response(p: seq<ReadOutcome>): (d: Drained)
    ensures d.count >= 1
  {
    if p == [] then Drained([], 1, true)
    else
      match p[0]
      case Line(s) =>
        var d := DrainRest(p[1..]);
        Drained(Keep(s) + d.lines, d.count + 1, d.failed)
      case _ => Drained([], 1, true)
  }

  function Repeat(x: int, n: nat): (r: seq<int>)
    ensures |r| == n && forall i :: 0 <= i < n ==> r[i] == x
  {
    seq(n, _ => x)
  }

  function Consumed(p: seq<ReadOutcome>, count: nat): seq<ReadOutcome>
  {
    if count <= |p| then p[count..] else []
  }

  function MinInt(a: int, b: int): int { if a <= b then a else b }

  lemma RepeatSnoc(x: int, n: nat)
    ensures Repeat(x, n) + [x] == Repeat(x, n + 1)
  {
  }

  /** Every line is non-blank and stripped. */
  predicate Clean(ls: seq<string>)
  {
    forall i :: 0 <= i < |ls| ==> ls[i] != [] && Strip(ls[i]) == ls[i]
  }

  lemma CleanAppend(a: seq<string>, b: seq<string>)
    requires Clean(a) && Clean(b)
    ensures Clean(a + b)
  {
    assert forall i :: |a| <= i < |a + b| ==> (a + b)[i] == b[i - |a|];
  }

  /** All kept lines are non-blank and stripped. */
  lemma {:induction false} DrainedLinesClean(p: seq<ReadOutcome>)
    ensures Clean(DrainRest(p).lines)
    decreases |p|
  {
    if p != [] && p[0].Line? {
      DrainedLinesClean(p[1..]);
      StripIdempotent(p[0].text);
      var k := Keep(p[0].text);
      assert Clean(k);
      CleanAppend(k, DrainRest(p[1..]).lines);
    }
  }

  /** Every line a query returns is non-blank and stripped. */
  lemma ResponseLinesClean(p: seq<ReadOutcome>)
    ensures Clean(Response(p).lines)
  {
    if p != [] && p[0].Line? {
      DrainedLinesClean(p[1..]);
      StripIdempotent(p[0].text);
      CleanAppend(Keep(p[0].text), DrainRest(p[1..]).lines);
    }
  }

  /** The drain result of lines already read, `n` reads so far, and what the rest gives. */
  function After(lines: seq<string>, n: nat, d: Drained): Drained
  {
    Drained(lines + d.lines, n + d.count, d.failed)
  }

  lemma DrainLineStep(lines: seq<string>, n: nat, p: seq<ReadOutcome>)
    requires p != [] && p[0].Line?
    ensures After(lines, n, DrainRest(p)) == After(lines + Keep(p[0].text), n + 1, DrainRest(p[1..]))
  {
    var k := Keep(p[0].text);
    var d := DrainRest(p[1..]);
    assert DrainRest(p) == Drained(k + d.lines, d.count + 1, d.failed);
    assert lines + (k + d.lines) == (lines + k) + d.lines;
  }

  /** The drain loop: read at the current timeout until the first timeout or error. */
  method DrainLines(inst: Instrument) returns (lines: seq<string>, failed: bool)
    modifies inst
    ensures var d := DrainRest(old(inst.pending));
      lines == d.lines && failed == d.failed &&
      inst.pending == Consumed(old(inst.pending), d.count) &&
      inst.readTimeouts == old(inst.readTimeouts) + Repeat(old(inst.timeout), d.count)
    ensures inst.timeout == old(inst.timeout) && inst.written == old(inst.written) && inst.faults == old(inst.faults)
  {
    ghost var p0 := inst.pending;
    ghost var log := inst.readTimeouts;
    ghost var t := inst.timeout;
    lines := [];
    ghost var n: nat := 0;
    failed := false;
    while true
      invariant inst.timeout == t
      invariant inst.written == old(inst.written) && inst.faults == old(inst.faults)
      invariant n <= |p0| && inst.pending == p0[n..]
      invariant inst.readTimeouts == log + Repeat(t, n)
      invariant DrainRest(p0) == After(lines, n, DrainRest(inst.pending))
      decreases |inst.pending|
    {
      ghost var q := inst.pending;
      var extra := inst.Read();
      RepeatSnoc(t, n);
      n := n + 1;
      if !extra.Line? {
        DrainEnd(q);
        failed := extra.OtherError?;
        break;
      }
      DrainLineStep(lines, n - 1, q);
      lines := lines + Keep(extra.text);
    }
  }

  lemma DrainEnd(q: seq<ReadOutcome>)
    requires !NextRead(q).Line?
    ensures DrainRest(q) == Drained([], 1, NextRead(q).OtherError?)
  {
  }

  /** `_read_response_lines` with drain timeout `min(session timeout, cap)` (250 ms or 750 ms). */
  method ReadResponseLines(inst: Instrument, cap: int) returns (r: Result<seq<string>>)
    modifies inst
    ensures var d := Response(old(inst.pending));
      r == (if d.failed then Err("VISA read failed") else Ok(d.lines)) &&
      inst.pending == Consumed(old(inst.pending), d.count) &&
      inst.readTimeouts == old(inst.readTimeouts) + [old(inst.timeout)] + Repeat(MinInt(old(inst.timeout), cap), d.count - 1)
    ensures inst.timeout == old(inst.timeout)
    ensures inst.written == old(inst.written) && inst.faults == old(inst.faults)
  {
    var original := inst.timeout;
    ghost var p := inst.pending;
    var first := inst.Read();
    if !first.Line? {
      assert Response(p).failed;
      inst.SetTimeout(original);
      return Err("VISA read failed");
    }
    assert inst.pending == p[1..];
    inst.SetTimeout(MinInt(original, cap));
    var rest, failed := DrainLines(inst);
    inst.SetTimeout(original);
    if failed {
      return Err("VISA read failed");
    }
    r := Ok(Keep(first.text) + rest);
  }

  /** What a write-then-read-everything query returns on an open session with the given
      read outcomes and write faults, and the read outcomes it leaves unconsumed. */
  datatype Reply = Reply(result: Result<seq<string>>, rest: seq<ReadOutcome>)

  function QueryReply(p: seq<ReadOutcome>, f: seq<bool>): Reply
  {
    if FirstSet(f) then Reply(Err("VISA write failed"), p)
    else
      var d := Response(p);
      Reply(if d.failed then Err("VISA read failed") else Ok(d.lines), Consumed(p, d.count))
  }

  /** `_query_lines` / `_execute_command`: write the command, then read the whole response.
      Without an instrument the variants either return nothing or raise: `whenDisconnected`. */
  method QueryLines(inst: Instrument?, command: Command, cap: int, whenDisconnected: Result<seq<string>>)
    returns (r: Result<seq<string>>)
    modifies inst
    ensures inst == null ==> r == whenDisconnected
    ensures inst != null ==>
      r == QueryReply(old(inst.pending), old(inst.faults)).result &&
      inst.pending == QueryReply(old(inst.pending), old(inst.faults)).rest &&
      inst.faults == DropFirst(old(inst.faults)) && inst.timeout == old(inst.timeout)
    ensures inst != null && FirstSet(old(inst.faults)) ==>
      inst.written == old(inst.written) && inst.readTimeouts == old(inst.readTimeouts)
    ensures inst != null && !FirstSet(old(inst.faults)) ==>
      inst.written == old(inst.written) + [command] &&
      inst.readTimeouts == old(inst.readTimeouts) + [old(inst.timeout)] +
        Repeat(MinInt(old(inst.timeout), cap), Response(old(inst.pending)).count - 1)
  {
    if inst == null {
      return whenDisconnected;
    }
    var ok := inst.Write(command);
    if !ok {
      return Err("VISA write failed");
    }
    r := ReadResponseLines(inst, cap);
  }

  // ------------------------------------------------------------ reference description

  function AsLines(ls: seq<string>): (r: seq<ReadOutcome>)
    ensures |r| == |ls| && forall i :: 0 <= i < |ls| ==> r[i] == Line(ls[i])
  {
    seq(|ls|, i requires 0 <= i < |ls| => Line(ls[i]))
  }

  function KeepAll(ls: seq<string>): seq<string>
  {
    if ls == [] then [] else Keep(ls[0]) + KeepAll(ls[1..])
  }

  /** Draining lines followed by a timeout yields exactly the non-blank stripped lines, one
      read per line plus the timeout, whatever the instrument would have sent afterwards. */
  lemma {:induction false} DrainUntilTimeout(ls: seq<string>, rest: seq<ReadOutcome>)
    ensures DrainRest(AsLines(ls) + [Timeout] + rest) == Drained(KeepAll(ls), |ls| + 1, false)
    decreases |ls|
  {
    var p := AsLines(ls) + [Timeout] + rest;
    if ls != [] {
      assert p[0] == Line(ls[0]);
      assert p[1..] == AsLines(ls[1..]) + [Timeout] + rest;
      DrainUntilTimeout(ls[1..], rest);
    }
  }

  /** A non-timeout error after some lines makes the whole query fail. */
  lemma {:induction false} DrainErrorFails(ls: seq<string>, rest: seq<ReadOutcome>)
    ensures DrainRest(AsLines(ls) + [OtherError] + rest).failed
    ensures DrainRest(AsLines(ls) + [OtherError] + rest).count == |ls| + 1
    decreases |ls|
  {
    var p := AsLines(ls) + [OtherError] + rest;
    if ls != [] {
      assert p[0] == Line(ls[0]);
      assert p[1..] == AsLines(ls[1..]) + [OtherError] + rest;
      DrainErrorFails(ls[1..], rest);
    }
  }
}
