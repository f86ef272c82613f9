/** The instrument channel every GUI talks through, reduced to what the
    logic observes: a queue of read outcomes, a queue of write faults, the
    log of commands that went out, and the timeout setting.  A polled stop
    flag (a `threading.Event` in the programs) is a queue of poll answers. */
module Channel {
  import opened Outcome

  /** What one `read()` produces: a line, the VISA timeout error, or any other VISA error. */
  datatype ReadOutcome = Line(text: string) | Timeout | OtherError

  /** A command argument; command text rendering (`%.9g`, `{v}`) is not modelled. */
  datatype Arg = Num(x: real) | Whole(n: int) | Text(s: string)

  /** One written command: its header (SCPI or TSP text) and its arguments. */
  datatype Command = Command(header: string, args: seq<Arg>)

  function Cmd(h: string): Command { Command(h, []) }

  /** The next read result: reading past the scripted outcomes times out. */
  function NextRead(p: seq<ReadOutcome>): ReadOutcome
  {
    if p == [] then Timeout else p[0]
  }

  function AfterRead(p: seq<ReadOutcome>): (r: seq<ReadOutcome>)
    ensures |r| == if p == [] then 0 else |p| - 1
  {
    if p == [] then [] else p[1..]
  }

  /** The first scripted flag of a fault or poll queue; an exhausted queue answers false. */
  predicate FirstSet(f: seq<bool>) { f != [] && f[0] }

  function DropFirst(f: seq<bool>): seq<bool>
  {
    if f == [] then [] else f[1..]
  }

  /** A fault or poll queue after `n` writes or polls. */
  function DropN(f: seq<bool>, n: nat): seq<bool>
  {
    if n == 0 then f else DropN(DropFirst(f), n - 1)
  }

  lemma DropNStep(f: seq<bool>, n: nat)
    ensures DropN(f, n + 1) == DropFirst(DropN(f, n))
    decreases n
  {
    if n > 0 {
      DropNStep(DropFirst(f), n - 1);
    }
  }

  /** Commands logged in three steps are the log of the first followed by the other two. */
  lemma SentAssoc(a: seq<Command>, b: seq<Command>, c: seq<Command>)
    ensures (a + b) + c == a + (b + c)
  {
  }

  /** An exhausted queue stays exhausted. */
  lemma {:induction false} DropNEmpty(n: nat)
    ensures DropN([], n) == []
  {
    if n > 0 {
      DropNEmpty(n - 1);
    }
  }

  /** Stands for the text of whatever VISA exception a failed write or query raises. */
  const VisaFailure: string := "VISA I/O error"

  /** An open VISA session. */
  class Instrument {
    var timeout: int
    var pending: seq<ReadOutcome>
    var faults: seq<bool>
    var written: seq<Command>
    /** The timeout in force at each read so far. */
    var readTimeouts: seq<int>

    constructor (timeout0: int, pending0: seq<ReadOutcome>, faults0: seq<bool>)
      ensures timeout == timeout0 && pending == pending0 && faults == faults0 && written == [] && readTimeouts == []
    {
      readTimeouts := [];
      timeout := timeout0;
      pending := pending0;
      faults := faults0;
      written := [];
    }

    /** `inst.write(c)`: either the command goes out, or a VISA error is raised and nothing is logged. */
    method Write(c: Command) returns (ok: bool)
      modifies this
      ensures ok == !FirstSet(old(faults))
      ensures written == (if ok then old(written) + [c] else old(written))
      ensures faults == DropFirst(old(faults))
      ensures pending == old(pending) && timeout == old(timeout) && readTimeouts == old(readTimeouts)
    {
      ok := !FirstSet(faults);
      if ok {
        written := written + [c];
      }
      faults := DropFirst(faults);
    }

    /** `inst.read()`. */
    method Read() returns (r: ReadOutcome)
      modifies this
      ensures r == NextRead(old(pending))
      ensures pending == AfterRead(old(pending))
      ensures written == old(written) && faults == old(faults) && timeout == old(timeout)
      ensures readTimeouts == old(readTimeouts) + [timeout]
    {
      r := NextRead(pending);
      pending := AfterRead(pending);
      readTimeouts := readTimeouts + [timeout];
    }

    /** `inst.query(c)`: a write followed by a read; a failed write reads nothing. */
    method Query(c: Command) returns (r: ReadOutcome)
      modifies this
      ensures FirstSet(old(faults)) ==>
        r == OtherError && pending == old(pending) && written == old(written) && readTimeouts == old(readTimeouts)
      ensures !FirstSet(old(faults)) ==>
        r == NextRead(old(pending)) && pending == AfterRead(old(pending)) && written == old(written) + [c] &&
        readTimeouts == old(readTimeouts) + [old(timeout)]
      ensures faults == DropFirst(old(faults)) && timeout == old(timeout)
    {
      var ok := Write(c);
      if !ok {
        return OtherError;
      }
      r := Read();
    }

    method SetTimeout(t: int)
      modifies this
      ensures timeout == t
      ensures pending == old(pending) && written == old(written) && faults == old(faults) && readTimeouts == old(readTimeouts)
    {
      timeout := t;
    }
  }

  /** A stop flag polled by a worker; each poll consumes one scripted answer, and polls past the script answer "not set". */
  class StopEvent {
    var polls: seq<bool>

    constructor (polls0: seq<bool>)
      ensures polls == polls0
    {
      polls := polls0;
    }

    method IsSet() returns (b: bool)
      modifies this
      ensures b == FirstSet(old(polls))
      ensures polls == DropFirst(old(polls))
    {
      b := FirstSet(polls);
      polls := DropFirst(polls);
    }
  }
}
