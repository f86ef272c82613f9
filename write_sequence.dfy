/** Ordered write sequences: a list of commands sent one after another,
    stopping at the first write that raises.  Script upload, command recipes
    and the generators' configuration sequences all have this shape. */
module WriteSequence {
  import opened Channel

  /** How many of `cmds` go out before the first faulted write. */
  function Sent(f: seq<bool>, cmds: seq<Command>): (n: nat)
    ensures n <= |cmds|
  {
    if cmds == [] || FirstSet(f) then 0 else 1 + Sent(DropFirst(f), cmds[1..])
  }

  /** The number of writes attempted: all of them, or up to and including the failing one. */
  function Attempted(f: seq<bool>, cmds: seq<Command>): nat
  {
    var n := Sent(f, cmds);
    if n == |cmds| then n else n + 1
  }

  /** Every write before position `Sent` went out. */
  lemma {:induction false} SentPrefixClean(f: seq<bool>, cmds: seq<Command>)
    ensures forall i :: 0 <= i < Sent(f, cmds) ==> !FirstSet(DropN(f, i))
    decreases |cmds|
  {
    if cmds != [] && !FirstSet(f) {
      SentPrefixClean(DropFirst(f), cmds[1..]);
      forall i | 0 <= i < Sent(f, cmds)
        ensures !FirstSet(DropN(f, i))
      {
        if i > 0 {
          assert DropN(f, i) == DropN(DropFirst(f), i - 1);
        }
      }
    }
  }

  /** The write at position `Sent` is the one that failed. */
  lemma {:induction false} SentStopsAtFault(f: seq<bool>, cmds: seq<Command>)
    requires Sent(f, cmds) < |cmds|
    ensures FirstSet(DropN(f, Sent(f, cmds)))
    decreases |cmds|
  {
    if !FirstSet(f) {
      SentStopsAtFault(DropFirst(f), cmds[1..]);
    }
  }

  lemma {:induction false} SentStep(f: seq<bool>, cmds: seq<Command>, i: nat)
    requires i < |cmds| && Sent(f, cmds) >= i && !FirstSet(DropN(f, i))
    ensures Sent(f, cmds) >= i + 1
    decreases i
  {
    if i > 0 {
      SentStep(DropFirst(f), cmds[1..], i - 1);
    }
  }

  lemma {:induction false} SentAt(f: seq<bool>, cmds: seq<Command>, i: nat)
    requires i < |cmds| && Sent(f, cmds) >= i && FirstSet(DropN(f, i))
    ensures Sent(f, cmds) == i
    decreases i
  {
    if i > 0 {
      SentAt(DropFirst(f), cmds[1..], i - 1);
    }
  }

  /** Write `cmds` in order, stopping at the first write that raises. */
  method WriteAll(inst: Instrument, cmds: seq<Command>) returns (ok: bool)
    modifies inst
    ensures ok <==> Sent(old(inst.faults), cmds) == |cmds|
    ensures inst.written == old(inst.written) + cmds[..Sent(old(inst.faults), cmds)]
    ensures inst.faults == DropN(old(inst.faults), Attempted(old(inst.faults), cmds))
    ensures inst.pending == old(inst.pending) && inst.timeout == old(inst.timeout)
    ensures inst.readTimeouts == old(inst.readTimeouts)
  {
    ghost var f0 := inst.faults;
    ghost var w0 := inst.written;
    var i := 0;
    while i < |cmds|
      invariant 0 <= i <= |cmds| && Sent(f0, cmds) >= i
      invariant inst.faults == DropN(f0, i)
      invariant inst.written == w0 + cmds[..i]
      invariant inst.pending == old(inst.pending) && inst.timeout == old(inst.timeout)
      invariant inst.readTimeouts == old(inst.readTimeouts)
    {
      var sent := inst.Write(cmds[i]);
      DropNStep(f0, i);
      if !sent {
        SentAt(f0, cmds, i);
        return false;
      }
      SentStep(f0, cmds, i);
      assert cmds[..i + 1] == cmds[..i] + [cmds[i]];
      i := i + 1;
    }
    assert cmds[..i] == cmds;
    ok := true;
  }

  // ---------------------------------------------------------------- the bus as a value

  /** What an instrument has been sent, and the faults still scripted for its next writes. */
  datatype Bus = Bus(sent: seq<Command>, faults: seq<bool>)

  function BusOf(inst: Instrument): Bus
    reads inst
  {
    Bus(inst.written, inst.faults)
  }

  /** Every one of `cmds` goes out. */
  predicate Clean(f: seq<bool>, cmds: seq<Command>) { Sent(f, cmds) == |cmds| }

  /** The bus after writing `cmds` in order up to the first write that raises. */
  function Put(b: Bus, cmds: seq<Command>): (r: Bus)
    ensures Clean(b.faults, cmds) ==> r.sent == b.sent + cmds
    ensures r.sent == b.sent + cmds[..Sent(b.faults, cmds)]
  {
    Bus(b.sent + cmds[..Sent(b.faults, cmds)], DropN(b.faults, Attempted(b.faults, cmds)))
  }

  /** The log `s` begins with the log `p`. */
  predicate LogPrefix(s: seq<Command>, p: seq<Command>) { |p| <= |s| && s[..|p|] == p }

  /** Writing only ever appends to the log. */
  lemma PutGrows(b: Bus, cmds: seq<Command>)
    ensures LogPrefix(Put(b, cmds).sent, b.sent)
  {
    assert Put(b, cmds).sent[..|b.sent|] == b.sent;
  }

  lemma PrefixTrans(a: seq<Command>, b: seq<Command>, c: seq<Command>)
    requires LogPrefix(b, a) && LogPrefix(c, b)
    ensures LogPrefix(c, a)
  {
    assert c[..|a|] == b[..|a|];
  }

  /** One write: it goes out unless its fault is scripted, and the fault is consumed either way. */
  lemma PutOne(b: Bus, c: Command)
    ensures Put(b, [c]) == Bus(if FirstSet(b.faults) then b.sent else b.sent + [c], DropFirst(b.faults))
  {
    assert Sent(DropFirst(b.faults), [c][1..]) == 0;
    assert DropN(b.faults, 1) == DropN(DropFirst(b.faults), 0);
  }

  /** A first write that raises sends nothing at all. */
  lemma PutBlocked(b: Bus, cmds: seq<Command>)
    requires cmds != [] && FirstSet(b.faults)
    ensures !Clean(b.faults, cmds) && Put(b, cmds) == Bus(b.sent, DropFirst(b.faults))
  {
    assert DropN(b.faults, 1) == DropN(DropFirst(b.faults), 0);
  }

  /** With no fault before them, all of `cmds` go out. */
  lemma {:induction false} PutClear(b: Bus, cmds: seq<Command>)
    requires forall i :: 0 <= i < |cmds| ==> !FirstSet(DropN(b.faults, i))
    ensures Clean(b.faults, cmds)
    decreases |cmds|
  {
    if cmds != [] {
      assert !FirstSet(DropN(b.faults, 0));
      forall i | 0 <= i < |cmds| - 1
        ensures !FirstSet(DropN(DropFirst(b.faults), i))
      {
        assert DropN(b.faults, i + 1) == DropN(DropFirst(b.faults), i);
      }
      PutClear(Bus(b.sent, DropFirst(b.faults)), cmds[1..]);
    }
  }

  lemma {:induction false} DropNAdd(f: seq<bool>, m: nat, n: nat)
    ensures DropN(f, m + n) == DropN(DropN(f, m), n)
    decreases m
  {
    if m > 0 {
      DropNAdd(DropFirst(f), m - 1, n);
    }
  }

  /** The first write of a sequence either fails, or goes out and leaves the rest to the next faults. */
  lemma SentCons(f: seq<bool>, c: Command, cs: seq<Command>)
    ensures Sent(f, [c] + cs) == if FirstSet(f) then 0 else 1 + Sent(DropFirst(f), cs)
  {
    assert ([c] + cs)[1..] == cs;
  }

  /** After a clean `a`, the writes of `c` meet the faults left over. */
  lemma {:induction false} SentAppend(f: seq<bool>, a: seq<Command>, c: seq<Command>)
    requires Clean(f, a)
    ensures Sent(f, a + c) == |a| + Sent(DropN(f, |a|), c)
    decreases |a|
  {
    if a == [] {
      assert a + c == c;
    } else {
      assert (a + c)[1..] == a[1..] + c;
      SentAppend(DropFirst(f), a[1..], c);
    }
  }

  /** Writing `a` cleanly and then `c` is writing `a + c`. */
  lemma PutThen(b: Bus, a: seq<Command>, c: seq<Command>)
    requires Clean(b.faults, a)
    ensures Put(Put(b, a), c) == Put(b, a + c)
    ensures Clean(Put(b, a).faults, c) <==> Clean(b.faults, a + c)
  {
    var g := DropN(b.faults, |a|);
    assert Attempted(b.faults, a) == |a|;
    assert Put(b, a) == Bus(b.sent + a, g);
    SentAppend(b.faults, a, c);
    var n := Sent(g, c);
    assert Attempted(b.faults, a + c) == |a| + Attempted(g, c);
    DropNAdd(b.faults, |a|, Attempted(g, c));
    assert (a + c)[..|a| + n] == a + c[..n];
  }

  /** Once a write of `a` fails, nothing of `c` is attempted. */
  lemma {:induction false} SentBlocked(f: seq<bool>, a: seq<Command>, c: seq<Command>)
    requires !Clean(f, a)
    ensures Sent(f, a + c) == Sent(f, a)
    decreases |a|
  {
    assert a != [];
    if !FirstSet(f) {
      assert (a + c)[1..] == a[1..] + c;
      SentBlocked(DropFirst(f), a[1..], c);
    }
  }

  /** Writing `a` and, after a failure in it, never getting to `c`. */
  lemma PutStops(b: Bus, a: seq<Command>, c: seq<Command>)
    requires !Clean(b.faults, a)
    ensures Put(b, a + c) == Put(b, a) && !Clean(b.faults, a + c)
  {
    SentBlocked(b.faults, a, c);
    var n := Sent(b.faults, a);
    assert (a + c)[..n] == a[..n];
  }

  /** `WriteAll` restated on the bus. */
  method Send(inst: Instrument, cmds: seq<Command>) returns (ok: bool)
    modifies inst
    ensures ok == Clean(old(inst.faults), cmds)
    ensures BusOf(inst) == Put(old(BusOf(inst)), cmds)
    ensures inst.pending == old(inst.pending) && inst.timeout == old(inst.timeout)
    ensures inst.readTimeouts == old(inst.readTimeouts)
  {
    ok := WriteAll(inst, cmds);
  }
}
