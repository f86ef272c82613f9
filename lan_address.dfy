/** The address rewrite of the LAN identification tool: a VISA `TCPIP…INSTR`
    resource is turned into the raw-socket form on port 5025 before `*IDN?` is sent. */
module LanAddress {
  import opened Outcome
  import opened PyText

  const Sep: string := "::"
  const Inst0: string := "::inst0"
  const SocketTail: string := "::5025::SOCKET"

  /** A "::" starts at index `j` of `s`. */
  predicate SepAt(s: string, j: int) { 0 <= j && j + 2 <= |s| && s[j] == ':' && s[j + 1] == ':' }

  predicate ColonFree(s: string) { forall k :: 0 <= k < |s| ==> s[k] != ':' }

  /** Where `s.rsplit("::", 1)` cuts: the start of the right-most "::". */
  function LastSep(s: string): (r: Option<nat>)
    ensures r.Some? ==> SepAt(s, r.value)
    ensures r.Some? ==> forall j :: r.value < j ==> !SepAt(s, j)
    ensures r.None? ==> forall j :: !SepAt(s, j)
    decreases |s|
  {
    if |s| < 2 then None
    else if s[|s| - 2] == ':' && s[|s| - 1] == ':' then Some(|s| - 2)
    else
      var r := LastSep(s[..|s| - 1]);
      assert forall j :: SepAt(s, j) && j + 2 < |s| ==> SepAt(s[..|s| - 1], j);
      r
  }

  /** `s.rsplit("::", 1)[0]`: everything before the last "::", or all of `s` when there is none. */
  function Head(s: string): (r: string)
    ensures |r| <= |s| && r == s[..|r|]
  {
    match LastSep(s)
    case None => s
    case Some(i) => s[..i]
  }

  predicate IsLanInstr(addr: string) { StartsWith(addr, Board) && EndsWith(addr, "INSTR") }

  /** The rewrite inside `send_idn`. */
  function Normalize(addr: string): (r: string)
    ensures IsLanInstr(addr) ==> EndsWith(r, SocketTail)
    ensures IsLanInstr(addr) ==> r == Head(Replace(addr, Inst0, "")) + SocketTail
    ensures !IsLanInstr(addr) ==> r == addr
  {
    if IsLanInstr(addr) then Head(Replace(addr, Inst0, "")) + SocketTail else addr
  }

  /** The resource `send_idn` opens: nothing when no list entry is selected. */
  function IdnTarget(selection: Option<string>): (r: Option<string>)
    ensures r.None? <==> selection.None?
    ensures r.Some? ==> EndsWith(r.value, SocketTail) || r.value == selection.value
  {
    match selection
    case None => None
    case Some(a) => Some(Normalize(a))
  }

  lemma SocketTailNotInstr(h: string)
    ensures !EndsWith(h + SocketTail, "INSTR")
  {
    var s := h + SocketTail;
    assert s[|s| - 1] == 'T';
  }

  /** A rewritten address is left alone by a second rewrite: it ends in "SOCKET", not "INSTR". */
  lemma NormalizeIdempotent(addr: string)
    ensures Normalize(Normalize(addr)) == Normalize(addr)
  {
    if IsLanInstr(addr) {
      SocketTailNotInstr(Head(Replace(addr, Inst0, "")));
    }
  }

  /** A serial or USB resource passes through untouched. */
  lemma NonLanUnchanged(addr: string)
    requires !StartsWith(addr, "TCPIP")
    ensures Normalize(addr) == addr
  {
  }

  // ---------------------------------------------------------------- the LAN rewrite on a typical address

  /** "::inst0" starts `s`, compared character by character. */
  predicate Inst0At(s: string)
  {
    |s| >= |Inst0| && forall k :: 0 <= k < |Inst0| ==> s[k] == Inst0[k]
  }

  lemma Inst0AtIff(s: string)
    requires |s| >= |Inst0|
    ensures Inst0At(s) <==> s[..|Inst0|] == Inst0
  {
    if s[..|Inst0|] == Inst0 {
      assert forall k :: 0 <= k < |Inst0| ==> s[k] == s[..|Inst0|][k];
    }
  }

  lemma Inst0Letters()
    ensures forall k :: 2 <= k < |Inst0| ==> Inst0[k] != ':'
    ensures Inst0[0] == ':' && Inst0[1] == ':'
  {
  }

  /** `s.replace("::inst0", "")`, restated with character tests. */
  function DropInst0(s: string): string
    decreases |s|
  {
    if |s| < 7 then s
    else if Inst0At(s) then DropInst0(s[7..])
    else [s[0]] + DropInst0(s[1..])
  }

  lemma {:induction false} DropInst0IsReplace(s: string)
    ensures DropInst0(s) == Replace(s, Inst0, "")
    decreases |s|
  {
    if |s| >= 7 {
      Inst0AtIff(s);
      if Inst0At(s) {
        DropInst0IsReplace(s[7..]);
      } else {
        DropInst0IsReplace(s[1..]);
      }
    }
  }

  /** Text without a colon is copied by the replace. */
  lemma {:induction false} DropColonFree(a: string, b: string)
    requires ColonFree(a)
    ensures DropInst0(a + b) == a + DropInst0(b)
    decreases |a|
  {
    if a != [] {
      var s := a + b;
      assert s[1..] == a[1..] + b;
      assert s[0] == a[0];
      DropColonFree(a[1..], b);
      assert [a[0]] + a[1..] == a;
    } else {
      assert a + b == b;
    }
  }

  lemma DropTail()
    ensures DropInst0("::inst0::INSTR") == "::INSTR"
  {
    var t := "::inst0::INSTR";
    assert Inst0At(t);
    assert t[7..] == "::INSTR";
    var u := "::INSTR";
    assert u[2] != Inst0[2];
    assert !Inst0At(u);
    assert u[1..] == ":INSTR";
  }

  /** "::" and a host name that does not start with "inst0", then a field starting with "::". */
  /** The first ':' of the "::" before the host does not start "::inst0". */
  lemma DropFirstColon(host: string, t: string)
    requires ColonFree(host) && !StartsWith(host, "inst0")
    requires |t| >= 7 && t[0] == ':' && t[1] == ':'
    ensures DropInst0(Sep + host + t) == [':'] + DropInst0([':'] + (host + t))
  {
    FirstColonNotInst0(host, t);
    SepConcat(host, t);
    DropHead(':', [':'] + (host + t));
  }

  /** Where "::inst0" does not start the text, its first character is kept. */
  lemma DropHead(c: char, x: string)
    requires |x| >= 6 && !Inst0At([c] + x)
    ensures DropInst0([c] + x) == [c] + DropInst0(x)
  {
    assert ([c] + x)[1..] == x;
  }

  lemma FirstColonNotInst0(host: string, t: string)
    requires ColonFree(host) && !StartsWith(host, "inst0")
    requires |t| >= 7 && t[0] == ':' && t[1] == ':'
    ensures !Inst0At(Sep + host + t)
  {
    var m := Sep + host + t;
    Inst0Letters();
    if |host| >= 5 {
      assert host[..5] != "inst0";
      var k :| 0 <= k < 5 && host[..5][k] != "inst0"[k];
      assert m[2 + k] == host[k];
      assert Inst0[2 + k] == "inst0"[k];
    } else {
      assert m[2 + |host|] == ':';
    }
  }

  /** Nor does the second one. */
  lemma DropSecondColon(host: string, t: string)
    requires ColonFree(host) && |t| >= 7 && t[0] == ':' && t[1] == ':'
    ensures DropInst0([':'] + (host + t)) == [':'] + DropInst0(host + t)
  {
    var x := [':'] + (host + t);
    assert x[1..] == host + t;
    Inst0Letters();
    if host == [] {
      assert x[2] == t[1];
    } else {
      assert x[1] == host[0];
    }
    assert !Inst0At(x);
  }

  /** "::" and a host name that does not start with "inst0", then a field starting with "::". */
  lemma DropAfterHost(host: string, t: string)
    requires ColonFree(host) && !StartsWith(host, "inst0")
    requires |t| >= 7 && t[0] == ':' && t[1] == ':'
    ensures DropInst0(Sep + host + t) == Sep + host + DropInst0(t)
  {
    DropFirstColon(host, t);
    DropSecondColon(host, t);
    DropColonFree(host, t);
    SepConcat(host, DropInst0(t));
  }

  lemma SepConcat(h: string, x: string)
    ensures Sep + h + x == [':'] + ([':'] + (h + x))
  {
  }

  const Board: string := "TCPIP"
  const InstTail: string := "::inst0::INSTR"
  const InstrTail: string := "::INSTR"

  lemma TailFacts()
    ensures |InstTail| >= 7 && InstTail[0] == ':' && InstTail[1] == ':'
    ensures DropInst0(InstTail) == InstrTail
    ensures InstrTail == Sep + "INSTR"
  {
    DropTail();
  }

  lemma BoardColonFree()
    ensures ColonFree(Board)
  {
    var b := Board;
    assert b[0] == 'T' && b[1] == 'C' && b[2] == 'P' && b[3] == 'I' && b[4] == 'P';
  }

  lemma InstrColonFree()
    ensures ColonFree("INSTR")
  {
    var b := "INSTR";
    assert b[0] == 'I' && b[1] == 'N' && b[2] == 'S' && b[3] == 'T' && b[4] == 'R';
  }

  lemma Assoc4(a: string, b: string, c: string, d: string)
    ensures a + b + c + d == a + (b + c + d)
  {
  }

  lemma ColonFreeConcat(a: string, b: string)
    requires ColonFree(a) && ColonFree(b)
    ensures ColonFree(a + b)
  {
    assert forall k :: 0 <= k < |a + b| ==> (a + b)[k] == (if k < |a| then a[k] else b[k - |a|]);
  }

  /** The replace keeps everything but the "::inst0" field. */
  lemma DropLan(board: string, host: string)
    requires ColonFree(board) && ColonFree(host) && !StartsWith(host, "inst0")
    ensures Replace(Board + board + Sep + host + InstTail, Inst0, "") == (Board + board + Sep + host) + InstrTail
  {
    var pre := Board + board;
    TailFacts();
    BoardColonFree();
    ColonFreeConcat(Board, board);
    Assoc4(pre, Sep, host, InstTail);
    DropColonFree(pre, Sep + host + InstTail);
    DropAfterHost(host, InstTail);
    DropInst0IsReplace(Board + board + Sep + host + InstTail);
    Assoc4(pre, Sep, host, InstrTail);
  }

  /** `rsplit("::", 1)` cuts before a colon-free last field. */
  lemma {:induction false} LastSepBefore(x: string, y: string)
    requires ColonFree(y)
    ensures LastSep(x + Sep + y) == Some(|x|)
    decreases |y|
  {
    var s := x + Sep + y;
    if y != [] {
      assert s[|s| - 1] == y[|y| - 1];
      assert s[..|s| - 1] == x + Sep + y[..|y| - 1];
      LastSepBefore(x, y[..|y| - 1]);
    }
  }

  lemma HeadLan(front: string)
    ensures Head(front + InstrTail) == front
  {
    TailFacts();
    InstrColonFree();
    assert front + InstrTail == front + Sep + "INSTR";
    LastSepBefore(front, "INSTR");
  }

  lemma LanShape(board: string, host: string)
    ensures IsLanInstr(Board + board + Sep + host + InstTail)
  {
    var addr := Board + board + Sep + host + InstTail;
    assert addr[..5] == Board;
    assert addr[|addr| - 5..] == InstTail[9..];
  }

  /** On a typical LAN resource `TCPIP<board>::<host>::inst0::INSTR` the `inst0` field
      vanishes and `INSTR` becomes the socket port 5025. */
  lemma NormalizeLan(board: string, host: string)
    requires ColonFree(board) && ColonFree(host) && !StartsWith(host, "inst0")
    ensures Normalize(Board + board + Sep + host + InstTail) == Board + board + Sep + host + SocketTail
  {
    LanShape(board, host);
    DropLan(board, host);
    HeadLan(Board + board + Sep + host);
  }
}
