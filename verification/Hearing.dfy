/** What mstpd loses when the kernel changes under it. */
module Hearing {
  import opened Basics
  import opened Model
  import opened Kernel
  import opened Mstpctl
  import opened Daemon
  import opened Updates
  import opened Delta
  import opened Trees

  predicate About(k: Key, port: Name) { (k.PortKey? || k.TreePortKey?) && k.port == port }

  function WithoutPort(m: DaemonState, port: Name): DaemonState {
    m.(settings := map k | k in m.settings && !About(k, port) :: m.settings[k])
  }

  /** A bridge that goes and a new one have no settings, and a port that joins or leaves loses its own. */
  function Hear(m: DaemonState, op: Op): DaemonState {
    match op
    case CreateBridge(_) => FRESH
    case DeleteLink(n) => if n == BR then FRESH else m
    case SetMaster(port, _) => WithoutPort(m, port)
    case _ => m
  }

  function HearAll(m: DaemonState, ops: seq<Op>): DaemonState
    decreases |ops|
  {
    if ops == [] then m else HearAll(Hear(m, ops[0]), ops[1..])
  }

  /** The operations after which all commands are sent again. */
  predicate Forgetful(op: Op) { op.CreateBridge? || (op.SetMaster? && op.master.Some?) }

  predicate Resend(ops: seq<Op>) { exists op :: op in ops && Forgetful(op) }

  /** No port of `ports` leaves, and the bridge goes only to be created anew. */
  ghost predicate LeavesOnly(ops: seq<Op>, ports: set<Name>) {
    && (forall op :: op in ops && op.SetMaster? && op.master.None? ==> op.name !in ports)
    && (DeleteLink(BR) in ops ==> Resend(ops))
  }

  lemma {:induction false} HearFit(m: DaemonState, ops: seq<Op>)
    requires Fit(m)
    ensures Fit(HearAll(m, ops))
    decreases ops
  {
    if ops != [] { HearFit(Hear(m, ops[0]), ops[1..]); }
  }

  /** The bridge went or was created anew, or one of `ports` joined or left it. */
  ghost predicate Disturbed(ops: seq<Op>, ports: set<Name>) { exists op :: op in ops && Disturbs(op, ports) }

  predicate Disturbs(op: Op, ports: set<Name>) {
    op.CreateBridge? || op == DeleteLink(BR) || (op.SetMaster? && op.name in ports)
  }

  /** Otherwise only settings of other ports are lost. */
  lemma {:induction false} HearLittle(m: DaemonState, ops: seq<Op>, ports: set<Name>, k: Key)
    requires !Disturbed(ops, ports)
    ensures var h := HearAll(m, ops);
            && h == m.(settings := h.settings)
            && ((forall p :: About(k, p) ==> p in ports) && k in m.settings ==>
               k in h.settings && h.settings[k] == m.settings[k])
    decreases ops
  {
    if ops != [] {
      assert ops[0] in ops;
      assert forall op :: op in ops[1..] ==> op in ops;
      HearLittle(Hear(m, ops[0]), ops[1..], ports, k);
    }
  }

  /** Every setting a command makes is about a port of the configuration, or about no port. */
  lemma CommandPorts(t: SpanningTree, mac: string, c: Cmd)
    requires Uniform(t) && c in Commands(t, mac) && KeyOf(c).Some?
    ensures forall p :: About(KeyOf(c).value, p) ==> p in t.ports
  {
    var kind := KindOf(t, mac, c);
    assert kind == 0;
    AskedPorts(t, mac, c);
  }

  lemma AskedPorts(t: SpanningTree, mac: string, c: Cmd)
    requires Uniform(t) && Asks(t, mac, c)
    ensures forall p :: About(KeyOf(c).value, p) ==> p in t.ports
  {
  }

  lemma StillHolds(m: DaemonState, ops: seq<Op>, t: SpanningTree, mac: string, c: Cmd)
    requires Uniform(t) && !Disturbed(ops, t.ports.Keys) && c in Commands(t, mac) && Holds(m, c)
    ensures Holds(HearAll(m, ops), c)
  {
    if KeyOf(c).Some? {
      CommandPorts(t, mac, c);
      HearLittle(m, ops, t.ports.Keys, KeyOf(c).value);
    } else {
      HearLittle(m, ops, t.ports.Keys, BridgeKey(0));
    }
  }

  lemma LeftOutHolds(m: DaemonState, a: Applied, ops: seq<Op>, t: SpanningTree, mac: string, next: seq<Cmd>)
    requires Current(m, Some(a)) && Uniform(t) && !Disturbed(ops, t.ports.Keys) && next == Commands(t, mac)
    ensures forall c :: LeftOut(a, next, c) ==> Holds(HearAll(m, ops), c)
  {
    forall c | LeftOut(a, next, c) ensures Holds(HearAll(m, ops), c) { StillHolds(m, ops, t, mac, c); }
  }

  /** Unless all commands are to be sent again, the daemon has what the next change relies on. */
  lemma HeardReady(m: DaemonState, previous: Option<Applied>, ops: seq<Op>, t: SpanningTree, mac: string)
    requires Fit(m) && (previous.Some? ==> Current(m, previous)) && Uniform(t) && LeavesOnly(ops, t.ports.Keys)
    ensures Prepared(HearAll(m, ops), if Resend(ops) then None else previous, Commands(t, mac))
  {
    HearFit(m, ops);
    if !Resend(ops) && previous.Some? {
      assert !Disturbed(ops, t.ports.Keys);
      HearLittle(m, ops, t.ports.Keys, BridgeKey(0));
      LeftOutHolds(m, previous.value, ops, t, mac, Commands(t, mac));
    }
  }

  /** An accepted command keeps the daemon fit if it sets no longer forward delay than allowed. */
  lemma ExecKeepsFit(m: DaemonState, c: Cmd)
    requires Fit(m) && Exec(m, c).Some? && (c.SetFdelay? ==> c.secs <= MAX_FORWARD_DELAY)
    ensures Fit(Exec(m, c).value)
  {
    ExecKeepsCoherent(m, c);
  }

  lemma ChangedMild(previous: Option<Applied>, t: SpanningTree, mac: string, c: Cmd)
    requires Valid(t) && c in Changed(previous, Commands(t, mac), t)
    ensures c.SetFdelay? ==> c.secs <= MAX_FORWARD_DELAY
  {
    var next := Commands(t, mac);
    var gone := Numbers(Gone(previous, t));
    FlatIn(next, Emit(Ran(previous), TimersChanged(Ran(previous), next), gone), c);
    FlatIn(gone, Mstpctl.Delete(), c);
    if c.SetFdelay? {
      assert c in next;
      TimersIn(t, mac, c);
    }
  }

  // ----- operations nobody told the manager about -----

  lemma {:induction false} HearShrinks(m: DaemonState, ops: seq<Op>, k: Key)
    requires k !in m.settings
    ensures k !in HearAll(m, ops).settings
    decreases ops
  {
    if ops != [] { HearShrinks(Hear(m, ops[0]), ops[1..], k); }
  }

  lemma {:induction false} HearLoses(m: DaemonState, ops: seq<Op>, op: Op, k: Key)
    requires op in ops && (op.CreateBridge? || op == DeleteLink(BR) || (op.SetMaster? && About(k, op.name)))
    ensures k !in HearAll(m, ops).settings
    decreases ops
  {
    if ops[0] == op {
      HearShrinks(Hear(m, op), ops[1..], k);
    } else {
      HearLoses(Hear(m, ops[0]), ops[1..], op, k);
    }
  }

  lemma AskedIsRun(t: SpanningTree, mac: string, c: Cmd)
    requires Asks(t, mac, c) && !c.SetBridge?
    ensures c in Commands(t, mac)
  {
    LastAsks(t, mac, c);
  }

  /** A command that operations on the bridge or a recorded port undo, whatever the bridge's MAC address. */
  lemma LostCommand(m: DaemonState, t: SpanningTree, ops: seq<Op>) returns (c: Cmd)
    requires Disturbed(ops, t.ports.Keys)
    ensures KeyOf(c).Some? && !IsTimer(c) && KeyOf(c).value !in HearAll(m, ops).settings
    ensures forall mac :: c in Commands(t, mac)
  {
    var op :| op in ops && Disturbs(op, t.ports.Keys);
    if !op.SetMaster? {
      c := SetBridge(ForceVers(t.protocol));
      forall mac ensures c in Commands(t, mac) { assert Commands(t, mac)[0] == c; }
    } else {
      c := SetPort(op.name, PathCost(CistCost(t, op.name)));
      forall mac ensures c in Commands(t, mac) { AskedIsRun(t, mac, c); }
    }
    HearLoses(m, ops, op, KeyOf(c).value);
  }

  lemma DisturbedStale(m: DaemonState, t: SpanningTree, mac: string, ops: seq<Op>)
    requires Disturbed(ops, t.ports.Keys)
    ensures !Remembers(HearAll(m, ops), Elems(Commands(t, mac)))
  {
    var c := LostCommand(m, t, ops);
    assert c in Elems(Commands(t, mac)) && !Holds(HearAll(m, ops), c);
  }

  /** The record outlives operations exactly if they left the bridge and its recorded ports alone. */
  lemma StaleExactly(m: DaemonState, a: Applied, ops: seq<Op>)
    requires Uniform(a.stp) && Current(m, Some(a))
    ensures Current(HearAll(m, ops), Some(a)) <==> !Disturbed(ops, a.stp.ports.Keys)
  {
    var mac :| a.commands == Commands(a.stp, mac);
    if Disturbed(ops, a.stp.ports.Keys) {
      DisturbedStale(m, a.stp, mac, ops);
    } else {
      HearFit(m, ops);
      HearLittle(m, ops, a.stp.ports.Keys, BridgeKey(0));
      forall c | c in Elems(a.commands) ensures Holds(HearAll(m, ops), c) { StillHolds(m, ops, a.stp, mac, c); }
    }
  }
}
