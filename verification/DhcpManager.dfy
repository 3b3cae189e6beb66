/** The DHCP client of the one SVI that wants it (crates/switch-net/src/dhcp.rs). */
module DhcpManager {
  import opened Basics
  import opened Kernel
  import opened Processes

  datatype Event =
    | Started(interface: Name, pid: nat)
    | Stopped(interface: Name, pid: nat)
    | Exited(interface: Name, pid: nat)

  datatype Client = Client(interface: Name, pid: nat)

  /** What befalls the clients, in order: an event of theirs, or operations on the kernel. */
  datatype Act = Did(event: Event) | Reconciled(ops: seq<Op>)

  function Dids(events: seq<Event>): seq<Act> { seq(|events|, i requires 0 <= i < |events| => Did(events[i])) }

  predicate Restarted(events: seq<Event>) { exists e :: e in events && e.Started? }

  /** The link of `n` goes, or was gone and is created anew. */
  predicate Unlinks(op: Op, n: Name) {
    op == DeleteLink(n) || op == DeleteLink(BR) || (op.CreateVlan? && op.name == n)
  }

  ghost predicate Unlinked(ops: seq<Op>, n: Name) { exists op :: op in ops && Unlinks(op, n) }

  class DhcpClients {
    const processes: Processes
    var client: Option<Client>

    /** The client on record was started on the link that its interface has now. */
    ghost var bound: bool
    ghost var trace: seq<Act>

    /** Every client alive is on record. */
    ghost predicate Inv()
      reads this, processes
    {
      processes.live <= (if client.Some? then {client.value.pid} else {})
    }

    constructor (p: Processes)
      requires p.live == {}
      ensures processes == p && client.None? && Inv() && trace == []
    {
      processes, client, bound, trace := p, None, false, [];
    }

    /** The kernel was changed by `ops`. */
    ghost method Notice(ops: seq<Op>)
      modifies `bound, `trace
      ensures bound == (old(bound) && client.Some? && !Unlinked(ops, client.value.interface))
      ensures trace == old(trace) + [Reconciled(ops)]
    {
      bound := bound && client.Some? && !Unlinked(ops, client.value.interface);
      trace := trace + [Reconciled(ops)];
    }

    /** `stop_unwanted`: keeps the client only if it runs on `wanted`, and then as it is. */
    method StopUnwanted(wanted: Option<Name>) returns (events: seq<Event>)
      requires Inv()
      modifies this, processes
      ensures Inv() && processes.live <= old(processes.live) && bound == old(bound)
      ensures trace == old(trace) + Dids(events) && !Restarted(events)
      ensures client.Some? ==> client == old(client) && wanted == Some(client.value.interface) && events == []
      ensures client.None? && old(client).Some? ==>
                processes.live == {} &&
                var c := old(client).value;
                events == [Exited(c.interface, c.pid)] ||
                (events == [Stopped(c.interface, c.pid)] && wanted != Some(c.interface))
      ensures old(client).None? ==> client.None? && events == []
    {
      events := [];
      var taken := client;
      client := None;
      if taken.Some? {
        var c := taken.value;
        var running := processes.Running(c.pid);
        if !running {
          events := [Exited(c.interface, c.pid)];
        } else if wanted == Some(c.interface) {
          client := taken;
        } else {
          processes.Stop(c.pid);
          events := [Stopped(c.interface, c.pid)];
        }
      }
      trace := trace + Dids(events);
    }

    /** `sync`: afterwards the client runs on `wanted` and nowhere else, and was started anew if its link was. */
    method Sync(wanted: Option<Name>, relinked: bool) returns (r: Result<seq<Event>, ()>, ghost done: seq<Event>)
      requires Inv()
      modifies this, processes
      ensures Inv() && trace == old(trace) + Dids(done) && (r.Ok? ==> r.value == done)
      ensures r.Ok? ==> (client.Some? <==> wanted.Some?) && (client.Some? ==> client.value.interface == wanted.value)
      ensures r.Err? ==> wanted.Some? && client.None? && !Restarted(done)
      ensures client.Some? && Restarted(done) ==> bound
      ensures client.Some? && !Restarted(done) ==> client == old(client) && bound == old(bound) && !relinked
      ensures client.None? ==> !Restarted(done)
      ensures r.Ok? && client.Some? && (relinked || client != old(client)) ==>
              Started(client.value.interface, client.value.pid) in r.value
      ensures r.Ok? && !relinked && old(client).Some? && client != old(client)
              && wanted == Some(old(client).value.interface) ==>
                Exited(old(client).value.interface, old(client).value.pid) in r.value
    {
      var events := StopUnwanted(wanted);
      if relinked && client.Some? {
        var c := client.value;
        client := None;
        processes.Stop(c.pid);
        events := events + [Stopped(c.interface, c.pid)];
        trace := trace + [Did(Stopped(c.interface, c.pid))];
      }
      done := events;
      if wanted.Some? && client.None? {
        var pid := processes.Spawn();
        if pid.None? { return Err(()), done; }
        client, bound := Some(Client(wanted.value, pid.value)), true;
        events := events + [Started(wanted.value, pid.value)];
        trace := trace + [Did(Started(wanted.value, pid.value))];
        done := events;
        assert Started(wanted.value, pid.value) in done;
      }
      return Ok(events), done;
    }
  }

  datatype Call = CallStopUnwanted(wanted: Option<Name>) | CallSync(wanted: Option<Name>, relinked: bool)

  /** Any calls in any order: no client is ever lost from the record. */
  method AnyCalls(clients: DhcpClients, calls: seq<Call>)
    requires clients.Inv()
    modifies clients, clients.processes
    ensures clients.Inv()
    ensures calls != [] && clients.client.Some? ==> calls[|calls| - 1].wanted == Some(clients.client.value.interface)
  {
    for i := 0 to |calls|
      invariant clients.Inv()
      invariant i > 0 && clients.client.Some? ==> calls[i - 1].wanted == Some(clients.client.value.interface)
    {
      match calls[i] {
        case CallStopUnwanted(wanted) => var _ := clients.StopUnwanted(wanted);
        case CallSync(wanted, relinked) => var _, _ := clients.Sync(wanted, relinked);
      }
    }
  }
}
