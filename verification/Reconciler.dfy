/** The reconciliation loop, on the in-memory kernel and on any other backend. */
module Reconciler {
  import opened Basics
  import opened Model
  import opened Kernel
  import opened Deletion
  import FakeNet
  import opened Planner
  import opened PlanLoops
  import opened Matching
  import opened Invariant
  import opened Opening
  import opened Round
  import opened Convergence

  /** The links that shall be up whatever the configuration, collected in a loop. */
  method PlatformLinks(s: State) returns (wanted: set<Name>)
    ensures wanted == Platform(s)
  {
    wanted := {LO};
    var todo := s.links.Keys;
    while todo != {}
      invariant todo <= s.links.Keys
      invariant forall c ::
                c in wanted <==> c == LO || exists n :: n in s.links && n !in todo && s.links[n].kind == Dsa(Some(c))
      decreases todo
    {
      var n :| n in todo;
      todo := todo - {n};
      match s.links[n].kind {
        case Dsa(Some(c)) =>
          wanted := wanted + {c};
          assert s.links[n].kind == Dsa(Some(c));
        case _ =>
      }
    }
  }

  method PlatformInPlace(s: State) returns (ops: seq<Op>)
    ensures ops == PlatformOps(s)
  {
    var wanted := PlatformLinks(s);
    var names := Names(wanted);
    ops := [];
    for i := 0 to |names|
      invariant ops == Flat(names[..i], PutUp(s))
    {
      FlatStep(names, i, PutUp(s));
      if names[i] in s.links && !s.links[names[i]].up { ops := ops + [SetUp(names[i], true)]; }
    }
    assert names[..|names|] == names;
  }

  method ApplyAll(net: FakeNet.FakeNet, ops: seq<Op>) returns (error: Option<Error>)
    modifies net
    ensures Outcome(net.state, error) == Run(old(net.state), ops)
  {
    for i := 0 to |ops|
      invariant Run(old(net.state), ops) == Run(net.state, ops[i..])
    {
      assert ops[i..][1..] == ops[i + 1..];
      error := net.Apply(ops[i]);
      if error.Some? { return error; }
    }
    return None;
  }

  /** How a round leaves the kernel, and what it returns: the operations it applied. */
  ghost predicate Took(t: Turn, before: State, after: State, r: Result<seq<Op>, Failure>) {
    match t
    case Settled => r == Ok([]) && after == before
    case Worked(ops, next) => r == Ok(ops) && ops != [] && after == next
    case Failed(left, failure) => r == Err(failure) && after == left
  }

  /** `turn` is a round for `d`. */
  ghost predicate IsTurn(turn: State -> Turn, d: Desired) {
    forall s {:trigger TurnOf(d, s)} :: turn(s) == TurnOf(d, s)
  }

  /** One round on the in-memory kernel. */
  method TakeTurn(net: FakeNet.FakeNet, d: Desired, ghost turn: State -> Turn) returns (r: Result<seq<Op>, Failure>)
    requires IsTurn(turn, d)
    modifies net
    ensures Took(turn(old(net.state)), old(net.state), net.state, r)
  {
    var s := net.Observe();
    assert turn(s) == TurnOf(d, s);
    var platform := PlatformInPlace(s);
    var plan := PlanInPlace(d, s);
    if plan.Err? { return Err(PlanFailed(plan.error)); }
    var ops := platform + plan.value;
    if ops == [] { return Ok([]); }
    var error := ApplyAll(net, ops);
    if error.Some? { return Err(Refused(error.value)); }
    return Ok(ops);
  }

  method TakeTurns(net: FakeNet.FakeNet, d: Desired, ghost turn: State -> Turn) returns (r: Result<seq<Op>, Failure>)
    requires IsTurn(turn, d)
    modifies net
    ensures Done(net.state, r) == Rounds(turn, old(net.state), MAX_ROUNDS, [])
  {
    var applied := [];
    for i := 0 to MAX_ROUNDS
      invariant Rounds(turn, old(net.state), MAX_ROUNDS, []) == Rounds(turn, net.state, MAX_ROUNDS - i, applied)
    {
      var ops := TakeTurn(net, d, turn);
      if ops.Err? { return ops; }
      if ops.value == [] { return Ok(applied); }
      applied := applied + ops.value;
    }
    return Err(NoConvergence);
  }

  /** `reconcile` on the in-memory kernel. */
  method ReconcileFake(net: FakeNet.FakeNet, d: Desired) returns (r: Result<seq<Op>, Failure>)
    modifies net
    ensures Done(net.state, r) == Reconcile(d, old(net.state))
  {
    r := TakeTurns(net, d, Turns(d));
  }

  // ----- any backend -----

  /** A backend of which nothing is known: what it reports in each round, and which operations it refuses. */
  datatype Backend = Backend(observe: nat -> Result<State, Error>, refuse: nat -> nat -> Option<Error>)

  /** How many of `n` operations are accepted before the first refusal. */
  function AcceptedOf(refuse: nat -> Option<Error>, n: nat): (k: nat)
    ensures k <= n && (forall j :: 0 <= j < k ==> refuse(j).None?) && (k < n ==> refuse(k).Some?)
  {
    if n == 0 then 0 else
      var k := AcceptedOf(refuse, n - 1);
      if k < n - 1 || refuse(n - 1).Some? then k else n
  }

  /** Round `i` on a backend: the operations it took, or why the run ends. */
  function AnyTurn(d: Desired, b: Backend, i: nat): Result<seq<Op>, Failure> {
    match b.observe(i)
    case Err(e) => Err(Refused(e))
    case Ok(s) =>
      match Plan(d, s)
      case Err(e) => Err(PlanFailed(e))
      case Ok(plan) =>
        var ops := PlatformOps(s) + plan;
        var k := AcceptedOf(b.refuse(i), |ops|);
        if k < |ops| then Err(Refused(b.refuse(i)(k).value)) else Ok(ops)
  }

  /** The operations that round `i` applied before one was refused. */
  function PartOf(d: Desired, b: Backend, i: nat): seq<Op> {
    match b.observe(i)
    case Err(_) => []
    case Ok(s) =>
      if Plan(d, s).Err? then [] else
        var ops := PlatformOps(s) + Plan(d, s).value;
        ops[..AcceptedOf(b.refuse(i), |ops|)]
  }

  function AnyTurns(d: Desired, b: Backend): nat -> Result<seq<Op>, Failure> { (i: nat) => AnyTurn(d, b, i) }

  function Joined(rounds: seq<seq<Op>>): seq<Op> {
    if rounds == [] then [] else Joined(rounds[..|rounds| - 1]) + rounds[|rounds| - 1]
  }

  /** The loop of `reconcile`, whatever a round does. */
  method Drive(turn: nat -> Result<seq<Op>, Failure>) returns (r: Result<seq<Op>, Failure>, rounds: seq<seq<Op>>)
    ensures |rounds| <= MAX_ROUNDS && forall i :: 0 <= i < |rounds| ==> turn(i) == Ok(rounds[i]) && rounds[i] != []
    ensures r.Ok? ==> |rounds| < MAX_ROUNDS && turn(|rounds|) == Ok([]) && r.value == Joined(rounds)
    ensures r.Err? ==>
            (|rounds| < MAX_ROUNDS && turn(|rounds|) == r) || (|rounds| == MAX_ROUNDS && r.error == NoConvergence)
  {
    rounds := [];
    var applied := [];
    for i := 0 to MAX_ROUNDS
      invariant |rounds| == i && applied == Joined(rounds)
      invariant forall j :: 0 <= j < i ==> turn(j) == Ok(rounds[j]) && rounds[j] != []
    {
      var ops := turn(i);
      if ops.Err? { return ops, rounds; }
      if ops.value == [] { return Ok(applied), rounds; }
      assert (rounds + [ops.value])[..i] == rounds;
      rounds := rounds + [ops.value];
      applied := applied + ops.value;
    }
    return Err(NoConvergence), rounds;
  }

  lemma TurnOps(d: Desired, b: Backend, i: nat)
    requires AnyTurns(d, b)(i).Ok?
    ensures b.observe(i).Ok? && Plan(d, b.observe(i).value).Ok?
            && AnyTurns(d, b)(i).value == PlatformOps(b.observe(i).value) + Plan(d, b.observe(i).value).value
  {
  }

  /**
   * A round that took operations took exactly the planned ones, and it took none exactly if the
   * observed state matches.
   */
  lemma TurnSound(d: Desired, b: Backend, i: nat)
    requires AnyTurns(d, b)(i).Ok?
    ensures b.observe(i).Ok?
    ensures AnyTurns(d, b)(i).value == RoundOps(d, b.observe(i).value)
    ensures AnyTurns(d, b)(i).value == [] <==> Matches(d, b.observe(i).value)
  {
    TurnOps(d, b, i);
    PlannedSound(d, b.observe(i).value, AnyTurns(d, b)(i).value);
  }

  lemma PlannedSound(d: Desired, s: State, ops: seq<Op>)
    requires Plan(d, s).Ok? && ops == PlatformOps(s) + Plan(d, s).value
    ensures ops == RoundOps(d, s) && (ops == [] <==> Matches(d, s))
  {
    NothingToDo(d, s);
  }

  /**
   * A run of `reconcile` on a backend: `rounds` that took every planned operation, and then either
   * nothing left to do, or a round that failed after taking `part` of its operations, or too many rounds.
   */
  ghost predicate RanOn(d: Desired, b: Backend, ok: bool, rounds: seq<seq<Op>>, part: seq<Op>) {
    && |rounds| <= MAX_ROUNDS
    && (forall i :: 0 <= i < |rounds| ==>
          b.observe(i).Ok? && rounds[i] == RoundOps(d, b.observe(i).value) && rounds[i] != [])
    && (ok ==> |rounds| < MAX_ROUNDS && part == [] && b.observe(|rounds|).Ok? && Matches(d, b.observe(|rounds|).value))
    && (!ok && |rounds| < MAX_ROUNDS ==> part == PartOf(d, b, |rounds|) && AnyTurn(d, b, |rounds|).Err?)
    && (!ok && |rounds| == MAX_ROUNDS ==> part == [])
    && (part == [] || (b.observe(|rounds|).Ok? && part <= RoundOps(d, b.observe(|rounds|).value)))
  }

  /**
   * `reconcile` on any backend: if it returns Ok, the state observed last matches, and the
   * operations applied are the planned ones.
   */
  method ReconcileAny(d: Desired, b: Backend) returns (r: Result<seq<Op>, Failure>, rounds: seq<seq<Op>>, part: seq<Op>)
    ensures RanOn(d, b, r.Ok?, rounds, part)
    ensures r.Ok? ==> r.value == Joined(rounds)
  {
    r, rounds := Drive(AnyTurns(d, b));
    forall i | 0 <= i < |rounds| ensures b.observe(i).Ok? && rounds[i] == RoundOps(d, b.observe(i).value)
    {
      TurnSound(d, b, i);
    }
    part := if r.Err? && |rounds| < MAX_ROUNDS then PartOf(d, b, |rounds|) else [];
    PartPlanned(d, b, |rounds|);
    if r.Ok? { TurnSound(d, b, |rounds|); }
  }

  /** What a failing round took is the beginning of its plan. */
  lemma PartPlanned(d: Desired, b: Backend, i: nat)
    ensures PartOf(d, b, i) == [] || (b.observe(i).Ok? && PartOf(d, b, i) <= RoundOps(d, b.observe(i).value))
  {
  }

  /** A disabled SVI named like loopback or a conduit is put up and down in turn: no run ends Ok. */
  lemma NeverSettles(d: Desired, b: Backend, n: Name, rounds: seq<seq<Op>>, part: seq<Op>)
    requires n in d.svis && !d.svis[n].enabled
    requires forall i: nat :: b.observe(i).Ok? ==> n in Platform(b.observe(i).value)
    ensures !RanOn(d, b, true, rounds, part)
  {
    if b.observe(|rounds|).Ok? { NeverMatches(d, b.observe(|rounds|).value, n); }
  }

  lemma NeverMatches(d: Desired, s: State, n: Name)
    requires n in d.svis && !d.svis[n].enabled && n in Platform(s)
    ensures !Matches(d, s)
  {
  }
}
