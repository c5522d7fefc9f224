/** What the wrapping counter leads to: a run in which a publish displaces another one that is still
in flight. */
module IdReuse {
  import opened Wrappers
  import opened ByteIo
  import opened Packets
  import opened Subscriptions
  import opened Protocol
  import opened Systems
  import opened SystemProofs

  const FIRST := Message(false, AtLeastOnce, false, [], 1, [])
  const SECOND := Message(false, AtLeastOnce, false, [], 1, [0])

  function BeginCall(call: nat, payload: seq<byte>): Event {
    Begin(call, AtLeastOnce, false, [], payload, None)
  }

  /** The first message is in flight, unacknowledged, and `n` identifiers have been taken. */
  ghost predicate Waiting(x: Sys, n: nat) {
    && x.phase.Running? && x.t.signal.Some? && x.clock == 0 && x.cmds == [] && x.allocs == n
    && Key(Publish, 1) in x.t.pending && x.t.pending[Key(Publish, 1)] == PublishPacket(FIRST)
    && forall c <- x.calls :: c < n
  }

  lemma FirstBegun(connect: ConnectInfo, net: Network) returns (es: seq<Event>)
    ensures Run(Systems.Init(connect), es)
    ensures var x := After(Systems.Init(connect), es);
            && x.phase.Running? && x.t.signal.Some? && x.clock == 0 && x.cmds == [] && x.allocs == 1
            && x.calls.Keys == {0} && x.calls[0] == Call(FIRST, None, Allocated, 0, false, None, None)
  {
    var start := Systems.Init(connect);
    RunSnoc(start, [], Receive(ConnAckPacket(Ok(false)), 0, net));
    es := [Receive(ConnAckPacket(Ok(false)), 0, net)];
    RunSnoc(start, es, BeginCall(0, []));
    es := es + [BeginCall(0, [])];
  }

  /** A call registers and submits, and the task takes its command. */
  lemma RunPublish(start: Sys, es: seq<Event>, call: nat)
    requires Run(start, es)
    requires var x := After(start, es);
             && x.phase.Running? && x.t.signal.Some? && x.clock == 0 && x.cmds == []
             && call in x.calls && x.calls[call].phase.Allocated? && x.calls[call].stage.None?
    ensures var (x, es') := (After(start, es), es + [Register(call)] + [Submit(call)]);
            && Run(start, es') && Enabled(After(start, es'), Obey(0))
            && var x' := After(start, es');
               && x'.cmds == [PublishCommand(x.calls[call].msg)] && x'.t == x.t && x'.calls.Keys == x.calls.Keys
               && x'.phase == x.phase && x'.allocs == x.allocs && x'.clock == 0
  {
    RunSnoc(start, es, Register(call));
    RunSnoc(start, es + [Register(call)], Submit(call));
  }

  lemma FirstInFlight(connect: ConnectInfo, net: Network) returns (es: seq<Event>)
    ensures Run(Systems.Init(connect), es) && Waiting(After(Systems.Init(connect), es), 1)
  {
    var start := Systems.Init(connect);
    es := FirstBegun(connect, net);
    RunPublish(start, es, 0);
    es := es + [Register(0)] + [Submit(0)];
    RunSnoc(start, es, Obey(0));
    es := es + [Obey(0)];
  }

  lemma BeginStep(x: Sys, n: nat)
    requires Waiting(x, n)
    ensures Enabled(x, BeginCall(n, [])) && Waiting(Step(x, BeginCall(n, [])), n + 1)
  {
  }

  /** Every other identifier has been taken once, and the counter is where it began. */
  lemma AllTaken(connect: ConnectInfo, net: Network) returns (es: seq<Event>)
    ensures Run(Systems.Init(connect), es) && Waiting(After(Systems.Init(connect), es), 65536)
    ensures After(Systems.Init(connect), es).t.shared.nextId == 1
  {
    var start := Systems.Init(connect);
    es := FirstInFlight(connect, net);
    for n := 1 to 65536
      invariant Run(start, es) && Waiting(After(start, es), n)
    {
      BeginStep(After(start, es), n);
      RunSnoc(start, es, BeginCall(n, []));
      es := es + [BeginCall(n, [])];
    }
    EveryRunCounts(connect, es);
  }

  /** The second message takes the identifier of the first and displaces it: the first is not
  acknowledged, and will not be sent again. */
  lemma FlightIsDisplaced(connect: ConnectInfo, net: Network) returns (es: seq<Event>)
    ensures Run(Systems.Init(connect), es) && Enabled(After(Systems.Init(connect), es), Obey(0))
    ensures var x := After(Systems.Init(connect), es);
            && Key(Publish, 1) in x.t.pending && x.t.pending[Key(Publish, 1)] == PublishPacket(FIRST)
            && Step(x, Obey(0)).t.pending == x.t.pending[Key(Publish, 1) := PublishPacket(SECOND)]
  {
    var start := Systems.Init(connect);
    es := AllTaken(connect, net);
    RunSnoc(start, es, BeginCall(65536, [0]));
    es := es + [BeginCall(65536, [0])];
    RunPublish(start, es, 65536);
    es := es + [Register(65536)] + [Submit(65536)];
  }
}
