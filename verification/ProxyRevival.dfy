/**
 A registration that comes back after a death. A request decides by its copy of the flag whether to register the
 callback again; the copy may be older than the death.
 */
module ProxyRevival {
  import opened TelephonyBase
  import opened ProxySections
  import opened ProxyThreads
  import opened ProxyAlone
  import Runs = ProxyRuns

  // ---------- the run ----------

  function Process(alive: bool): Epoch {
    Epoch(alive, [0])
  }

  const EARLY := RequestOp(1, Found(2), false)
  const LATER := RequestOp(2, Found(1), false)

  // The request of thread 5 after it has looked: no connection, and the flag is up.
  const HAS_LOOKED := Waiting(RequestOp(1, Found(2), true), Connect(Found(2)))

  const REGISTERED := System(Link(Some(0), Some(0), true), true, [Process(true)], 1, [])
  const CLEARED := System(Link(None, Some(0), true), false, [Process(false)], 1, [])
  const AGAIN := System(Link(Some(1), Some(0), true), false, [Process(false), Process(true)], 1, [(1, 2)])
  const DEAD_AGAIN := AGAIN.(epochs := [Process(false), Process(false)])
  const REVIVED := System(
    Link(Some(2), Some(0), false), false, [Process(false), Process(false), Process(true)], 1, [(1, 2)])

  /** Thread 0 connects to process 0 and thread 1 registers a callback with it. */
  lemma Registers() returns (moves: seq<Move>)
    ensures var s := Exec(START, moves);
      Quiet(s) && s.sys == REGISTERED && forall u :: u > 1 ==> PcOf(s, u).Idle?
  {
    StartIsQuiet();
    hide Exec;
    moves := Changed(START, [], ServiceStarts);
    assert Exec(START, moves).sys.epochs == [Epoch(true, [])];
    moves := Began(START, moves, 0, InitOp(Found(0)));
    moves := Turned(START, moves, 0, Success);
    moves := Flagged(START, moves, 0);
    moves := Began(START, moves, 1, RegisterOp(true));
    moves := Turned(START, moves, 1, Success);
    Adds([Epoch(true, [])], 0);
  }

  lemma StartIsQuiet()
    ensures Exec(START, []) == START && Quiet(START) && forall u :: PcOf(START, u).Idle?
  {
  }

  // Registering callback 0 with a process that has none.
  lemma Adds(epochs: seq<Epoch>, e: EpochId)
    requires e < |epochs| && epochs[e].callbacks == []
    ensures epochs[e := epochs[e].(callbacks := epochs[e].callbacks + [0])]
      == epochs[e := epochs[e].(callbacks := [0])]
  {
    assert epochs[e].callbacks + [0] == [0];
  }

  lemma RegistersAgain(sys: System, e: EpochId)
    requires sys.link.service == Some(e) && sys.link.callback == Some(0)
    requires Alive(sys.epochs, e) && sys.epochs[e].callbacks == []
    ensures Run(Reregister, sys, Success) == sys.(epochs := sys.epochs[e := Process(true)])
  {
    Adds(sys.epochs, e);
  }

  /** Process 0 dies; thread 2 fails to unregister and clears the connection; thread 5 looks. */
  lemma Looks() returns (moves: seq<Move>)
    ensures var s := Exec(START, moves);
      && Quiet(s) && s.sys == CLEARED && PcOf(s, 5) == HAS_LOOKED
      && PcOf(s, 7).Idle? && PcOf(s, 8).Idle?
  {
    hide Exec;
    moves := Registers();
    moves := Changed(START, moves, ServiceDies(0));
    moves := Began(START, moves, 2, UnInitOp);
    moves := Turned(START, moves, 2, Success);
    moves := Turned(START, moves, 2, Success);
    moves := Flagged(START, moves, 2);
    assert Exec(START, moves).sys.epochs == [Process(false)];
    moves := Began(START, moves, 5, EARLY);
    moves := Turned(START, moves, 5, Success);
  }

  // Process 1 starts and thread 7 connects to it.
  lemma Reconnects() returns (moves: seq<Move>)
    ensures var s := Exec(START, moves);
      && Quiet(s) && s.sys == AGAIN.(epochs := [Process(false), Epoch(true, [])], sent := [])
      && PcOf(s, 7) == Waiting(LATER.(sawRegistered := true), Reregister)
      && PcOf(s, 5) == HAS_LOOKED && PcOf(s, 8).Idle?
  {
    hide Exec;
    moves := Looks();
    moves := Changed(START, moves, ServiceStarts);
    moves := Began(START, moves, 7, LATER);
    moves := Turned(START, moves, 7, Success);
    moves := Turned(START, moves, 7, Success);
  }

  /** Process 1 starts; thread 7 connects and registers the callback again; process 1 dies. */
  lemma AgreesAgain() returns (moves: seq<Move>)
    ensures var s := Exec(START, moves);
      && Quiet(s) && s.sys == DEAD_AGAIN && PcOf(s, 5) == HAS_LOOKED && PcOf(s, 8).Idle?
  {
    hide Exec, Run;
    moves := Reconnects();
    RegistersAgain(Exec(START, moves).sys, 1);
    moves := Turned(START, moves, 7, Success);
    assert Exec(START, moves).sys.epochs == [Process(false), Process(true)];
    Sends(Exec(START, moves).sys, 2);
    moves := Turned(START, moves, 7, Success);
    moves := Changed(START, moves, ServiceDies(1));
    assert Exec(START, moves).sys.epochs == [Process(false), Process(false)];
  }

  lemma Sends(sys: System, request: Request)
    requires sys.link.service.Some?
    ensures Run(Forward(request), sys, Success)
      == sys.(sent := sys.sent + [(sys.link.service.value, request)])
  {
  }

  /** The death is noticed; process 2 starts; thread 5 connects by what it had seen. */
  lemma GoesOn(s: State) returns (later: seq<Move>)
    requires Quiet(s) && s.sys == DEAD_AGAIN && PcOf(s, 5) == HAS_LOOKED && PcOf(s, 8).Idle?
    ensures var n := Exec(s, later);
      && Quiet(n) && NoRegister(later) && PcOf(n, 5) == Waiting(HAS_LOOKED.op, Reregister)
      && n.sys == REVIVED.(epochs := DEAD_AGAIN.epochs + [Epoch(true, [])])
  {
    hide Exec, NoRegister, Run, ResultCode;
    later := Begins(s);
    NoticeDrops();
    later := Turned(s, later, 8, Success);
    later := Changed(s, later, ServiceStarts);
    Finds(Exec(s, later).sys, 2);
    later := Turned(s, later, 5, Success);
  }

  lemma NoticeDrops()
    ensures Run(Died(1), DEAD_AGAIN, Success) == DEAD_AGAIN.(link := Link(None, Some(0), false))
  {
  }

  lemma Finds(sys: System, e: EpochId)
    requires sys.link.service.None? && Alive(sys.epochs, e)
    ensures Run(Connect(Found(e)), sys, Success) == sys.(link := sys.link.(service := Some(e)))
    ensures ResultCode(Connect(Found(e)), sys, Success) == Success
  {
  }

  lemma Begins(s: State) returns (later: seq<Move>)
    requires Quiet(s) && s.sys == DEAD_AGAIN && PcOf(s, 8).Idle?
    ensures var n := Exec(s, later);
      && Quiet(n) && OthersStay(s, n, 8) && NoRegister(later)
      && n.sys == s.sys && PcOf(n, 8) == Waiting(DeathOp(1), Died(1))
  {
    assert Exec(s, []) == s;
    hide Exec;
    later := Began(s, [], 8, DeathOp(1));
  }

  lemma Revives(s: State) returns (later: seq<Move>)
    requires Quiet(s) && s.sys == DEAD_AGAIN && PcOf(s, 5) == HAS_LOOKED && PcOf(s, 8).Idle?
    ensures Exec(s, later).sys == REVIVED && Quiet(Exec(s, later)) && NoRegister(later)
  {
    hide Exec, NoRegister, Run;
    later := GoesOn(s);
    RegistersAgain(Exec(s, later).sys, 2);
    later := Turned(s, later, 5, Success);
    assert Exec(s, later).sys.epochs == REVIVED.epochs;
  }

  /**
   Client and service agree and the connected process is dead. Its death is noticed, and although no thread begins to
   register after that, a live process ends up with the callback of a client that is not registered.
   */
  lemma RegistrationIsRevived() returns (before: seq<Move>, later: seq<Move>)
    ensures var s := Exec(START, before);
      Quiet(s) && Runs.Agree(s.sys) && s.sys.link == Link(Some(1), Some(0), true) && !Alive(s.sys.epochs, 1)
    ensures var t := Exec(START, before + later);
      && Quiet(t) && t.sys.link == Link(Some(2), Some(0), false)
      && |t.sys.epochs| == 3 && t.sys.epochs[2] == Epoch(true, [0]) && !Runs.Agree(t.sys)
    ensures NoRegister(later)
  {
    hide Exec, NoRegister;
    before := AgreesAgain();
    later := Revives(Exec(START, before));
    ExecConcat(START, before, later);
  }
}
