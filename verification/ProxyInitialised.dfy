/**
 The initialised flag between threads. It is not under the lock: a thread raises it some time after it has connected
 and lowers it some time after it has cleared the connection.
 */
module ProxyInitialised {
  import opened TelephonyBase
  import opened ProxySections
  import opened ProxyThreads
  import opened ProxySerial
  import opened ProxyCauses

  // A thread that has cleared the connection and is about to lower the flag.
  predicate Lowering(pc: Pc) {
    pc == SettingInit(false) || (pc.Leaving? && pc.op.UnInitOp? && pc.section.Clear?)
  }

  /** The flag is up only while there is a connection, or while a thread is about to lower it. */
  ghost predicate FlagInv(s: State) {
    Abs(s).initialised ==> Abs(s).link.service.Some? || exists t :: Lowering(PcOf(s, t))
  }

  ghost predicate FlagInvAfter(moves: seq<Move>) {
    FlagInv(Exec(START, moves))
  }

  // ---------- exactly when the flag can be wrong ----------

  // A thread raises the flag after its connection has been lost, while nobody is about to lower it.
  ghost predicate RaisesLate(moves: seq<Move>, move: Move) {
    var s := Exec(START, moves);
    && move.SetInit? && PcOf(s, move.t) == SettingInit(true)
    && Lost(Log(moves), Since(Log(moves), move.t)) && forall t :: !Lowering(PcOf(s, t))
  }

  lemma ClearsToLower(s: State, move: Move)
    requires Inv(s) && AtomOf(s, move).Some? && AtomOf(s, move).value.Ran?
    requires AtomOf(s, move).value.section.Clear? && PcOf(s, move.t).op.UnInitOp?
    ensures Lowering(PcOf(Step(s, move), move.t))
  {
    hide Before, Creates, Serve, ProxySections.After;
    assert ThreadInv(s, move.t);
  }

  lemma LoweringStays(s: State, move: Move, t: Tid)
    requires Lowering(PcOf(s, t))
    ensures Lowering(PcOf(Step(s, move), t)) || (move == SetInit(t) && PcOf(s, t) == SettingInit(false))
  {
    hide Before, Creates, Serve, ProxySections.After, Target;
  }

  lemma NewLowering(s: State, move: Move, t: Tid)
    requires move.SetInit? && Lowering(PcOf(Step(s, move), t))
    ensures Lowering(PcOf(s, t))
  {
  }

  lemma FlagAfter(sys: System, atom: Atom)
    ensures var next := Apply(sys, atom);
      if atom.InitSet? then next.initialised == atom.value && next.link == sys.link
      else
        next.initialised ==>
          && sys.initialised
          && (sys.link.service.Some? && next.link.service.None? ==> atom.Ran? && atom.section.Clear?)
  {
  }

  lemma FlagStep(s: State, move: Move, late: bool)
    requires Inv(s) && NumbersInv(s) && FlagInv(s)
    requires forall t :: Pending(PcOf(s, t)) && PcOf(s, t).section.Clear? ==> PcOf(s, t).op.UnInitOp?
    requires late <==> (
      && move.SetInit? && PcOf(s, move.t) == SettingInit(true)
      && Abs(s).link.service.None? && forall t :: !Lowering(PcOf(s, t)))
    ensures FlagInv(Step(s, move)) <==> !late
  {
    hide Step, Abs, Inv, NumbersInv, Lowering, Apply;
    SerialStep(s, move);
    var t := Step(s, move);
    var atom := AtomOf(s, move);
    if atom.Some? {
      FlagAfter(Abs(s), atom.value);
    }
    if u :| Lowering(PcOf(s, u)) {
      LoweringStays(s, move, u);
    }
    if atom.Some? && atom.value.Ran? && atom.value.section.Clear? {
      ClearsToLower(s, move);
    }
    if late {
      forall u
        ensures !Lowering(PcOf(t, u))
      {
        if Lowering(PcOf(t, u)) {
          NewLowering(s, move, u);
        }
      }
    }
  }

  lemma FlagMove(moves: seq<Move>, move: Move)
    requires FlagInvAfter(moves)
    ensures FlagInvAfter(moves + [move]) <==> !RaisesLate(moves, move)
  {
    hide Step, Abs, Log, Inv, NumbersInv, Lowering, FlagInv, Lost;
    var s := Exec(START, moves);
    assert (moves + [move])[..|moves|] == moves;
    InvHolds(moves);
    NumbersHold(moves);
    forall t
      ensures Pending(PcOf(s, t)) && PcOf(s, t).section.Clear? ==> PcOf(s, t).op.UnInitOp?
    {
      StandsHolds(moves, t);
    }
    if move.SetInit? && PcOf(s, move.t) == SettingInit(true) {
      StandsHolds(moves, move.t);
      InterleavingsAreSerial(moves);
      LostIsExact(Log(moves), Since(Log(moves), move.t));
    }
    FlagStep(s, move, RaisesLate(moves, move));
  }

  lemma {:induction false} FlagAlong(moves: seq<Move>, n: nat)
    requires n <= |moves|
    requires forall k :: 0 <= k < n ==> !RaisesLate(moves[..k], moves[k])
    ensures FlagInvAfter(moves[..n])
  {
    hide Step, FlagInvAfter, RaisesLate;
    if n == 0 {
      StartIsDown();
      assert moves[..0] == [];
    } else {
      FlagAlong(moves, n - 1);
      FlagMove(moves[..n - 1], moves[n - 1]);
      assert moves[..n - 1] + [moves[n - 1]] == moves[..n];
    }
  }

  lemma StartIsDown()
    ensures FlagInvAfter([])
  {
  }

  /**
   In an interleaving, the flag is up only while there is a connection, or while a thread is about to lower it,
   exactly when no thread raises it after the connection it has made has been lost.
   */
  lemma InitialisedAllAlong(moves: seq<Move>)
    ensures (forall n :: 0 <= n <= |moves| ==> FlagInvAfter(moves[..n]))
      <==> (forall k :: 0 <= k < |moves| ==> !RaisesLate(moves[..k], moves[k]))
  {
    hide FlagInvAfter, RaisesLate;
    if forall k :: 0 <= k < |moves| ==> !RaisesLate(moves[..k], moves[k]) {
      forall n | 0 <= n <= |moves|
        ensures FlagInvAfter(moves[..n])
      {
        FlagAlong(moves, n);
      }
    } else {
      var k :| 0 <= k < |moves| && RaisesLate(moves[..k], moves[k]);
      if FlagInvAfter(moves[..k]) {
        FlagMove(moves[..k], moves[k]);
        assert moves[..k] + [moves[k]] == moves[..k + 1];
      }
    }
  }

  // ---------- a flag that is wrong ----------

  const CONNECT := [ServiceStarts, Begin(0, InitOp(Found(0)))]
  const DIES := [ServiceDies(0), Begin(1, DeathOp(0))]
  const LATE: seq<Move> := CONNECT + (TurnMoves(0, Success) + (DIES + (TurnMoves(1, Success) + [SetInit(0)])))

  // Thread 0 has connected and is about to raise the flag.
  const CONNECTED := State(
    System(Link(Some(0), None, false), false, [Epoch(true, [])], 0, []), None, {}, map[0 := SettingInit(true)], false)

  // The process has died and the connection has been dropped.
  const DROPPED := State(
    System(NO_LINK, false, [Epoch(false, [])], 0, []), None, {}, map[0 := SettingInit(true), 1 := Idle], false)

  lemma LateConnects()
    ensures Exec(Exec(START, CONNECT), TurnMoves(0, Success)) == CONNECTED
  {
    ExecTwo(START, CONNECT[0], CONNECT[1]);
    var s := Exec(START, CONNECT);
    assert INITIAL.epochs + [Epoch(true, [])] == [Epoch(true, [])];
    ExecSection(s, 0, Success);
    assert Exec(s, TurnMoves(0, Success)).threads == CONNECTED.threads;
  }

  lemma LateDrops()
    ensures Exec(Exec(CONNECTED, DIES), TurnMoves(1, Success)) == DROPPED
  {
    ExecTwo(CONNECTED, DIES[0], DIES[1]);
    var s := Exec(CONNECTED, DIES);
    assert [Epoch(true, [])][0 := Epoch(false, [])] == [Epoch(false, [])];
    ExecSection(s, 1, Success);
    assert Exec(s, TurnMoves(1, Success)).threads == DROPPED.threads;
  }

  lemma LateRuns()
    ensures Exec(START, LATE) == Step(DROPPED, SetInit(0))
  {
    hide TurnMoves, Step;
    LateConnects();
    LateDrops();
    ExecConcat(START, CONNECT, TurnMoves(0, Success) + (DIES + (TurnMoves(1, Success) + [SetInit(0)])));
    ExecConcat(Exec(START, CONNECT), TurnMoves(0, Success), DIES + (TurnMoves(1, Success) + [SetInit(0)]));
    ExecConcat(CONNECTED, DIES, TurnMoves(1, Success) + [SetInit(0)]);
    ExecConcat(Exec(CONNECTED, DIES), TurnMoves(1, Success), [SetInit(0)]);
    ExecOne(DROPPED, SetInit(0));
  }

  /**
   Thread 0 connects, the process dies and its death is noticed, and then thread 0 raises the flag: the client counts
   as initialised without a connection, and further calls of Init return at once.
   */
  lemma InitialisedWithoutConnection(answer: ConnectAnswer)
    ensures var s := Exec(START, LATE);
      && s.sys.initialised && s.sys.link.service.None? && (forall t :: !Lowering(PcOf(s, t)))
      && Step(s, Begin(2, InitOp(answer))) == s
  {
    hide Exec, TurnMoves;
    LateRuns();
  }
}
