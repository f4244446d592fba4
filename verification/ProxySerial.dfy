/**
 The interleaved model of the proxy behaves as if every critical section were carried out at one instant. Each
 interleaving is mapped to a log of such instants; the order of the log is the order in which sections take effect.
 On top of that: exactly when the registration agrees with the service in every interleaving.
 */
module ProxySerial {
  import opened TelephonyBase
  import opened ProxySections
  import opened ProxyThreads
  import Runs = ProxyRuns

  datatype Atom =
    | Ran(t: Tid, section: Section, offered: Code)
    | InitSet(value: bool)
    | Started
    | Killed(e: EpochId)

  function Apply(sys: System, atom: Atom): System {
    match atom
    case Ran(_, section, offered) => Run(section, sys, offered)
    case InitSet(value) => sys.(initialised := value)
    case Started => sys.(epochs := sys.epochs + [Epoch(true, [])])
    case Killed(e) =>
      if e < |sys.epochs| then sys.(epochs := sys.epochs[e := sys.epochs[e].(alive := false)]) else sys
  }

  function ApplyAll(atoms: seq<Atom>): System {
    if atoms == [] then INITIAL else Apply(ApplyAll(atoms[..|atoms| - 1]), atoms[|atoms| - 1])
  }

  /**
   What takes effect at a move: a section that ends with its checks does so there, one that calls the service when
   it calls, and a death notice when it writes, because the initialised flag that it writes is not under the lock.
   */
  function AtomOf(s: State, move: Move): Option<Atom> {
    match move
    case ServiceStarts => Some(Started)
    case ServiceDies(e) => Some(Killed(e))
    case Check(t) =>
      var pc := PcOf(s, t);
      if pc.Entered? && Target(pc.section, s.sys.link).None? then Some(Ran(t, pc.section, Success)) else None
    case Call(t, offered) =>
      var pc := PcOf(s, t);
      if pc.Checked? && !pc.section.Died? then Some(Ran(t, pc.section, offered)) else None
    case Commit(t) =>
      var pc := PcOf(s, t);
      if pc.Called? && pc.section.Died? then Some(Ran(t, pc.section, pc.code)) else None
    case SetInit(t) =>
      var pc := PcOf(s, t);
      if pc.SettingInit? then Some(InitSet(pc.value)) else None
    case _ => None
  }

  function Log(moves: seq<Move>): seq<Atom> {
    if moves == [] then []
    else
      var front := moves[..|moves| - 1];
      var atom := AtomOf(Exec(START, front), moves[|moves| - 1]);
      Log(front) + if atom.Some? then [atom.value] else []
  }

  /** The state in which the writer's section has taken effect completely or not at all. */
  function Abs(s: State): System {
    if s.writer.None? then s.sys
    else match PcOf(s, s.writer.value)
      case Checked(_, _, at) => s.sys.(link := at.link, nextCallback := at.nextCallback)
      case Called(_, section, _, e, code) =>
        if section.Died? then s.sys else s.sys.(link := ProxySections.After(section, s.sys.link, e, code))
      case _ => s.sys
  }

  // ---------- every move is one instant or none ----------

  // While a section is on its way to its call, nobody else creates callbacks.
  predicate NumbersInv(s: State) {
    s.writer.Some? ==>
      var pc := PcOf(s, s.writer.value);
      pc.Checked? ==>
        s.sys.nextCallback == pc.at.nextCallback + if Creates(pc.section, pc.at.link) then 1 else 0
  }

  function Effect(s: State, move: Move): System {
    var atom := AtomOf(s, move);
    if atom.Some? then Apply(Abs(s), atom.value) else Abs(s)
  }

  lemma WorldMoves(s: State, move: Move)
    requires Inv(s) && NumbersInv(s) && (move.ServiceStarts? || move.ServiceDies?)
    ensures Abs(Step(s, move)) == Effect(s, move) && NumbersInv(Step(s, move))
  {
  }

  lemma OutsideMoves(s: State, move: Move)
    requires Inv(s) && NumbersInv(s) && (move.Begin? || move.Acquire? || move.Release? || move.SetInit?)
    ensures Abs(Step(s, move)) == Effect(s, move) && NumbersInv(Step(s, move))
  {
    hide Apply;
    assert ThreadInv(s, move.t);
    if s.writer.Some? {
      assert ThreadInv(s, s.writer.value);
    }
    OutsideEffect(s, move);
  }

  lemma OutsideEffect(s: State, move: Move)
    requires move.Begin? || move.Acquire? || move.Release? || move.SetInit?
    ensures Effect(s, move) ==
      if move.SetInit? && PcOf(s, move.t).SettingInit? then
        Abs(s).(initialised := PcOf(s, move.t).value)
      else Abs(s)
  {
  }

  lemma CheckMoves(s: State, move: Move)
    requires Inv(s) && NumbersInv(s) && move.Check?
    ensures Abs(Step(s, move)) == Effect(s, move) && NumbersInv(Step(s, move))
  {
    assert ThreadInv(s, move.t);
    if s.writer.Some? {
      assert ThreadInv(s, s.writer.value);
    }
  }

  lemma CallMoves(s: State, move: Move)
    requires Inv(s) && NumbersInv(s) && move.Call?
    ensures Abs(Step(s, move)) == Effect(s, move) && NumbersInv(Step(s, move))
  {
    assert ThreadInv(s, move.t);
    var pc := PcOf(s, move.t);
    if s.writer.Some? {
      assert ThreadInv(s, s.writer.value);
    }
    if pc.Checked? {
      TargetKept(pc.section, pc.at);
    }
  }

  lemma CommitMoves(s: State, move: Move)
    requires Inv(s) && NumbersInv(s) && move.Commit?
    ensures Abs(Step(s, move)) == Effect(s, move) && NumbersInv(Step(s, move))
  {
    assert ThreadInv(s, move.t);
    if s.writer.Some? {
      assert ThreadInv(s, s.writer.value);
    }
  }

  lemma SerialStep(s: State, move: Move)
    requires Inv(s) && NumbersInv(s)
    ensures Abs(Step(s, move)) == Effect(s, move) && NumbersInv(Step(s, move))
  {
    hide Step, Inv, NumbersInv, Effect, Abs;
    match move
    case ServiceStarts => WorldMoves(s, move);
    case ServiceDies(_) => WorldMoves(s, move);
    case Check(_) => CheckMoves(s, move);
    case Call(_, _) => CallMoves(s, move);
    case Commit(_) => CommitMoves(s, move);
    case _ => OutsideMoves(s, move);
  }

  lemma {:induction false} NumbersHold(moves: seq<Move>)
    ensures NumbersInv(Exec(START, moves))
  {
    hide Step;
    if moves != [] {
      var front := moves[..|moves| - 1];
      NumbersHold(front);
      InvHolds(front);
      SerialStep(Exec(START, front), moves[|moves| - 1]);
    }
  }

  /** Every interleaving leads to the state that its log leads to when sections are carried out one after the other. */
  lemma {:induction false} InterleavingsAreSerial(moves: seq<Move>)
    ensures Abs(Exec(START, moves)) == ApplyAll(Log(moves))
  {
    hide Step, Apply, AtomOf, Abs;
    if moves == [] {
      NothingYet();
    } else {
      var front := moves[..|moves| - 1];
      InterleavingsAreSerial(front);
      NumbersHold(front);
      InvHolds(front);
      SerialStep(Exec(START, front), moves[|moves| - 1]);
      var atom := AtomOf(Exec(START, front), moves[|moves| - 1]);
      if atom.Some? {
        assert Log(moves)[..|Log(moves)| - 1] == Log(front);
      } else {
        assert Log(moves) == Log(front);
      }
    }
  }

  lemma NothingYet()
    ensures Abs(START) == INITIAL && Log([]) == []
  {
  }

  /** When no thread is inside a section, that is the state itself. */
  lemma QuietStatesAreSerial(moves: seq<Move>)
    requires forall t :: !Inside(PcOf(Exec(START, moves), t))
    ensures Exec(START, moves).sys == ApplyAll(Log(moves))
  {
    hide Step;
    InterleavingsAreSerial(moves);
    InvHolds(moves);
    var s := Exec(START, moves);
    if s.writer.Some? {
      assert ThreadInv(s, s.writer.value);
    }
  }

  // ---------- the log has every section once ----------

  // The section of thread t that takes effect at a move, if any.
  function LoggedAt(s: State, move: Move, t: Tid): seq<Section> {
    var atom := AtomOf(s, move);
    if atom.Some? && atom.value.Ran? && atom.value.t == t then [atom.value.section] else []
  }

  // The section that thread t enters at a move, if any.
  function EnteredAt(s: State, move: Move, t: Tid): seq<Section> {
    if move == Acquire(t) && PcOf(s, t).Waiting? && PcOf(Step(s, move), t).Entered? then [PcOf(s, t).section] else []
  }

  // The sections of thread t among some instants.
  function OfThread(atoms: seq<Atom>, t: Tid): seq<Section> {
    if atoms == [] then []
    else
      var last := atoms[|atoms| - 1];
      OfThread(atoms[..|atoms| - 1], t) + if last.Ran? && last.t == t then [last.section] else []
  }

  lemma LogNext(moves: seq<Move>, t: Tid)
    requires moves != []
    ensures var front := moves[..|moves| - 1];
      OfThread(Log(moves), t) == OfThread(Log(front), t) + LoggedAt(Exec(START, front), moves[|moves| - 1], t)
  {
    hide AtomOf, Step;
    var front := moves[..|moves| - 1];
    var atom := AtomOf(Exec(START, front), moves[|moves| - 1]);
    if atom.Some? {
      assert Log(moves) == Log(front) + [atom.value];
      assert Log(moves)[..|Log(front)|] == Log(front);
    } else {
      assert Log(moves) == Log(front);
    }
  }

  function Entries(moves: seq<Move>, t: Tid): seq<Section> {
    if moves == [] then []
    else
      var front := moves[..|moves| - 1];
      Entries(front, t) + EnteredAt(Exec(START, front), moves[|moves| - 1], t)
  }

  // The section that a thread has entered and that has yet to take effect.
  function Outstanding(pc: Pc): seq<Section> {
    if pc.Entered? || pc.Checked? || (pc.Called? && pc.section.Died?) then [pc.section] else []
  }

  lemma LogStep(s: State, move: Move, t: Tid)
    requires Inv(s)
    ensures Outstanding(PcOf(s, t)) + EnteredAt(s, move, t)
      == LoggedAt(s, move, t) + Outstanding(PcOf(Step(s, move), t))
  {
    hide Before, Creates, Serve, ProxySections.After;
    assert ThreadInv(s, t);
    var pc := PcOf(s, t);
    if pc.Checked? {
      TargetKept(pc.section, pc.at);
    }
  }

  /** Every thread's sections are in the log once each, in the order in which it entered them. */
  lemma {:induction false} LogIsComplete(moves: seq<Move>, t: Tid)
    ensures Entries(moves, t) == OfThread(Log(moves), t) + Outstanding(PcOf(Exec(START, moves), t))
  {
    hide Step, Log, LoggedAt, EnteredAt, Outstanding, Inv;
    if moves == [] {
      NothingYet();
      NothingOutstanding(t);
    } else {
      var front, last := moves[..|moves| - 1], moves[|moves| - 1];
      var s := Exec(START, front);
      LogIsComplete(front, t);
      InvHolds(front);
      LogStep(s, last, t);
      LogNext(moves, t);
      Regroup(OfThread(Log(front), t), Outstanding(PcOf(s, t)), EnteredAt(s, last, t), LoggedAt(s, last, t),
        Outstanding(PcOf(Step(s, last), t)));
    }
  }

  lemma NothingOutstanding(t: Tid)
    ensures Outstanding(PcOf(START, t)) == []
  {
  }

  lemma Regroup<T>(logged: seq<T>, before: seq<T>, entered: seq<T>, effect: seq<T>, after: seq<T>)
    requires before + entered == effect + after
    ensures logged + before + entered == logged + effect + after
  {
    assert logged + before + entered == logged + (before + entered);
  }

  // ---------- agreement in every interleaving ----------

  // Clearing the connection of a client that is registered.
  predicate ClearsRegistered(sys: System, atom: Option<Atom>) {
    atom.Some? && atom.value.Ran? && atom.value.section.Clear? && sys.link.registered
  }

  // The sections that a thread has in front of it or is in.
  predicate Pending(pc: Pc) {
    pc.Waiting? || Inside(pc)
  }

  // Death notices that are on their way are about dead processes.
  predicate DeathInv(s: State, t: Tid) {
    var pc := PcOf(s, t);
    Pending(pc) ==>
      && (pc.section.Died? ==> Dead(s.sys, pc.section.notice))
      && (pc.op.DeathOp? ==> Dead(s.sys, pc.op.notice))
  }

  lemma DeadForEver(s: State, move: Move, e: EpochId)
    requires Dead(s.sys, e)
    ensures Dead(Step(s, move).sys, e)
  {
  }

  lemma DeathStep(s: State, move: Move, t: Tid)
    requires DeathInv(s, t)
    ensures DeathInv(Step(s, move), t)
  {
    hide Before, Creates, Serve, ProxySections.After, Target, Dead;
    var pc := PcOf(s, t);
    if Pending(pc) && pc.section.Died? {
      DeadForEver(s, move, pc.section.notice);
    }
    if Pending(pc) && pc.op.DeathOp? {
      DeadForEver(s, move, pc.op.notice);
    }
  }

  lemma {:induction false} DeathsHold(moves: seq<Move>, t: Tid)
    ensures DeathInv(Exec(START, moves), t)
  {
    hide Step;
    if moves != [] {
      DeathsHold(moves[..|moves| - 1], t);
      DeathStep(Exec(START, moves[..|moves| - 1]), moves[|moves| - 1], t);
    }
  }

  // While client and service agree, nobody is about to register again.
  predicate PendingInv(s: State, t: Tid) {
    var pc := PcOf(s, t);
    Pending(pc) ==>
      && !pc.section.Reregister?
      && (pc.op.RequestOp? && pc.section.Connect? ==> !pc.op.sawRegistered)
      && (pc.Leaving? && pc.section.Peek? && pc.at.link.service.None? ==> !pc.at.link.registered)
  }

  lemma PendingOther(s: State, move: Move, t: Tid)
    requires PendingInv(s, t) && (move.ServiceStarts? || move.ServiceDies? || move.t != t)
    ensures PendingInv(Step(s, move), t)
  {
    hide Before, Creates, Serve, ProxySections.After, Next, Target;
  }

  lemma PendingOwn(s: State, move: Move)
    requires Inv(s) && Runs.Agree(Abs(s))
    requires !move.ServiceStarts? && !move.ServiceDies? && PendingInv(s, move.t)
    ensures PendingInv(Step(s, move), move.t)
  {
    hide Before, Creates, Serve, ProxySections.After, Dead;
    assert ThreadInv(s, move.t);
  }

  lemma RanAgrees(sys: System, section: Section, offered: Code)
    requires Runs.Agree(sys) && !section.Reregister?
    requires section.Died? ==> Dead(sys, section.notice)
    ensures Runs.Agree(Run(section, sys, offered)) <==> !(section.Clear? && sys.link.registered)
  {
    match section
    case Register(created) => Runs.RegisterAgrees(sys, created, offered);
    case Unregister => Runs.UnregisterAgrees(sys, offered);
    case _ =>
  }

  lemma AtomAgrees(s: State, move: Move)
    requires Inv(s) && Runs.Agree(Abs(s))
    requires forall t :: PendingInv(s, t) && DeathInv(s, t)
    ensures Runs.Agree(Effect(s, move)) <==> !ClearsRegistered(Abs(s), AtomOf(s, move))
  {
    hide Run, Runs.Agree;
    var atom := AtomOf(s, move);
    if atom.Some? && atom.value.Ran? {
      assert PendingInv(s, move.t) && DeathInv(s, move.t);
      RanAgrees(Abs(s), atom.value.section, atom.value.offered);
    } else if atom.Some? {
      OthersAgree(Abs(s), atom.value);
    }
  }

  lemma OthersAgree(sys: System, atom: Atom)
    requires Runs.Agree(sys) && !atom.Ran?
    ensures Runs.Agree(Apply(sys, atom))
  {
  }

  ghost predicate AgreesAfter(moves: seq<Move>) {
    Runs.Agree(Abs(Exec(START, moves)))
  }

  predicate ClearsRegisteredAfter(moves: seq<Move>, move: Move) {
    ClearsRegistered(Abs(Exec(START, moves)), AtomOf(Exec(START, moves), move))
  }

  lemma AgreementMove(moves: seq<Move>, move: Move)
    requires AgreesAfter(moves) && forall t :: PendingInv(Exec(START, moves), t)
    ensures AgreesAfter(moves + [move]) <==> !ClearsRegisteredAfter(moves, move)
    ensures forall t :: PendingInv(Exec(START, moves + [move]), t)
  {
    hide Step, Abs, AtomOf, PendingInv, DeathInv, Effect, Inv, NumbersInv;
    var s := Exec(START, moves);
    assert (moves + [move])[..|moves|] == moves;
    InvHolds(moves);
    NumbersHold(moves);
    SerialStep(s, move);
    forall t
      ensures DeathInv(s, t)
    {
      DeathsHold(moves, t);
    }
    AtomAgrees(s, move);
    forall t
      ensures PendingInv(Step(s, move), t)
    {
      if move.ServiceStarts? || move.ServiceDies? || move.t != t {
        PendingOther(s, move, t);
      } else {
        PendingOwn(s, move);
      }
    }
  }

  lemma {:induction false} AgreementAlong(moves: seq<Move>, n: nat)
    requires n <= |moves|
    requires forall k :: 0 <= k < n ==> !ClearsRegisteredAfter(moves[..k], moves[k])
    ensures AgreesAfter(moves[..n]) && forall t :: PendingInv(Exec(START, moves[..n]), t)
  {
    hide Step, PendingInv, AgreesAfter, ClearsRegisteredAfter;
    if n == 0 {
      StartAgrees();
      assert moves[..0] == [];
    } else {
      AgreementAlong(moves, n - 1);
      AgreementMove(moves[..n - 1], moves[n - 1]);
      assert moves[..n - 1] + [moves[n - 1]] == moves[..n];
    }
  }

  lemma StartAgrees()
    ensures AgreesAfter([]) && forall t :: PendingInv(Exec(START, []), t)
  {
  }

  /**
   In an interleaving, the client and the service agree all along exactly when no connection is cleared while the
   client is registered. Module ProxyCauses says how that can come about.
   */
  lemma InterleavedAgreement(moves: seq<Move>)
    ensures (forall n :: 0 <= n <= |moves| ==> AgreesAfter(moves[..n]))
      <==> (forall k :: 0 <= k < |moves| ==> !ClearsRegisteredAfter(moves[..k], moves[k]))
  {
    hide AgreesAfter, ClearsRegisteredAfter, PendingInv;
    if forall k :: 0 <= k < |moves| ==> !ClearsRegisteredAfter(moves[..k], moves[k]) {
      forall n | 0 <= n <= |moves|
        ensures AgreesAfter(moves[..n])
      {
        AgreementAlong(moves, n);
      }
    } else {
      var k := FirstClear(moves);
      AgreementAlong(moves, k);
      AgreementMove(moves[..k], moves[k]);
      assert moves[..k] + [moves[k]] == moves[..k + 1];
    }
  }

  lemma FirstClear(moves: seq<Move>) returns (k: nat)
    requires exists i :: 0 <= i < |moves| && ClearsRegisteredAfter(moves[..i], moves[i])
    ensures k < |moves| && ClearsRegisteredAfter(moves[..k], moves[k])
    ensures forall i :: 0 <= i < k ==> !ClearsRegisteredAfter(moves[..i], moves[i])
  {
    hide ClearsRegisteredAfter;
    k := 0;
    while !ClearsRegisteredAfter(moves[..k], moves[k])
      invariant k < |moves|
      invariant forall i :: 0 <= i < k ==> !ClearsRegisteredAfter(moves[..i], moves[i])
      decreases |moves| - k
    {
      k := k + 1;
    }
  }
}
