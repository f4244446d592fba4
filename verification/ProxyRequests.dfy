/**
 Requests between threads. A request looks at the fields, may connect and register the callback again by what it has
 seen, and only then sends; between any two of these sections the fields may change.
 */
module ProxyRequests {
  import opened TelephonyBase
  import opened ProxySections
  import opened ProxyThreads
  import opened ProxySerial
  import opened ProxyCauses
  import Runs = ProxyRuns

  // ---------- the last section of a kind ----------

  predicate IsPeek(section: Section) {
    section.Peek?
  }

  // The sections in which a request finds or makes a connection.
  predicate IsLook(section: Section) {
    section.Peek? || section.Connect?
  }

  /** The position in a log behind the last section of a kind of a thread. */
  function Behind(log: seq<Atom>, t: Tid, kind: Section -> bool): (n: nat)
    ensures n <= |log| && (n > 0 ==> IsOf(log[n - 1], t) && kind(log[n - 1].section))
    ensures forall k :: n <= k < |log| && IsOf(log[k], t) ==> !kind(log[k].section)
  {
    if log == [] then 0
    else if IsOf(log[|log| - 1], t) && kind(log[|log| - 1].section) then |log|
    else Behind(log[..|log| - 1], t, kind)
  }

  lemma BehindNext(log: seq<Atom>, atom: Atom, t: Tid, kind: Section -> bool)
    ensures Behind(log + [atom], t, kind)
      == if IsOf(atom, t) && kind(atom.section) then |log| + 1 else Behind(log, t, kind)
  {
    assert (log + [atom])[..|log|] == log;
  }

  // When the thread last looked at the fields, the client was registered.
  predicate SawRegistered(log: seq<Atom>, t: Tid) {
    var n := Behind(log, t, IsPeek);
    n > 0 && ApplyAll(log[..n]).link.registered
  }

  // When the thread last looked at the fields or connected, there was a connection.
  predicate SawConnected(log: seq<Atom>, t: Tid) {
    var n := Behind(log, t, IsLook);
    n > 0 && ApplyAll(log[..n]).link.service.Some?
  }

  /** What a request has seen, by where it is. */
  predicate Saw(pc: Pc, log: seq<Atom>, t: Tid) {
    Pending(pc) ==>
      && (pc.section.Reregister? ==> pc.op.RequestOp?)
      && (pc.op.RequestOp? ==>
            && (pc.section.Peek? || pc.section.Connect? || pc.section.Reregister? || pc.section.Forward?)
            && (pc.section.Peek? && pc.Leaving? && pc.at.link.registered ==> SawRegistered(log, t))
            && (pc.section.Peek? && pc.Leaving? && pc.at.link.service.Some? ==> SawConnected(log, t))
            && (pc.section.Connect? && pc.op.sawRegistered ==> SawRegistered(log, t))
            && (pc.section.Connect? && pc.Leaving? && ResultCode(pc.section, pc.at, Success) == Success ==>
                  SawConnected(log, t))
            && (pc.section.Reregister? ==> SawRegistered(log, t) && SawConnected(log, t))
            && (pc.section.Forward? ==> SawConnected(log, t)))
  }

  lemma SawOther(pc: Pc, log: seq<Atom>, atom: Atom, t: Tid)
    requires Saw(pc, log, t) && !IsOf(atom, t)
    ensures Saw(pc, log + [atom], t)
  {
    hide ApplyAll, ResultCode;
    KeepsSight(log, atom, t);
  }

  // What was seen stays seen until the thread looks again.
  lemma KeepsSight(log: seq<Atom>, atom: Atom, t: Tid)
    ensures (IsOf(atom, t) && IsLook(atom.section)) || SawConnected(log + [atom], t) == SawConnected(log, t)
    ensures (IsOf(atom, t) && IsPeek(atom.section)) || SawRegistered(log + [atom], t) == SawRegistered(log, t)
  {
    hide ApplyAll;
    BehindNext(log, atom, t, IsPeek);
    BehindNext(log, atom, t, IsLook);
    var p, n := Behind(log, t, IsPeek), Behind(log, t, IsLook);
    assert (log + [atom])[..p] == log[..p] && (log + [atom])[..n] == log[..n];
  }

  lemma SawSilent(s: State, move: Move, log: seq<Atom>)
    requires !move.ServiceStarts? && !move.ServiceDies?
    requires ThreadInv(s, move.t) && AtomOf(s, move).None? && Saw(PcOf(s, move.t), log, move.t)
    ensures Saw(PcOf(Step(s, move), move.t), log, move.t)
  {
    hide Before, Creates, Serve, ProxySections.After, SawRegistered, SawConnected, Dead;
  }

  lemma LooksNow(log: seq<Atom>, t: Tid, section: Section)
    requires IsLook(section)
    ensures var all := log + [Ran(t, section, Success)];
      && (Run(section, ApplyAll(log), Success).link.service.Some? ==> SawConnected(all, t))
      && (section.Peek? && ApplyAll(log).link.registered ==> SawRegistered(all, t))
  {
    var atom := Ran(t, section, Success);
    var all := log + [atom];
    BehindNext(log, atom, t, IsPeek);
    BehindNext(log, atom, t, IsLook);
    assert all[..|all|] == all && all[..|log|] == log;
  }

  // A request whose section takes effect when it makes its checks.
  lemma SawCheck(s: State, t: Tid, log: seq<Atom>)
    requires ThreadInv(s, t) && Abs(s) == ApplyAll(log) && Saw(PcOf(s, t), log, t)
    requires PcOf(s, t).Entered? && Target(PcOf(s, t).section, s.sys.link).None?
    ensures Saw(PcOf(CheckStep(s, t), t), log + [Ran(t, PcOf(s, t).section, Success)], t)
  {
    hide Before, Creates, ResultCode, Run, Target, ApplyAll, SawRegistered, SawConnected;
    var pc := PcOf(s, t);
    KeepsSight(log, Ran(t, pc.section, Success), t);
    if IsLook(pc.section) {
      LooksNow(log, t, pc.section);
      LooksKeep(pc.section, s.sys);
    }
  }

  lemma LooksKeep(section: Section, sys: System)
    ensures section.Peek? ==> Run(section, sys, Success) == sys
    ensures section.Connect? && ResultCode(section, sys, Success) == Success ==>
      Run(section, sys, Success).link.service.Some?
  {
  }

  // A request whose section takes effect at its call.
  lemma SawLater(pc: Pc, next: Pc, log: seq<Atom>, atom: Atom, t: Tid)
    requires Saw(pc, log, t) && IsOf(atom, t)
    requires pc.Checked? || pc.Called?
    requires next.Called? || next.Leaving?
    requires next.op == pc.op && next.section == pc.section == atom.section && !IsLook(pc.section)
    ensures Saw(next, log + [atom], t)
  {
    hide ResultCode, SawRegistered, SawConnected;
    KeepsSight(log, atom, t);
  }

  lemma SawEffect(s: State, move: Move, log: seq<Atom>)
    requires !move.ServiceStarts? && !move.ServiceDies? && !move.SetInit?
    requires ThreadInv(s, move.t) && Abs(s) == ApplyAll(log) && Saw(PcOf(s, move.t), log, move.t)
    requires AtomOf(s, move).Some?
    ensures Saw(PcOf(Step(s, move), move.t), log + [AtomOf(s, move).value], move.t)
  {
    hide Before, Creates, Serve, ProxySections.After, Saw, Abs, ApplyAll, CheckStep;
    var pc := PcOf(s, move.t);
    if pc.Entered? {
      SawCheck(s, move.t, log);
    } else {
      if pc.Checked? {
        TargetKept(pc.section, pc.at);
      }
      SawLater(pc, PcOf(Step(s, move), move.t), log, AtomOf(s, move).value, move.t);
    }
  }

  lemma SawIdle(s: State, move: Move, log: seq<Atom>)
    requires move.SetInit? && PcOf(s, move.t).SettingInit?
    ensures Saw(PcOf(Step(s, move), move.t), log, move.t)
  {
  }

  lemma SawStep(s: State, move: Move, log: seq<Atom>, t: Tid)
    requires Inv(s) && Abs(s) == ApplyAll(log) && Saw(PcOf(s, t), log, t)
    ensures var atom := AtomOf(s, move);
      Saw(PcOf(Step(s, move), t), if atom.Some? then log + [atom.value] else log, t)
  {
    hide ThreadInv, Abs, ApplyAll, Saw, CheckStep, CallStep, CommitStep, AcquireStep, ReleaseStep, PcOf;
    var atom := AtomOf(s, move);
    if move.ServiceStarts? || move.ServiceDies? || move.t != t {
      PcKept(s, move, t);
      if atom.Some? {
        SawOther(PcOf(s, t), log, atom.value, t);
      }
    } else if atom.None? {
      SawSilent(s, move, log);
    } else if move.SetInit? {
      SawIdle(s, move, log + [atom.value]);
    } else {
      SawEffect(s, move, log);
    }
  }

  lemma NothingSeen(t: Tid)
    ensures Saw(PcOf(START, t), Log([]), t)
  {
  }

  lemma {:induction false} SawHolds(moves: seq<Move>, t: Tid)
    ensures Saw(PcOf(Exec(START, moves), t), Log(moves), t)
  {
    hide Step, Saw, AtomOf, Abs, Inv;
    if moves == [] {
      NothingSeen(t);
    } else {
      var front := moves[..|moves| - 1];
      SawHolds(front, t);
      InvHolds(front);
      InterleavingsAreSerial(front);
      SawStep(Exec(START, front), moves[|moves| - 1], Log(front), t);
      assert Log(front) + [] == Log(front);
    }
  }

  // ---------- exactly when what was seen is no longer true ----------

  // A section that a thread has in front of it or has entered, and that has yet to take effect.
  predicate AheadOf(pc: Pc) {
    pc.Waiting? || pc.Entered? || pc.Checked?
  }

  /**
   When a request is about to register the callback again, the client is not registered exactly when it has been
   unregistered since the request looked, with no registration after that.
   */
  lemma ReregistersUnregistered(moves: seq<Move>, t: Tid)
    requires AheadOf(PcOf(Exec(START, moves), t)) && PcOf(Exec(START, moves), t).section.Reregister?
    ensures var n := Behind(Log(moves), t, IsPeek);
      && n > 0
      && (!Abs(Exec(START, moves)).link.registered <==> UnregisteredSince(Log(moves), n))
  {
    hide Step, Abs, Log, ApplyAll;
    SawHolds(moves, t);
    InterleavingsAreSerial(moves);
    UnregisteredIsExact(Log(moves), Behind(Log(moves), t, IsPeek));
  }

  /**
   When a request is about to check the pointer and send, the pointer is null exactly when the connection has been lost
   since the request found or made it, with no connection after that.
   */
  lemma SendsWithoutConnection(moves: seq<Move>, t: Tid)
    requires AheadOf(PcOf(Exec(START, moves), t))
    requires PcOf(Exec(START, moves), t).op.RequestOp? && PcOf(Exec(START, moves), t).section.Forward?
    ensures var n := Behind(Log(moves), t, IsLook);
      && n > 0
      && (Abs(Exec(START, moves)).link.service.None? <==> Lost(Log(moves), n))
  {
    hide Step, Abs, Log, ApplyAll;
    SawHolds(moves, t);
    InterleavingsAreSerial(moves);
    LostIsExact(Log(moves), Behind(Log(moves), t, IsLook));
  }

  /**
   When the sending section takes effect: nothing is sent if the connection has been lost, and otherwise the request
   reaches the connected process once. The code returned says which.
   */
  lemma RequestOutcome(moves: seq<Move>, move: Move)
    requires var atom := AtomOf(Exec(START, moves), move);
      atom.Some? && atom.value.Ran? && atom.value.section.Forward? && PcOf(Exec(START, moves), move.t).op.RequestOp?
    ensures var atom := AtomOf(Exec(START, moves), move).value;
      var sys, next := Abs(Exec(START, moves)), Abs(Exec(START, moves + [move]));
      if Lost(Log(moves), Behind(Log(moves), move.t, IsLook)) then
        next == sys && ResultCode(atom.section, sys, atom.offered) == LocalPtrNull
      else
        && sys.link.service.Some?
        && next == sys.(sent := sys.sent + [(sys.link.service.value, atom.section.request)])
        && ResultCode(atom.section, sys, atom.offered)
           == Reply(sys.epochs, sys.link.service.value, atom.offered)
  {
    hide Abs, Log, Lost;
    var s := Exec(START, moves);
    assert (moves + [move])[..|moves|] == moves;
    InvHolds(moves);
    NumbersHold(moves);
    SerialStep(s, move);
    SendsWithoutConnection(moves, move.t);
    SendsOnce(Abs(s), AtomOf(s, move).value);
  }

  lemma SendsOnce(sys: System, atom: Atom)
    requires atom.Ran? && atom.section.Forward?
    ensures if sys.link.service.None? then
        Apply(sys, atom) == sys && ResultCode(atom.section, sys, atom.offered) == LocalPtrNull
      else
        && Apply(sys, atom) == sys.(sent := sys.sent + [(sys.link.service.value, atom.section.request)])
        && ResultCode(atom.section, sys, atom.offered)
           == Reply(sys.epochs, sys.link.service.value, atom.offered)
  {
  }
}
