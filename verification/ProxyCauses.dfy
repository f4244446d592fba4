/**
 What can go wrong between the sections of a method, traced back to the calls that other threads have made in the
 meantime, and to the codes that they and the service have returned.
 */
module ProxyCauses {
  import opened TelephonyBase
  import opened ProxySections
  import opened ProxyThreads
  import opened ProxySerial
  import Deaths = ProxyDeaths
  import Runs = ProxyRuns

  // ---------- the last section of a thread ----------

  predicate IsOf(atom: Atom, t: Tid) {
    atom.Ran? && atom.t == t
  }

  /** The position in a log behind the last section of a thread. */
  function Since(log: seq<Atom>, t: Tid): (n: nat)
    ensures n <= |log| && (n > 0 ==> IsOf(log[n - 1], t))
    ensures forall k :: n <= k < |log| ==> !IsOf(log[k], t)
  {
    if log == [] then 0
    else if IsOf(log[|log| - 1], t) then |log|
    else Since(log[..|log| - 1], t)
  }

  lemma SinceNext(log: seq<Atom>, atom: Atom, t: Tid)
    ensures Since(log + [atom], t) == if IsOf(atom, t) then |log| + 1 else Since(log, t)
  {
    assert (log + [atom])[..|log|] == log;
  }

  // The last section of the thread is an unregistration.
  predicate HasUnregistered(log: seq<Atom>, t: Tid) {
    var n := Since(log, t);
    n > 0 && log[n - 1].section.Unregister?
  }

  // The last section of the thread is a connection, and then there was one.
  predicate HasConnected(log: seq<Atom>, t: Tid) {
    var n := Since(log, t);
    n > 0 && log[n - 1].section.Connect? && ApplyAll(log[..n]).link.service.Some?
  }

  predicate BeforeClear(pc: Pc) {
    (pc.Waiting? || pc.Entered?) && pc.section.Clear?
  }

  /** What a thread has done last when it is in the middle of disconnecting or initialising. */
  predicate Stands(pc: Pc, log: seq<Atom>, t: Tid) {
    && (BeforeClear(pc) || ((pc.Called? || pc.Leaving?) && pc.section.Unregister?) ==> HasUnregistered(log, t))
    && (Pending(pc) && pc.section.Clear? ==> pc.op.UnInitOp?)
    && (Pending(pc) && pc.op.InitOp? ==> pc.section.Connect?)
    && (pc.Leaving? && pc.op.InitOp? && ResultCode(pc.section, pc.at, Success) == Success ==> HasConnected(log, t))
    && (pc == SettingInit(true) ==> HasConnected(log, t))
  }

  // Others do not change what a thread has done last.
  lemma StandsOther(pc: Pc, log: seq<Atom>, atom: Atom, t: Tid)
    requires Stands(pc, log, t) && !IsOf(atom, t)
    ensures Stands(pc, log + [atom], t)
  {
    hide ApplyAll, ResultCode;
    SinceNext(log, atom, t);
    var n := Since(log, t);
    assert (log + [atom])[..n] == log[..n];
  }

  // A thread that moves without a section taking effect.
  lemma StandsSilent(s: State, move: Move, log: seq<Atom>)
    requires !move.ServiceStarts? && !move.ServiceDies?
    requires ThreadInv(s, move.t) && AtomOf(s, move).None? && Stands(PcOf(s, move.t), log, move.t)
    ensures Stands(PcOf(Step(s, move), move.t), log, move.t)
  {
    hide Before, Creates, Serve, ProxySections.After, HasUnregistered, HasConnected, Dead;
  }

  lemma ConnectWorks(sys: System, section: Section)
    requires section.Connect? && ResultCode(section, sys, Success) == Success
    ensures Run(section, sys, Success).link.service.Some?
  {
  }

  // A thread whose section takes effect when it makes its checks.
  lemma StandsCheck(s: State, t: Tid, log: seq<Atom>)
    requires ThreadInv(s, t) && Abs(s) == ApplyAll(log) && Stands(PcOf(s, t), log, t)
    requires PcOf(s, t).Entered? && Target(PcOf(s, t).section, s.sys.link).None?
    ensures Stands(PcOf(CheckStep(s, t), t), log + [Ran(t, PcOf(s, t).section, Success)], t)
  {
    hide Before, Creates, ResultCode, Run, Target;
    var pc := PcOf(s, t);
    var all := log + [Ran(t, pc.section, Success)];
    SinceNext(log, Ran(t, pc.section, Success), t);
    assert all[..|all|] == all && all[..|log|] == log;
    if pc.section.Connect? && ResultCode(pc.section, s.sys, Success) == Success {
      ConnectWorks(s.sys, pc.section);
    }
  }

  // A thread whose section takes effect at its call or at its last writes.
  lemma StandsLater(pc: Pc, next: Pc, log: seq<Atom>, atom: Atom, t: Tid)
    requires Stands(pc, log, t) && IsOf(atom, t)
    requires pc.Checked? || pc.Called?
    requires next.Called? || next.Leaving?
    requires next.op == pc.op && next.section == pc.section == atom.section && !pc.section.Connect?
    ensures Stands(next, log + [atom], t)
  {
    hide ApplyAll, ResultCode;
    SinceNext(log, atom, t);
  }

  lemma StandsEffect(s: State, move: Move, log: seq<Atom>)
    requires !move.ServiceStarts? && !move.ServiceDies? && !move.SetInit?
    requires ThreadInv(s, move.t) && Abs(s) == ApplyAll(log) && Stands(PcOf(s, move.t), log, move.t)
    requires AtomOf(s, move).Some?
    ensures Stands(PcOf(Step(s, move), move.t), log + [AtomOf(s, move).value], move.t)
  {
    hide Before, Creates, Serve, ProxySections.After, Stands, Abs, ApplyAll, CheckStep;
    var pc := PcOf(s, move.t);
    if pc.Entered? {
      StandsCheck(s, move.t, log);
    } else {
      if pc.Checked? {
        TargetKept(pc.section, pc.at);
      }
      StandsLater(pc, PcOf(Step(s, move), move.t), log, AtomOf(s, move).value, move.t);
    }
  }

  lemma StandsStep(s: State, move: Move, log: seq<Atom>, t: Tid)
    requires Inv(s) && Abs(s) == ApplyAll(log) && Stands(PcOf(s, t), log, t)
    ensures var atom := AtomOf(s, move);
      Stands(PcOf(Step(s, move), t), if atom.Some? then log + [atom.value] else log, t)
  {
    hide ThreadInv, Abs, ApplyAll, Stands, CheckStep, CallStep, CommitStep, AcquireStep, ReleaseStep, PcOf;
    var atom := AtomOf(s, move);
    if move.ServiceStarts? || move.ServiceDies? || move.t != t {
      PcKept(s, move, t);
      if atom.Some? {
        StandsOther(PcOf(s, t), log, atom.value, t);
      }
    } else if atom.None? {
      StandsSilent(s, move, log);
    } else if move.SetInit? {
      StandsIdle(s, move, log + [atom.value]);
    } else {
      StandsEffect(s, move, log);
    }
  }

  lemma StandsIdle(s: State, move: Move, log: seq<Atom>)
    requires move.SetInit? && PcOf(s, move.t).SettingInit?
    ensures Stands(PcOf(Step(s, move), move.t), log, move.t)
  {
  }

  lemma PcKept(s: State, move: Move, t: Tid)
    requires move.ServiceStarts? || move.ServiceDies? || move.t != t
    ensures PcOf(Step(s, move), t) == PcOf(s, t)
  {
    hide Before, Creates, Serve, ProxySections.After, Next, Target;
  }

  lemma NothingStands(t: Tid)
    ensures Stands(PcOf(START, t), Log([]), t)
  {
  }

  lemma {:induction false} StandsHolds(moves: seq<Move>, t: Tid)
    ensures Stands(PcOf(Exec(START, moves), t), Log(moves), t)
  {
    hide Step, Stands, AtomOf, Abs, Inv;
    if moves == [] {
      NothingStands(t);
    } else {
      var front := moves[..|moves| - 1];
      StandsHolds(front, t);
      InvHolds(front);
      InterleavingsAreSerial(front);
      StandsStep(Exec(START, front), moves[|moves| - 1], Log(front), t);
      assert Log(front) + [] == Log(front);
    }
  }

  // ---------- why a client is registered ----------

  // A registration that was reported as a success.
  predicate Registers(sys: System, atom: Atom) {
    atom.Ran? && atom.section.Register? && ResultCode(atom.section, sys, atom.offered) == Success
  }

  // An unregistration that was reported as a success, or the noticed death of the connected process.
  predicate Unregisters(sys: System, atom: Atom) {
    atom.Ran? && (
      || (atom.section.Unregister? && ResultCode(atom.section, sys, atom.offered) == Success)
      || (atom.section.Died? && sys.link.service == Some(atom.section.notice)))
  }

  // An unregistration that was reported as a failure, other than that there was nothing to unregister.
  predicate FailsToUnregister(sys: System, atom: Atom) {
    && atom.Ran? && atom.section.Unregister?
    && ResultCode(atom.section, sys, atom.offered) !in {Success, RegisterCallbackFail}
  }

  lemma RegisteredAfter(sys: System, atom: Atom)
    ensures Apply(sys, atom).link.registered <==>
      Registers(sys, atom) || (sys.link.registered && !Unregisters(sys, atom))
    ensures atom.Ran? && atom.section.Unregister? ==>
      (Apply(sys, atom).link.registered <==> FailsToUnregister(sys, atom))
  {
  }

  /**
   The section at position c is to blame that the client is still registered: it is the thread's own unregistration,
   which has failed, or a later registration by another thread, which has succeeded; and nothing has unregistered the
   client since.
   */
  predicate Blamed(log: seq<Atom>, c: nat, t: Tid) {
    && c < |log|
    && (if c < Since(log, t) then c + 1 == Since(log, t) && FailsToUnregister(ApplyAll(log[..c]), log[c])
        else Registers(ApplyAll(log[..c]), log[c]))
    && forall j :: c < j < |log| ==> !Unregisters(ApplyAll(log[..j]), log[j])
  }

  ghost predicate SomethingToBlame(log: seq<Atom>, t: Tid) {
    exists c :: Blamed(log, c, t)
  }

  lemma BlameNext(log: seq<Atom>, atom: Atom, c: nat, t: Tid)
    requires !IsOf(atom, t) && c < |log|
    ensures Blamed(log + [atom], c, t) <==> Blamed(log, c, t) && !Unregisters(ApplyAll(log), atom)
  {
    hide ApplyAll, Registers, Unregisters, FailsToUnregister;
    var all := log + [atom];
    SinceNext(log, atom, t);
    assert all[..|log|] == log && all[|log|] == atom;
    assert forall j :: 0 <= j < |log| ==> all[..j] == log[..j] && all[j] == log[j];
  }

  lemma {:induction false} BlameIsExact(log: seq<Atom>, t: Tid)
    requires HasUnregistered(log, t)
    ensures ApplyAll(log).link.registered <==> SomethingToBlame(log, t)
  {
    hide Apply, Registers, Unregisters, FailsToUnregister;
    var front, last := log[..|log| - 1], log[|log| - 1];
    assert log == front + [last];
    RegisteredAfter(ApplyAll(front), last);
    if IsOf(last, t) {
      assert Blamed(log, |log| - 1, t) <==> FailsToUnregister(ApplyAll(front), last);
    } else {
      SinceNext(front, last, t);
      BlameIsExact(front, t);
      assert Blamed(log, |log| - 1, t) <==> Registers(ApplyAll(front), last);
      forall c: nat | c < |front|
        ensures Blamed(log, c, t) <==> Blamed(front, c, t) && !Unregisters(ApplyAll(front), last)
      {
        BlameNext(front, last, c, t);
      }
    }
  }

  /**
   When a thread stands before clearing the connection, the client is registered exactly when the thread's own
   unregistration has failed or another thread has registered since.
   */
  lemma RegisteredBeforeClear(moves: seq<Move>, t: Tid)
    requires BeforeClear(PcOf(Exec(START, moves), t))
    ensures HasUnregistered(Log(moves), t)
    ensures Abs(Exec(START, moves)).link.registered <==> SomethingToBlame(Log(moves), t)
  {
    hide Step, Abs, Log;
    StandsHolds(moves, t);
    InterleavingsAreSerial(moves);
    BlameIsExact(Log(moves), t);
  }

  // At this move a thread clears the connection although something has gone wrong since it began to disconnect.
  ghost predicate DisconnectsRegistered(moves: seq<Move>, move: Move) {
    var atom := AtomOf(Exec(START, moves), move);
    atom.Some? && atom.value.Ran? && atom.value.section.Clear? && SomethingToBlame(Log(moves), atom.value.t)
  }

  lemma ClearsAreBlamed(moves: seq<Move>, move: Move)
    ensures ClearsRegisteredAfter(moves, move) <==> DisconnectsRegistered(moves, move)
  {
    hide Step, Abs, Log, SomethingToBlame;
    var atom := AtomOf(Exec(START, moves), move);
    if atom.Some? && atom.value.Ran? && atom.value.section.Clear? {
      InvHolds(moves);
      assert ThreadInv(Exec(START, moves), move.t);
      RegisteredBeforeClear(moves, move.t);
    }
  }

  /**
   In an interleaving, the client and the service agree all along exactly when no thread clears the connection after
   its own unregistration has failed, or after another thread's registration has succeeded in between, unless an
   unregistration or a noticed death has followed.
   */
  lemma AgreementAndItsCauses(moves: seq<Move>)
    ensures (forall n :: 0 <= n <= |moves| ==> AgreesAfter(moves[..n]))
      <==> (forall k :: 0 <= k < |moves| ==> !DisconnectsRegistered(moves[..k], moves[k]))
  {
    hide AgreesAfter, ClearsRegisteredAfter, DisconnectsRegistered;
    InterleavedAgreement(moves);
    forall k | 0 <= k < |moves|
      ensures ClearsRegisteredAfter(moves[..k], moves[k]) <==> DisconnectsRegistered(moves[..k], moves[k])
    {
      ClearsAreBlamed(moves[..k], moves[k]);
    }
  }

  // ---------- why a client is not registered any more ----------

  /** At position c, not before n, the client was unregistered, and no registration has followed. */
  predicate UnregisteredAt(log: seq<Atom>, n: nat, c: nat) {
    && n <= c < |log| && Unregisters(ApplyAll(log[..c]), log[c])
    && forall j :: c < j < |log| ==> !Registers(ApplyAll(log[..j]), log[j])
  }

  ghost predicate UnregisteredSince(log: seq<Atom>, n: nat) {
    exists c :: UnregisteredAt(log, n, c)
  }

  lemma UnregisteredNext(log: seq<Atom>, atom: Atom, n: nat, c: nat)
    requires c < |log|
    ensures UnregisteredAt(log + [atom], n, c) <==> UnregisteredAt(log, n, c) && !Registers(ApplyAll(log), atom)
  {
    hide ApplyAll, Registers, Unregisters;
    var all := log + [atom];
    assert all[..|log|] == log && all[|log|] == atom;
    assert forall j :: 0 <= j < |log| ==> all[..j] == log[..j] && all[j] == log[j];
  }

  /** A client that was registered at some point is not any more exactly when it was unregistered since. */
  lemma {:induction false} UnregisteredIsExact(log: seq<Atom>, n: nat)
    requires n <= |log| && ApplyAll(log[..n]).link.registered
    ensures !ApplyAll(log).link.registered <==> UnregisteredSince(log, n)
  {
    hide Apply, Registers, Unregisters;
    if n == |log| {
      assert log[..n] == log;
    } else {
      var front, last := log[..|log| - 1], log[|log| - 1];
      assert log == front + [last] && front[..n] == log[..n];
      UnregisteredIsExact(front, n);
      RegisteredAfter(ApplyAll(front), last);
      NotBoth(ApplyAll(front), last);
      assert UnregisteredAt(log, n, |log| - 1) <==> Unregisters(ApplyAll(front), last);
      forall c: nat | c < |front|
        ensures UnregisteredAt(log, n, c) <==> UnregisteredAt(front, n, c) && !Registers(ApplyAll(front), last)
      {
        UnregisteredNext(front, last, n, c);
      }
    }
  }

  lemma NotBoth(sys: System, atom: Atom)
    ensures !(Registers(sys, atom) && Unregisters(sys, atom))
    ensures !(Connecting(sys, atom) && Disconnecting(sys, atom))
  {
  }

  // ---------- why there is no connection any more ----------

  // A connection that was reported as a success.
  predicate Connecting(sys: System, atom: Atom) {
    atom.Ran? && atom.section.Connect? && ResultCode(atom.section, sys, Success) == Success
  }

  // Clearing the connection, or the noticed death of the connected process.
  predicate Disconnecting(sys: System, atom: Atom) {
    atom.Ran? && (atom.section.Clear? || (atom.section.Died? && sys.link.service == Some(atom.section.notice)))
  }

  lemma ConnectedAfter(sys: System, atom: Atom)
    ensures Apply(sys, atom).link.service.None? <==>
      !Connecting(sys, atom) && (sys.link.service.None? || Disconnecting(sys, atom))
  {
  }

  /** At position c, not before n, the connection was lost, and no connection has followed. */
  predicate LostAt(log: seq<Atom>, n: nat, c: nat) {
    && n <= c < |log| && Disconnecting(ApplyAll(log[..c]), log[c])
    && forall j :: c < j < |log| ==> !Connecting(ApplyAll(log[..j]), log[j])
  }

  ghost predicate Lost(log: seq<Atom>, n: nat) {
    exists c :: LostAt(log, n, c)
  }

  lemma LostNext(log: seq<Atom>, atom: Atom, n: nat, c: nat)
    requires c < |log|
    ensures LostAt(log + [atom], n, c) <==> LostAt(log, n, c) && !Connecting(ApplyAll(log), atom)
  {
    hide ApplyAll, Connecting, Disconnecting;
    var all := log + [atom];
    assert all[..|log|] == log && all[|log|] == atom;
    assert forall j :: 0 <= j < |log| ==> all[..j] == log[..j] && all[j] == log[j];
  }

  /** A client that was connected at some point is not any more exactly when the connection was lost since. */
  lemma {:induction false} LostIsExact(log: seq<Atom>, n: nat)
    requires n <= |log| && ApplyAll(log[..n]).link.service.Some?
    ensures ApplyAll(log).link.service.None? <==> Lost(log, n)
  {
    hide Apply, Connecting, Disconnecting;
    if n == |log| {
      assert log[..n] == log;
    } else {
      var front, last := log[..|log| - 1], log[|log| - 1];
      assert log == front + [last] && front[..n] == log[..n];
      LostIsExact(front, n);
      ConnectedAfter(ApplyAll(front), last);
      NotBoth(ApplyAll(front), last);
      assert LostAt(log, n, |log| - 1) <==> Disconnecting(ApplyAll(front), last);
      forall c: nat | c < |front|
        ensures LostAt(log, n, c) <==> LostAt(front, n, c) && !Connecting(ApplyAll(front), last)
      {
        LostNext(front, last, n, c);
      }
    }
  }

  // ---------- agreement and what follows from it ----------

  lemma AgreesBefore(moves: seq<Move>, n: nat)
    requires n <= |moves|
    requires forall k :: 0 <= k < n ==> !DisconnectsRegistered(moves[..k], moves[k])
    ensures AgreesAfter(moves[..n]) && forall t :: PendingInv(Exec(START, moves[..n]), t)
  {
    hide AgreesAfter, ClearsRegisteredAfter, DisconnectsRegistered, PendingInv;
    forall k | 0 <= k < n
      ensures !ClearsRegisteredAfter(moves[..k], moves[k])
    {
      ClearsAreBlamed(moves[..k], moves[k]);
    }
    AgreementAlong(moves, n);
  }

  predicate IsReregistration(atom: Atom) {
    atom.Ran? && atom.section.Reregister?
  }

  lemma NoneAtMove(moves: seq<Move>, move: Move)
    requires forall t :: PendingInv(Exec(START, moves), t)
    ensures var atom := AtomOf(Exec(START, moves), move);
      atom.Some? ==> !IsReregistration(atom.value)
  {
    if !move.ServiceStarts? && !move.ServiceDies? {
      assert PendingInv(Exec(START, moves), move.t);
    }
  }

  /** As long as no disconnection has gone wrong, no thread registers the callback again of its own accord. */
  lemma {:induction false} NoReregistration(moves: seq<Move>)
    requires forall k :: 0 <= k < |moves| - 1 ==> !DisconnectsRegistered(moves[..k], moves[k])
    ensures forall i :: 0 <= i < |Log(moves)| ==> !IsReregistration(Log(moves)[i])
  {
    hide DisconnectsRegistered, IsReregistration, AtomOf, Step, PendingInv, AgreesAfter;
    if moves != [] {
      var front := moves[..|moves| - 1];
      forall k | 0 <= k < |front|
        ensures !DisconnectsRegistered(front[..k], front[k])
      {
        assert front[..k] == moves[..k];
      }
      NoReregistration(front);
      AgreesBefore(moves, |front|);
      NoneAtMove(front, moves[|moves| - 1]);
    }
  }

  /**
   In an interleaving in which no disconnection has gone wrong: when a notice drops the connection to a process, no live
   process holds a callback from then on until a thread registers one.
   */
  lemma DeathEndsRegistration(moves: seq<Move>, k: nat, e: EpochId)
    requires forall i :: 0 <= i < |moves| ==> !DisconnectsRegistered(moves[..i], moves[i])
    requires Deaths.Drops(Log(moves), k, e)
    requires forall j :: k < j < |Log(moves)| ==> !Registers(ApplyAll(Log(moves)[..j]), Log(moves)[j])
    ensures var sys := Abs(Exec(START, moves));
      && Runs.Agree(sys) && !sys.link.registered
      && forall d :: 0 <= d < |sys.epochs| && sys.epochs[d].alive ==> sys.epochs[d].callbacks == []
  {
    hide DisconnectsRegistered, Log, Step, Abs, PendingInv, ApplyAll;
    AgreesBefore(moves, |moves|);
    assert moves[..|moves|] == moves;
    InterleavingsAreSerial(moves);
    StaysUnregistered(Log(moves), k, |Log(moves)|, e);
    assert Log(moves)[..|Log(moves)|] == Log(moves);
  }

  lemma {:induction false} StaysUnregistered(log: seq<Atom>, k: nat, n: nat, e: EpochId)
    requires Deaths.Drops(log, k, e) && k < n <= |log|
    requires forall j :: k < j < n ==> !Registers(ApplyAll(log[..j]), log[j])
    ensures !ApplyAll(log[..n]).link.registered
  {
    hide Apply, Registers, Unregisters;
    assert log[..n] == log[..n - 1] + [log[n - 1]];
    Deaths.ApplyMore(log[..n - 1], log[n - 1]);
    RegisteredAfter(ApplyAll(log[..n - 1]), log[n - 1]);
    if n == k + 1 {
      NoticeUnregisters(ApplyAll(log[..k]), log[k], e);
    } else {
      StaysUnregistered(log, k, n - 1, e);
    }
  }

  lemma NoticeUnregisters(sys: System, atom: Atom, e: EpochId)
    requires Deaths.IsNotice(atom, e) && sys.link.service == Some(e)
    ensures Unregisters(sys, atom) && !Registers(sys, atom)
  {
  }
}
