/**
 Any number of threads inside the call manager proxy, one step at a time. A method is a chain of critical
 sections; each section acquires the reader/writer lock, makes its checks, may call the service, writes what is
 left to write, and releases the lock. Between any two steps other threads run and processes start and die.
 */
module ProxyThreads {
  import opened TelephonyBase
  import opened ProxySections
  import Runs = ProxyRuns

  datatype Op =
    | RegisterOp(created: bool)
    | UnregisterOp
    | InitOp(answer: ConnectAnswer)
    | UnInitOp
    | RequestOp(request: Request, answer: ConnectAnswer, sawRegistered: bool)
    | ObserverOp(request: Request)
    | DeathOp(notice: EpochId)

  /**
   Where a thread is. From Checked on, `at` is what the thread found when it made its checks. It stands for the local
   copies and the result codes by which a method decides on its next section; otherwise it is kept to state properties.
   */
  datatype Pc =
    | Idle
    | Waiting(op: Op, section: Section)
    | Entered(op: Op, section: Section, found: Link)
    | Checked(op: Op, section: Section, at: System)
    | Called(op: Op, section: Section, at: System, e: EpochId, code: Code)
    | Leaving(op: Op, section: Section, at: System, code: Code)
    | SettingInit(value: bool)

  datatype State = State(
    sys: System,
    writer: Option<Tid>,
    readers: set<Tid>,
    threads: map<Tid, Pc>,
    nullCall: bool)

  function PcOf(s: State, t: Tid): Pc {
    if t in s.threads then s.threads[t] else Idle
  }

  predicate Inside(pc: Pc) {
    pc.Entered? || pc.Checked? || pc.Called? || pc.Leaving?
  }

  function FirstSection(op: Op): Section {
    match op
    case RegisterOp(created) => Register(created)
    case UnregisterOp => Unregister
    case InitOp(answer) => Connect(answer)
    case UnInitOp => Unregister
    case RequestOp(_, _, _) => Peek
    case ObserverOp(request) => Forward(request)
    case DeathOp(notice) => Died(notice)
  }

  /** What the method does after one of its sections. */
  function Next(op: Op, section: Section, at: System): Pc {
    match op
    case InitOp(answer) => if ResultCode(section, at, Success) == Success then SettingInit(true) else Idle
    case UnInitOp => if section.Unregister? then Waiting(op, Clear) else SettingInit(false)
    case RequestOp(request, answer, saw) =>
      if section.Forward? then Idle
      else if section.Peek? && at.link.service.None? then
        Waiting(op.(sawRegistered := at.link.registered), Connect(answer))
      else if section.Connect? && ResultCode(section, at, Success) != Success then Idle
      else if section.Connect? && saw then Waiting(op, Reregister)
      else Waiting(op, Forward(request))
    case _ => Idle
  }

  datatype Move =
    | Begin(t: Tid, op: Op)
    | Acquire(t: Tid)
    | Check(t: Tid)
    | Call(t: Tid, offered: Code)
    | Commit(t: Tid)
    | Release(t: Tid)
    | SetInit(t: Tid)
    | ServiceStarts
    | ServiceDies(e: EpochId)

  function At(s: State, t: Tid, pc: Pc): State {
    s.(threads := s.threads[t := pc])
  }

  // A death is noticed after it has happened, at any time and any number of times.
  predicate Dead(sys: System, e: EpochId) {
    e < |sys.epochs| && !sys.epochs[e].alive
  }

  predicate Startable(op: Op, sys: System) {
    (op.InitOp? ==> !sys.initialised) && (op.DeathOp? ==> Dead(sys, op.notice))
  }

  // A step that is not enabled leaves the state as it is.
  function Step(s: State, move: Move): State {
    match move
    case Begin(t, op) =>
      if PcOf(s, t) != Idle || !Startable(op, s.sys) then s
      else At(s, t, Waiting(op, FirstSection(op)))
    case Acquire(t) => AcquireStep(s, t)
    case Check(t) => CheckStep(s, t)
    case Call(t, offered) => CallStep(s, t, offered)
    case Commit(t) => CommitStep(s, t)
    case Release(t) => ReleaseStep(s, t)
    case SetInit(t) =>
      var pc := PcOf(s, t);
      if pc.SettingInit? then At(s.(sys := s.sys.(initialised := pc.value)), t, Idle) else s
    case ServiceStarts => s.(sys := s.sys.(epochs := s.sys.epochs + [Epoch(true, [])]))
    case ServiceDies(e) =>
      if e < |s.sys.epochs| then
        s.(sys := s.sys.(epochs := s.sys.epochs[e := s.sys.epochs[e].(alive := false)]))
      else s
  }

  function AcquireStep(s: State, t: Tid): State {
    var pc := PcOf(s, t);
    if !pc.Waiting? || s.writer.Some? then s
    else if !IsExclusive(pc.section) then
      At(s.(readers := s.readers + {t}), t, Entered(pc.op, pc.section, s.sys.link))
    else if s.readers == {} then
      At(s.(writer := Some(t)), t, Entered(pc.op, pc.section, s.sys.link))
    else s
  }

  function CheckStep(s: State, t: Tid): State {
    var pc := PcOf(s, t);
    if !pc.Entered? then s
    else
      var sys := s.sys.(
        link := Before(pc.section, s.sys.link, s.sys.epochs, s.sys.nextCallback),
        nextCallback :=
          if Creates(pc.section, s.sys.link) then s.sys.nextCallback + 1 else s.sys.nextCallback);
      var pc' := if Target(pc.section, s.sys.link).Some? then Checked(pc.op, pc.section, s.sys)
                 else Leaving(pc.op, pc.section, s.sys, Success);
      At(s.(sys := sys), t, pc')
  }

  // The call goes through the pointer as it is now, whatever the check has seen.
  function CallStep(s: State, t: Tid, offered: Code): State {
    var pc := PcOf(s, t);
    if !pc.Checked? then s
    else if s.sys.link.service.None? then s.(nullCall := true)
    else
      var e := s.sys.link.service.value;
      var code := Reply(s.sys.epochs, e, offered);
      var sys := s.sys.(
        epochs := Serve(pc.section, s.sys.link, s.sys.epochs, e, code),
        sent := if pc.section.Forward? then s.sys.sent + [(e, pc.section.request)] else s.sys.sent);
      At(s.(sys := sys), t, Called(pc.op, pc.section, pc.at, e, code))
  }

  function CommitStep(s: State, t: Tid): State {
    var pc := PcOf(s, t);
    if !pc.Called? then s
    else
      var sys := s.sys.(
        link := ProxySections.After(pc.section, s.sys.link, pc.e, pc.code),
        initialised := s.sys.initialised && !(pc.section.Died? && pc.section.notice == pc.e));
      At(s.(sys := sys), t, Leaving(pc.op, pc.section, pc.at, pc.code))
  }

  function ReleaseStep(s: State, t: Tid): State {
    var pc := PcOf(s, t);
    if !pc.Leaving? then s
    else
      At(s.(writer := if IsExclusive(pc.section) then None else s.writer,
            readers := if IsExclusive(pc.section) then s.readers else s.readers - {t}),
         t, Next(pc.op, pc.section, pc.at))
  }

  const START := State(INITIAL, None, {}, map[], false)

  function Exec(s: State, moves: seq<Move>): State {
    if moves == [] then s else Step(Exec(s, moves[..|moves| - 1]), moves[|moves| - 1])
  }

  // ---------- the invariant ----------

  /** What a whole section makes of the fields under the lock, given what it found and what it was answered. */
  function LinkEffect(section: Section, at: System, code: Code): Link {
    var link := Before(section, at.link, at.epochs, at.nextCallback);
    match Target(section, at.link)
    case None => link
    case Some(e) => ProxySections.After(section, link, e, code)
  }

  predicate Holding(s: State, t: Tid, section: Section) {
    if IsExclusive(section) then s.writer == Some(t) && s.readers == {} else t in s.readers && s.writer.None?
  }

  predicate ThreadInv(s: State, t: Tid) {
    var pc := PcOf(s, t);
    && (Inside(pc) ==> Holding(s, t, pc.section))
    && (t in s.readers ==> Inside(pc) && !IsExclusive(pc.section))
    && (s.writer == Some(t) ==> Inside(pc) && IsExclusive(pc.section))
    && match pc
       case Entered(_, section, found) => s.sys.link == found
       case Checked(_, section, at) =>
         && Target(section, at.link).Some?
         && s.sys.link == Before(section, at.link, at.epochs, at.nextCallback)
       case Called(_, section, at, e, _) =>
         && Target(section, at.link) == Some(e)
         && s.sys.link == Before(section, at.link, at.epochs, at.nextCallback)
       case Leaving(_, section, at, code) => s.sys.link == LinkEffect(section, at, code)
       case _ => true
  }

  ghost predicate Inv(s: State) {
    !s.nullCall && forall t :: ThreadInv(s, t)
  }

  // The null check that a section makes is still true after its early writes.
  lemma TargetKept(section: Section, at: System)
    requires Target(section, at.link).Some?
    ensures Before(section, at.link, at.epochs, at.nextCallback).service == Target(section, at.link) == at.link.service
  {
  }

  // Two threads are inside at once only as readers.
  lemma Exclusion(s: State, t: Tid, u: Tid)
    requires ThreadInv(s, t) && ThreadInv(s, u) && t != u
    requires Inside(PcOf(s, t)) && Inside(PcOf(s, u))
    ensures !IsExclusive(PcOf(s, t).section) && !IsExclusive(PcOf(s, u).section)
  {
  }

  lemma OwnStep(s: State, move: Move, t: Tid)
    requires Inv(s) && !move.ServiceStarts? && !move.ServiceDies? && move.t == t
    ensures ThreadInv(Step(s, move), t) && !Step(s, move).nullCall
  {
    assert ThreadInv(s, t);
    var pc := PcOf(s, t);
    if pc.Checked? {
      TargetKept(pc.section, pc.at);
    }
  }

  lemma OtherStep(s: State, move: Move, t: Tid)
    requires Inv(s) && (move.ServiceStarts? || move.ServiceDies? || move.t != t)
    ensures ThreadInv(Step(s, move), t)
    ensures Inside(PcOf(s, t)) ==> Step(s, move).sys.link == s.sys.link
  {
    assert ThreadInv(s, t);
    if !move.ServiceStarts? && !move.ServiceDies? {
      assert ThreadInv(s, move.t);
      if Inside(PcOf(s, t)) && Inside(PcOf(s, move.t)) {
        Exclusion(s, t, move.t);
      }
    }
  }

  lemma InvStep(s: State, move: Move)
    requires Inv(s)
    ensures Inv(Step(s, move))
  {
    hide Step, ThreadInv;
    forall t: Tid
      ensures ThreadInv(Step(s, move), t)
    {
      if move.ServiceStarts? || move.ServiceDies? || move.t != t {
        OtherStep(s, move, t);
      } else {
        OwnStep(s, move, t);
      }
    }
    NoNullCallStep(s, move);
  }

  lemma NoNullCallStep(s: State, move: Move)
    requires Inv(s)
    ensures !Step(s, move).nullCall
  {
    if !move.ServiceStarts? && !move.ServiceDies? {
      OwnStep(s, move, move.t);
    }
  }

  lemma {:induction false} InvHolds(moves: seq<Move>)
    ensures Inv(Exec(START, moves))
  {
    hide Step;
    if moves != [] {
      InvHolds(moves[..|moves| - 1]);
      InvStep(Exec(START, moves[..|moves| - 1]), moves[|moves| - 1]);
    }
  }

  // ---------- what holds in every interleaving ----------

  /** No method of the service is ever called through a null pointer. */
  lemma NeverCallsNull(moves: seq<Move>)
    ensures !Exec(START, moves).nullCall
  {
    hide Step;
    InvHolds(moves);
  }

  /** Between its null check and its call, a thread can rely on the pointer it has checked. */
  lemma CheckedPointerIsCurrent(moves: seq<Move>, t: Tid)
    ensures var s := Exec(START, moves);
      PcOf(s, t).Checked? ==>
        && s.sys.link.service.Some?
        && s.sys.link.service == Target(PcOf(s, t).section, PcOf(s, t).at.link)
  {
    hide Step;
    InvHolds(moves);
    var s := Exec(START, moves);
    assert ThreadInv(s, t);
    if PcOf(s, t).Checked? {
      TargetKept(PcOf(s, t).section, PcOf(s, t).at);
    }
  }

  /** While a thread is inside a section, no step of another thread changes the fields under the lock. */
  lemma InsideIsUndisturbed(moves: seq<Move>, move: Move, t: Tid)
    requires Inside(PcOf(Exec(START, moves), t))
    requires move.ServiceStarts? || move.ServiceDies? || move.t != t
    ensures Exec(START, moves + [move]).sys.link == Exec(START, moves).sys.link
  {
    hide Step;
    InvHolds(moves);
    OtherStep(Exec(START, moves), move, t);
    assert (moves + [move])[..|moves|] == moves;
  }

  // ---------- uninterrupted sections ----------

  // A section with no call skips the third and fourth move: they are not enabled.
  function TurnMoves(t: Tid, offered: Code): seq<Move> {
    [Acquire(t), Check(t), Call(t, offered), Commit(t), Release(t)]
  }

  function Turn(s: State, t: Tid, offered: Code): State {
    ReleaseStep(CommitStep(CallStep(CheckStep(AcquireStep(s, t), t), t, offered), t), t)
  }

  function Locked(s: State, t: Tid, section: Section): State {
    if IsExclusive(section) then s.(writer := Some(t)) else s.(readers := s.readers + {t})
  }

  function Checking(section: Section, sys: System): System {
    sys.(link := Before(section, sys.link, sys.epochs, sys.nextCallback),
         nextCallback := if Creates(section, sys.link) then sys.nextCallback + 1 else sys.nextCallback)
  }

  lemma AtTwice(s: State, t: Tid, a: Pc, b: Pc)
    ensures At(At(s, t, a), t, b) == At(s, t, b)
  {
    assert s.threads[t := a][t := b] == s.threads[t := b];
  }

  lemma TurnEnters(s: State, t: Tid, op: Op, section: Section)
    requires PcOf(s, t) == Waiting(op, section) && s.writer.None? && s.readers == {}
    ensures CheckStep(AcquireStep(s, t), t)
      == At(Locked(s, t, section).(sys := Checking(section, s.sys)), t,
           if Target(section, s.sys.link).Some? then Checked(op, section, s.sys)
           else Leaving(op, section, s.sys, Success))
  {
    hide Before, Target, Creates;
    var locked := Locked(s, t, section);
    var entered := Entered(op, section, s.sys.link);
    assert AcquireStep(s, t) == At(locked, t, entered);
    var pc := if Target(section, s.sys.link).Some? then Checked(op, section, s.sys)
      else Leaving(op, section, s.sys, Success);
    AtTwice(locked.(sys := Checking(section, s.sys)), t, entered, pc);
  }

  lemma TurnCalls(s: State, t: Tid, op: Op, section: Section, at: System, offered: Code)
    requires s.sys == Checking(section, at) && Target(section, at.link).Some?
    ensures CommitStep(CallStep(At(s, t, Checked(op, section, at)), t, offered), t)
      == At(s.(sys := Run(section, at, offered)), t,
           Leaving(op, section, at, Reply(at.epochs, Target(section, at.link).value, offered)))
  {
    hide Before, Target, Creates, Serve, ProxySections.After;
    TargetKept(section, at);
    var e := Target(section, at.link).value;
    var code := Reply(at.epochs, e, offered);
    var checked := At(s, t, Checked(op, section, at));
    var called := CallStep(checked, t, offered);
    AtTwice(s.(sys := called.sys), t, Checked(op, section, at), Called(op, section, at, e, code));
    assert called == At(s.(sys := called.sys), t, Called(op, section, at, e, code));
    var committed := CommitStep(called, t);
    AtTwice(s.(sys := committed.sys), t, Called(op, section, at, e, code), Leaving(op, section, at, code));
  }

  lemma TurnLeaves(s: State, t: Tid, op: Op, section: Section, at: System, sys: System, code: Code)
    requires s.writer.None? && s.readers == {}
    ensures ReleaseStep(At(Locked(s, t, section).(sys := sys), t, Leaving(op, section, at, code)), t)
      == At(s.(sys := sys), t, Next(op, section, at))
  {
    hide Next;
    assert s.readers + {t} - {t} == s.readers;
    AtTwice(s.(sys := sys), t, Leaving(op, section, at, code), Next(op, section, at));
  }

  /** A thread that is alone runs a section exactly as the model of whole methods says. */
  lemma TurnRunsSection(s: State, t: Tid, offered: Code)
    requires PcOf(s, t).Waiting? && s.writer.None? && s.readers == {}
    ensures var pc := PcOf(s, t);
      Turn(s, t, offered) == At(s.(sys := Run(pc.section, s.sys, offered)), t, Next(pc.op, pc.section, s.sys))
  {
    hide Before, Target, Creates, Next, Serve, ProxySections.After, AcquireStep, CheckStep, ReleaseStep;
    var Waiting(op, section) := PcOf(s, t);
    TurnEnters(s, t, op, section);
    var locked := Locked(s, t, section);
    var code := Success;
    if Target(section, s.sys.link).Some? {
      TurnCalls(locked.(sys := Checking(section, s.sys)), t, op, section, s.sys, offered);
      code := Reply(s.sys.epochs, Target(section, s.sys.link).value, offered);
    }
    TurnLeaves(s, t, op, section, s.sys, Run(section, s.sys, offered), code);
  }

  lemma {:induction false} ExecConcat(s: State, a: seq<Move>, b: seq<Move>)
    ensures Exec(s, a + b) == Exec(Exec(s, a), b)
  {
    hide Step;
    if b == [] {
      assert a + b == a;
    } else {
      assert (a + b)[..|a + b| - 1] == a + b[..|b| - 1];
      ExecConcat(s, a, b[..|b| - 1]);
    }
  }

  lemma ExecOne(s: State, move: Move)
    ensures Exec(s, [move]) == Step(s, move)
  {
    assert Exec(s, [move][..0]) == s;
  }

  lemma ExecTurn(s: State, t: Tid, offered: Code)
    ensures Exec(s, TurnMoves(t, offered)) == Turn(s, t, offered)
  {
    hide AcquireStep, CheckStep, CallStep, CommitStep, ReleaseStep;
    var m := TurnMoves(t, offered);
    assert m[..5] == m && m[..5][..4] == m[..4] && m[..4][..3] == m[..3] && m[..3][..2] == m[..2];
    assert m[..2][..1] == m[..1] && m[..1] == [m[0]];
    ExecOne(s, m[0]);
    assert Exec(s, m[..2]) == Step(Exec(s, m[..1]), m[1]);
    assert Exec(s, m[..3]) == Step(Exec(s, m[..2]), m[2]);
    assert Exec(s, m[..4]) == Step(Exec(s, m[..3]), m[3]);
    assert Exec(s, m[..5]) == Step(Exec(s, m[..4]), m[4]);
  }

  // ---------- where whole methods are not atomic ----------

  const CONNECTING: seq<Move> :=
    [ServiceStarts, Begin(0, InitOp(Found(0)))] + TurnMoves(0, Success) + [SetInit(0), Begin(1, UnInitOp)]

  const RACE: seq<Move> :=
    CONNECTING + TurnMoves(1, Success) + [Begin(2, RegisterOp(true))] + TurnMoves(2, Success)
    + TurnMoves(1, Success)

  lemma ExecSection(s: State, t: Tid, offered: Code)
    requires PcOf(s, t).Waiting? && s.writer.None? && s.readers == {}
    ensures var pc := PcOf(s, t);
      Exec(s, TurnMoves(t, offered))
        == At(s.(sys := Run(pc.section, s.sys, offered)), t, Next(pc.op, pc.section, s.sys))
  {
    hide Turn, Run, Next, TurnMoves;
    ExecTurn(s, t, offered);
    TurnRunsSection(s, t, offered);
  }

  lemma ExecTwo(s: State, a: Move, b: Move)
    ensures Exec(s, [a, b]) == Step(Step(s, a), b)
  {
    hide Step;
    assert [a] + [b] == [a, b];
    ExecConcat(s, [a], [b]);
    ExecOne(s, a);
    ExecOne(Step(s, a), b);
  }

  // The service is up and thread 0 has connected to it.
  const UP := System(Link(Some(0), None, false), true, [Epoch(true, [])], 0, [])

  lemma RaceConnects()
    ensures Exec(START, CONNECTING)
      == State(UP, None, {}, map[0 := Idle, 1 := Waiting(UnInitOp, Unregister)], false)
  {
    var starts := [ServiceStarts, Begin(0, InitOp(Found(0)))];
    ExecTwo(START, starts[0], starts[1]);
    var started := Exec(START, starts);
    assert INITIAL.epochs + [Epoch(true, [])] == [Epoch(true, [])];
    assert started == At(START.(sys := INITIAL.(epochs := [Epoch(true, [])])), 0,
      Waiting(InitOp(Found(0)), Connect(Found(0))));
    ExecSection(started, 0, Success);
    ExecConcat(START, starts, TurnMoves(0, Success));
    var connected := Exec(START, starts + TurnMoves(0, Success));
    assert connected.threads == map[0 := SettingInit(true)];
    ExecTwo(connected, SetInit(0), Begin(1, UnInitOp));
    ExecConcat(START, starts + TurnMoves(0, Success), [SetInit(0), Begin(1, UnInitOp)]);
  }

  lemma RaceRegisters(s: State)
    requires s == State(UP, None, {}, map[0 := Idle, 1 := Waiting(UnInitOp, Unregister)], false)
    ensures Exec(s, TurnMoves(1, Success) + [Begin(2, RegisterOp(true))])
      == State(UP, None, {},
           map[0 := Idle, 1 := Waiting(UnInitOp, Clear), 2 := Waiting(RegisterOp(true), Register(true))], false)
  {
    ExecSection(s, 1, Success);
    var unregistered := Exec(s, TurnMoves(1, Success));
    assert unregistered == s.(threads := map[0 := Idle, 1 := Waiting(UnInitOp, Clear)]);
    ExecConcat(s, TurnMoves(1, Success), [Begin(2, RegisterOp(true))]);
    ExecOne(unregistered, Begin(2, RegisterOp(true)));
  }

  lemma RaceClears(s: State)
    requires s == State(UP, None, {},
      map[0 := Idle, 1 := Waiting(UnInitOp, Clear), 2 := Waiting(RegisterOp(true), Register(true))], false)
    ensures var t := Exec(s, TurnMoves(2, Success) + TurnMoves(1, Success)).sys;
      t.link == Link(None, Some(0), true) && t.epochs == [Epoch(true, [0])]
  {
    ExecSection(s, 2, Success);
    var registered := Exec(s, TurnMoves(2, Success));
    var none: seq<CallbackId> := [];
    assert none + [0] == [0] && [Epoch(true, none)][0 := Epoch(true, [0])] == [Epoch(true, [0])];
    ExecSection(registered, 1, Success);
    ExecConcat(s, TurnMoves(2, Success), TurnMoves(1, Success));
  }

  /**
   Thread 1 disconnects; between its two sections thread 2 registers a callback. Every call to the service
   succeeds, yet the client ends up registered without a connection, and the service keeps the callback.
   */
  lemma RaceLosesAgreement()
    ensures var s := Exec(START, RACE).sys;
      s.link == Link(None, Some(0), true) && s.epochs == [Epoch(true, [0])] && !Runs.Agree(s)
    ensures forall k :: 0 <= k < |RACE| && RACE[k].Call? ==> RACE[k].offered == Success
  {
    hide Step, TurnMoves;
    RaceConnects();
    var s := Exec(START, CONNECTING);
    RaceRegisters(s);
    var first := TurnMoves(1, Success) + [Begin(2, RegisterOp(true))];
    var second := TurnMoves(2, Success) + TurnMoves(1, Success);
    RaceClears(Exec(s, first));
    ExecConcat(s, first, second);
    ExecConcat(START, CONNECTING, first + second);
    assert RACE == CONNECTING + (first + second);
    AllSucceed();
  }

  lemma AllSucceed()
    ensures forall k :: 0 <= k < |RACE| && RACE[k].Call? ==> RACE[k].offered == Success
  {
  }
}
