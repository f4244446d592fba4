/**
 Methods that run alone in the interleaved model: the chain of sections that a thread goes through amounts to the method
 of the model of whole methods.
 */
module ProxyAlone {
  import opened TelephonyBase
  import opened ProxySections
  import opened ProxyThreads
  import CallManagerProxies
  import Runs = ProxyRuns

  // ---------- runs put together of uninterrupted sections ----------

  predicate Quiet(s: State) {
    s.writer.None? && s.readers == {}
  }

  ghost predicate OthersStay(s: State, n: State, t: Tid) {
    forall u :: u != t ==> PcOf(n, u) == PcOf(s, u)
  }

  predicate BeginsRegister(move: Move) {
    move.Begin? && move.op.RegisterOp?
  }

  ghost predicate NoRegister(moves: seq<Move>) {
    forall k :: 0 <= k < |moves| ==> !BeginsRegister(moves[k])
  }

  lemma Turned(start: State, moves: seq<Move>, t: Tid, offered: Code) returns (more: seq<Move>)
    requires var s := Exec(start, moves);
      Quiet(s) && PcOf(s, t).Waiting?
    ensures var s, n := Exec(start, moves), Exec(start, more);
      && Quiet(n) && OthersStay(s, n, t)
      && n.sys == Run(PcOf(s, t).section, s.sys, offered)
      && PcOf(n, t) == Next(PcOf(s, t).op, PcOf(s, t).section, s.sys)
    ensures NoRegister(moves) ==> NoRegister(more)
  {
    hide Run, Next, Exec;
    more := moves + TurnMoves(t, offered);
    ExecConcat(start, moves, TurnMoves(t, offered));
    ExecSection(Exec(start, moves), t, offered);
  }

  lemma Moved(start: State, moves: seq<Move>, move: Move) returns (more: seq<Move>)
    ensures Exec(start, more) == Step(Exec(start, moves), move)
    ensures NoRegister(moves) && !BeginsRegister(move) ==> NoRegister(more)
  {
    hide Step, Exec;
    more := moves + [move];
    ExecConcat(start, moves, [move]);
    ExecOne(Exec(start, moves), move);
  }

  lemma Began(start: State, moves: seq<Move>, t: Tid, op: Op) returns (more: seq<Move>)
    requires var s := Exec(start, moves);
      Quiet(s) && PcOf(s, t).Idle? && Startable(op, s.sys)
    ensures var s, n := Exec(start, moves), Exec(start, more);
      && Quiet(n) && OthersStay(s, n, t)
      && n.sys == s.sys && PcOf(n, t) == Waiting(op, FirstSection(op))
    ensures NoRegister(moves) && !op.RegisterOp? ==> NoRegister(more)
  {
    hide Exec, NoRegister;
    more := Moved(start, moves, Begin(t, op));
  }

  lemma Flagged(start: State, moves: seq<Move>, t: Tid) returns (more: seq<Move>)
    requires var s := Exec(start, moves);
      Quiet(s) && PcOf(s, t).SettingInit?
    ensures var s, n := Exec(start, moves), Exec(start, more);
      && Quiet(n) && OthersStay(s, n, t)
      && n.sys == s.sys.(initialised := PcOf(s, t).value) && PcOf(n, t).Idle?
  {
    hide Exec, NoRegister;
    more := Moved(start, moves, SetInit(t));
  }

  lemma Changed(start: State, moves: seq<Move>, move: Move) returns (more: seq<Move>)
    requires Quiet(Exec(start, moves)) && (move.ServiceStarts? || move.ServiceDies?)
    ensures var s, n := Exec(start, moves), Exec(start, more);
      && Quiet(n) && (forall u :: PcOf(n, u) == PcOf(s, u))
      && n.sys == s.sys.(epochs :=
           if move.ServiceStarts? then s.sys.epochs + [Epoch(true, [])]
           else if move.e < |s.sys.epochs| then s.sys.epochs[move.e := s.sys.epochs[move.e].(alive := false)]
           else s.sys.epochs)
    ensures NoRegister(moves) ==> NoRegister(more)
  {
    hide Exec, NoRegister;
    more := Moved(start, moves, move);
  }

  // ---------- a thread that is alone ----------

  // A thread that is not in a section and has none in front of it.
  predicate Resting(pc: Pc) {
    pc.Idle? || pc.SettingInit?
  }

  /** Every section that a method can need, the raising or lowering of the flag, and nothing of other threads. */
  function AloneMoves(t: Tid, op: Op, a: Code, b: Code, c: Code, d: Code): seq<Move> {
    [Begin(t, op)] + (TurnMoves(t, a) + (TurnMoves(t, b) + (TurnMoves(t, c) + (TurnMoves(t, d) + [SetInit(t)]))))
  }

  /** The method call that an operation stands for, when its sections are offered these codes. */
  function EventOf(op: Op, s: System, a: Code, b: Code, c: Code, d: Code): Runs.Event {
    match op
    case RegisterOp(created) => Runs.RegisterCalled(created, a)
    case UnregisterOp => Runs.UnRegisterCalled(a)
    case InitOp(answer) => Runs.InitCalled(answer)
    case UnInitOp => Runs.UnInitCalled(a)
    case RequestOp(request, answer, _) =>
      if s.link.service.Some? then Runs.RequestCalled(request, answer, Success, b)
      else if s.link.registered then Runs.RequestCalled(request, answer, c, d)
      else Runs.RequestCalled(request, answer, Success, c)
    case ObserverOp(request) => Runs.ObserverCalled(request, a)
    case DeathOp(notice) => Runs.DeathNoticed(Some(notice))
  }

  // Where a thread that is alone is, and what the state has become.
  datatype View = View(sys: System, pc: Pc)

  ghost predicate Sees(s: State, n: State, t: Tid, view: View) {
    Quiet(n) && OthersStay(s, n, t) && n.sys == view.sys && PcOf(n, t) == view.pc
  }

  function BeginView(view: View, op: Op): View {
    if view.pc.Idle? && Startable(op, view.sys) then view.(pc := Waiting(op, FirstSection(op))) else view
  }

  function TurnView(view: View, offered: Code): View {
    if view.pc.Waiting? then
      View(Run(view.pc.section, view.sys, offered), Next(view.pc.op, view.pc.section, view.sys))
    else view
  }

  function EndView(view: View): View {
    if view.pc.SettingInit? then View(view.sys.(initialised := view.pc.value), Idle) else view
  }

  lemma BeginSees(s: State, t: Tid, op: Op)
    requires Quiet(s)
    ensures Sees(s, Exec(s, [Begin(t, op)]), t, BeginView(View(s.sys, PcOf(s, t)), op))
  {
    hide Exec;
    ExecOne(s, Begin(t, op));
  }

  lemma TurnSees(s: State, n: State, t: Tid, view: View, offered: Code)
    requires Sees(s, n, t, view) && (view.pc.Waiting? || Resting(view.pc))
    ensures Sees(s, Exec(n, TurnMoves(t, offered)), t, TurnView(view, offered))
  {
    hide Exec, Run, Next;
    if view.pc.Waiting? {
      ExecSection(n, t, offered);
    } else {
      RestingTurn(n, t, offered);
    }
  }

  lemma RestingTurn(s: State, t: Tid, offered: Code)
    requires Resting(PcOf(s, t))
    ensures Exec(s, TurnMoves(t, offered)) == s
  {
    ExecTurn(s, t, offered);
  }

  lemma EndSees(s: State, n: State, t: Tid, view: View)
    requires Sees(s, n, t, view) && Resting(view.pc)
    ensures Sees(s, Exec(n, [SetInit(t)]), t, EndView(view))
  {
    hide Exec;
    ExecOne(n, SetInit(t));
  }

  function ViewsOf(view: View, op: Op, a: Code, b: Code, c: Code, d: Code): View {
    TurnView(TurnView(TurnView(TurnView(BeginView(view, op), a), b), c), d)
  }

  // After as many turns, the thread rests; before that it does or has a section in front of it.
  lemma Settles(view: View, op: Op, a: Code, b: Code, c: Code, d: Code)
    requires view.pc.Idle?
    ensures var v1 := BeginView(view, op);
      var v2 := TurnView(v1, a);
      var v3 := TurnView(v2, b);
      var v4 := TurnView(v3, c);
      && (v1.pc.Waiting? || Resting(v1.pc)) && (v2.pc.Waiting? || Resting(v2.pc))
      && (v3.pc.Waiting? || Resting(v3.pc)) && (v4.pc.Waiting? || Resting(v4.pc))
      && Resting(TurnView(v4, d).pc)
  {
    hide Run, ResultCode;
  }

  lemma AloneSees(s: State, t: Tid, op: Op, a: Code, b: Code, c: Code, d: Code)
    requires Quiet(s) && PcOf(s, t).Idle?
    ensures Sees(s, Exec(s, AloneMoves(t, op, a, b, c, d)), t, EndView(ViewsOf(View(s.sys, Idle), op, a, b, c, d)))
  {
    hide Exec, TurnMoves, TurnView, BeginView, EndView, Sees, Resting;
    var m, n, p, q := TurnMoves(t, a), TurnMoves(t, b), TurnMoves(t, c), TurnMoves(t, d);
    var end := [SetInit(t)];
    var s1 := Exec(s, [Begin(t, op)]);
    var s2, s3 := Exec(s1, m), Exec(Exec(s1, m), n);
    var s4, s5 := Exec(s3, p), Exec(Exec(s3, p), q);
    ExecConcat(s, [Begin(t, op)], m + (n + (p + (q + end))));
    ExecConcat(s1, m, n + (p + (q + end)));
    ExecConcat(s2, n, p + (q + end));
    ExecConcat(s3, p, q + end);
    ExecConcat(s4, q, end);
    var v1 := BeginView(View(s.sys, Idle), op);
    var v2, v3 := TurnView(v1, a), TurnView(TurnView(v1, a), b);
    var v4, v5 := TurnView(v3, c), TurnView(TurnView(v3, c), d);
    Settles(View(s.sys, Idle), op, a, b, c, d);
    BeginSees(s, t, op);
    TurnSees(s, s1, t, v1, a);
    TurnSees(s, s2, t, v2, b);
    TurnSees(s, s3, t, v3, c);
    TurnSees(s, s4, t, v4, d);
    EndSees(s, s5, t, v5);
  }

  // ---------- the chain of sections is the method ----------

  // Sections that call nothing do the same whatever they are offered.
  lemma Silent(sys: System, answer: ConnectAnswer, offered: Code)
    ensures Run(Connect(answer), sys, offered) == Run(Connect(answer), sys, Success)
    ensures Run(Clear, sys, offered) == Run(Clear, sys, Success)
    ensures Run(Peek, sys, offered) == sys
  {
  }

  lemma Notice(sys: System, notice: EpochId, offered: Code)
    ensures Run(Died(notice), sys, offered) == Run(Died(notice), sys, Success)
  {
  }

  lemma ConnectByAnswer(sys: System, answer: ConnectAnswer)
    ensures (ResultCode(Connect(answer), sys, Success) == Success) == CallManagerProxies.ReConnects(sys, answer)
    ensures !CallManagerProxies.ReConnects(sys, answer) ==> Run(Connect(answer), sys, Success) == sys
    ensures CallManagerProxies.ReConnects(sys, answer) <==> sys.link.service.Some? || Connects(answer, sys.epochs)
  {
  }

  lemma OneSection(sys: System, op: Op, a: Code, b: Code, c: Code, d: Code)
    requires op.RegisterOp? || op.UnregisterOp? || op.ObserverOp? || op.DeathOp?
    requires Startable(op, sys)
    ensures EndView(ViewsOf(View(sys, Idle), op, a, b, c, d))
      == View(Runs.Step(sys, EventOf(op, sys, a, b, c, d)), Idle)
  {
    hide Run;
    if op.DeathOp? {
      Notice(sys, op.notice, a);
    }
  }

  lemma InitSections(sys: System, op: Op, a: Code, b: Code, c: Code, d: Code)
    requires op.InitOp?
    ensures EndView(ViewsOf(View(sys, Idle), op, a, b, c, d))
      == View(Runs.Step(sys, EventOf(op, sys, a, b, c, d)), Idle)
  {
    hide Run, ResultCode;
    Silent(sys, op.answer, a);
    ConnectByAnswer(sys, op.answer);
  }

  lemma UnInitSections(sys: System, op: Op, a: Code, b: Code, c: Code, d: Code)
    requires op.UnInitOp?
    ensures EndView(ViewsOf(View(sys, Idle), op, a, b, c, d))
      == View(Runs.Step(sys, EventOf(op, sys, a, b, c, d)), Idle)
  {
    hide Run, ResultCode;
    Silent(Run(Unregister, sys, a), NoManager, b);
  }

  lemma LookView(sys: System, request: Request, answer: ConnectAnswer, saw: bool, a: Code)
    ensures TurnView(BeginView(View(sys, Idle), RequestOp(request, answer, saw)), a)
      == if sys.link.service.Some? then View(sys, Waiting(RequestOp(request, answer, saw), Forward(request)))
         else View(sys, Waiting(RequestOp(request, answer, sys.link.registered), Connect(answer)))
  {
    hide Run, ResultCode;
    Silent(sys, answer, a);
  }

  lemma ConnectView(sys: System, request: Request, answer: ConnectAnswer, saw: bool, b: Code)
    ensures TurnView(View(sys, Waiting(RequestOp(request, answer, saw), Connect(answer))), b) ==
      if !CallManagerProxies.ReConnects(sys, answer) then View(sys, Idle)
      else View(Run(Connect(answer), sys, Success),
             Waiting(RequestOp(request, answer, saw), if saw then Reregister else Forward(request)))
  {
    hide Run, ResultCode, CallManagerProxies.ReConnects;
    Silent(sys, answer, b);
    ConnectByAnswer(sys, answer);
  }

  lemma ReregisterView(sys: System, request: Request, answer: ConnectAnswer, saw: bool, x: Code)
    ensures TurnView(View(sys, Waiting(RequestOp(request, answer, saw), Reregister)), x)
      == View(Run(Reregister, sys, x), Waiting(RequestOp(request, answer, saw), Forward(request)))
  {
    hide Run, ResultCode;
  }

  lemma ForwardView(sys: System, request: Request, answer: ConnectAnswer, saw: bool, x: Code)
    ensures TurnView(View(sys, Waiting(RequestOp(request, answer, saw), Forward(request))), x)
      == View(Run(Forward(request), sys, x), Idle)
  {
    hide Run, ResultCode;
  }

  lemma IdleView(sys: System, x: Code)
    ensures TurnView(View(sys, Idle), x) == View(sys, Idle)
  {
  }

  // With a connection, a request looks and sends.
  lemma ConnectedViews(sys: System, request: Request, answer: ConnectAnswer, saw: bool, a: Code, b: Code, c: Code,
      d: Code)
    requires sys.link.service.Some?
    ensures ViewsOf(View(sys, Idle), RequestOp(request, answer, saw), a, b, c, d)
      == View(Run(Forward(request), sys, b), Idle)
  {
    hide Run, TurnView, BeginView;
    LookView(sys, request, answer, saw, a);
    ForwardView(sys, request, answer, saw, b);
    IdleView(Run(Forward(request), sys, b), c);
    IdleView(Run(Forward(request), sys, b), d);
  }

  // Without one that can be made, it gives up.
  lemma UnconnectedViews(sys: System, request: Request, answer: ConnectAnswer, saw: bool, a: Code, b: Code, c: Code,
      d: Code)
    requires sys.link.service.None? && !CallManagerProxies.ReConnects(sys, answer)
    ensures ViewsOf(View(sys, Idle), RequestOp(request, answer, saw), a, b, c, d) == View(sys, Idle)
  {
    hide Run, TurnView, BeginView, CallManagerProxies.ReConnects;
    LookView(sys, request, answer, saw, a);
    ConnectView(sys, request, answer, sys.link.registered, b);
    IdleView(sys, c);
    IdleView(sys, d);
  }

  // If one can be made, it is, and the request is sent, after a registration if the flag is up.
  lemma ReconnectedViews(sys: System, request: Request, answer: ConnectAnswer, saw: bool, a: Code, b: Code, c: Code,
      d: Code)
    requires sys.link.service.None? && CallManagerProxies.ReConnects(sys, answer)
    ensures var connected := Run(Connect(answer), sys, Success);
      ViewsOf(View(sys, Idle), RequestOp(request, answer, saw), a, b, c, d) == View(
        if sys.link.registered then Run(Forward(request), Run(Reregister, connected, c), d)
        else Run(Forward(request), connected, c),
        Idle)
  {
    hide Run, TurnView, BeginView, CallManagerProxies.ReConnects;
    LookView(sys, request, answer, saw, a);
    ConnectView(sys, request, answer, sys.link.registered, b);
    var connected := Run(Connect(answer), sys, Success);
    if sys.link.registered {
      ReregisterView(connected, request, answer, true, c);
      ForwardView(Run(Reregister, connected, c), request, answer, true, d);
    } else {
      ForwardView(connected, request, answer, false, c);
      IdleView(Run(Forward(request), connected, c), d);
    }
  }

  lemma StepOfRequest(sys: System, request: Request, answer: ConnectAnswer, reoffered: Code, offered: Code)
    ensures var n := Runs.Step(sys, Runs.RequestCalled(request, answer, reoffered, offered));
      n == CallManagerProxies.RequestStep(sys, request, answer, reoffered, offered)
  {
    hide CallManagerProxies.RequestStep;
  }

  lemma MethodByCase(sys: System, request: Request, answer: ConnectAnswer, reoffered: Code, offered: Code)
    ensures CallManagerProxies.RequestStep(sys, request, answer, reoffered, offered) ==
      if !CallManagerProxies.ReConnects(sys, answer) then sys
      else if sys.link.service.Some? then Run(Forward(request), sys, offered)
      else
        var connected := Run(Connect(answer), sys, Success);
        Run(Forward(request), if sys.link.registered then Run(Reregister, connected, reoffered) else connected, offered)
    ensures sys.link.service.Some? ==> CallManagerProxies.ReConnects(sys, answer)
  {
    hide Run;
  }

  lemma RequestSections(sys: System, request: Request, answer: ConnectAnswer, saw: bool, a: Code, b: Code, c: Code,
      d: Code)
    ensures ViewsOf(View(sys, Idle), RequestOp(request, answer, saw), a, b, c, d)
      == View(Runs.Step(sys, EventOf(RequestOp(request, answer, saw), sys, a, b, c, d)), Idle)
  {
    hide Run, ViewsOf, Runs.Step, CallManagerProxies.RequestStep, CallManagerProxies.ReConnects;
    var event := EventOf(RequestOp(request, answer, saw), sys, a, b, c, d);
    StepOfRequest(sys, request, answer, event.reoffered, event.offered);
    MethodByCase(sys, request, answer, event.reoffered, event.offered);
    if sys.link.service.Some? {
      ConnectedViews(sys, request, answer, saw, a, b, c, d);
    } else if CallManagerProxies.ReConnects(sys, answer) {
      ReconnectedViews(sys, request, answer, saw, a, b, c, d);
    } else {
      UnconnectedViews(sys, request, answer, saw, a, b, c, d);
    }
  }

  /**
   For every operation: a thread that begins it in a quiet state, and is alone until it rests again, leaves what the
   call of the whole method leaves, whatever codes its sections are offered; and the other threads are where they were.
   */
  lemma AloneRunsMethod(s: State, t: Tid, op: Op, a: Code, b: Code, c: Code, d: Code)
    requires Quiet(s) && PcOf(s, t).Idle?
    requires op.DeathOp? ==> op.notice < |s.sys.epochs| && !s.sys.epochs[op.notice].alive
    ensures var n := Exec(s, AloneMoves(t, op, a, b, c, d));
      && Quiet(n) && OthersStay(s, n, t) && PcOf(n, t).Idle?
      && n.sys == Runs.Step(s.sys, EventOf(op, s.sys, a, b, c, d))
  {
    hide Exec, AloneMoves, ViewsOf, Runs.Step;
    AloneSees(s, t, op, a, b, c, d);
    match op
    case InitOp(_) => InitSections(s.sys, op, a, b, c, d);
    case UnInitOp => UnInitSections(s.sys, op, a, b, c, d);
    case RequestOp(request, answer, saw) => RequestSections(s.sys, request, answer, saw, a, b, c, d);
    case _ => OneSection(s.sys, op, a, b, c, d);
  }

  lemma RequestAlone(s: State, t: Tid, request: Request, answer: ConnectAnswer, saw: bool, a: Code, b: Code, c: Code,
      d: Code) returns (reoffered: Code, offered: Code)
    requires Quiet(s) && PcOf(s, t).Idle?
    ensures Exec(s, AloneMoves(t, RequestOp(request, answer, saw), a, b, c, d)).sys
      == CallManagerProxies.RequestStep(s.sys, request, answer, reoffered, offered)
  {
    hide AloneMoves, Exec, ViewsOf, EventOf, OthersStay, Runs.Step, CallManagerProxies.RequestStep;
    AloneSees(s, t, RequestOp(request, answer, saw), a, b, c, d);
    RequestSections(s.sys, request, answer, saw, a, b, c, d);
    reoffered, offered := RequestEvent(s.sys, request, answer, saw, a, b, c, d);
    StepOfRequest(s.sys, request, answer, reoffered, offered);
  }

  lemma RequestEvent(sys: System, request: Request, answer: ConnectAnswer, saw: bool, a: Code, b: Code, c: Code,
      d: Code)
    returns (reoffered: Code, offered: Code)
    ensures EventOf(RequestOp(request, answer, saw), sys, a, b, c, d)
      == Runs.RequestCalled(request, answer, reoffered, offered)
  {
    var event := EventOf(RequestOp(request, answer, saw), sys, a, b, c, d);
    reoffered, offered := event.reoffered, event.offered;
  }

  /** A request that runs alone reaches the current process, or the one it connects to, once; or it sends nothing. */
  lemma AloneRequestSends(s: State, t: Tid, request: Request, answer: ConnectAnswer, saw: bool, a: Code, b: Code,
      c: Code, d: Code)
    requires Quiet(s) && PcOf(s, t).Idle?
    ensures var n, link := Exec(s, AloneMoves(t, RequestOp(request, answer, saw), a, b, c, d)).sys, s.sys.link;
      if link.service.Some? then n.sent == s.sys.sent + [(link.service.value, request)]
      else if answer.Found? && answer.epoch < |s.sys.epochs| && s.sys.epochs[answer.epoch].alive then
        n.sent == s.sys.sent + [(answer.epoch, request)] && n.link.service == Some(answer.epoch)
      else n == s.sys
  {
    hide AloneMoves, Exec, CallManagerProxies.RequestStep;
    var reoffered, offered := RequestAlone(s, t, request, answer, saw, a, b, c, d);
    SendsOnce(s.sys, request, answer, reoffered, offered);
  }

  lemma SendsOnce(sys: System, request: Request, answer: ConnectAnswer, reoffered: Code, offered: Code)
    ensures var n := CallManagerProxies.RequestStep(sys, request, answer, reoffered, offered);
      if sys.link.service.Some? then n.sent == sys.sent + [(sys.link.service.value, request)]
      else if answer.Found? && answer.epoch < |sys.epochs| && sys.epochs[answer.epoch].alive then
        n.sent == sys.sent + [(answer.epoch, request)] && n.link.service == Some(answer.epoch)
      else n == sys
  {
    hide Run;
    CallManagerProxies.ReConnectFacts(sys, answer, reoffered);
    CallManagerProxies.ForwardFacts(CallManagerProxies.ReConnectStep(sys, answer, reoffered), request, offered);
  }

  // ---------- the chain of sections between threads ----------

  /**
   In every interleaving, what a thread does after a section of a request, by what it finds when it leaves the section:
   it sends if there is a connection, unless it has just made it with the flag seen up; then it registers first.
   */
  lemma RequestChain(moves: seq<Move>, t: Tid)
    requires PcOf(Exec(START, moves), t).Leaving? && PcOf(Exec(START, moves), t).op.RequestOp?
    ensures var s := Exec(START, moves);
      var pc, link := PcOf(s, t), s.sys.link;
      var next := PcOf(Exec(START, moves + [Release(t)]), t);
      && (pc.section.Peek? && link.service.Some? ==> next == Waiting(pc.op, Forward(pc.op.request)))
      && (pc.section.Peek? && link.service.None? ==>
            next == Waiting(pc.op.(sawRegistered := link.registered), Connect(pc.op.answer)))
      && (pc.section.Connect? && link.service.None? ==> next == Idle)
      && (pc.section.Connect? && link.service.Some? && pc.op.sawRegistered ==> next == Waiting(pc.op, Reregister))
      && (pc.section.Connect? && link.service.Some? && !pc.op.sawRegistered ==>
            next == Waiting(pc.op, Forward(pc.op.request)))
      && (pc.section.Reregister? ==> next == Waiting(pc.op, Forward(pc.op.request)))
      && (pc.section.Forward? ==> next == Idle)
  {
    hide Exec;
    InvHolds(moves);
    var s := Exec(START, moves);
    assert ThreadInv(s, t);
    ExecConcat(START, moves, [Release(t)]);
    ExecOne(s, Release(t));
  }

  /** The lock is shared by the sections that only read: they enter while others read, and all other sections wait. */
  lemma LockAdmits(s: State, t: Tid)
    requires PcOf(s, t).Waiting? && s.writer.None?
    ensures PcOf(Step(s, Acquire(t)), t).Entered? <==>
      s.readers == {} || PcOf(s, t).section.Peek? || PcOf(s, t).section.Forward?
  {
  }
}
