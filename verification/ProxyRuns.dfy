/**
 Whole runs of the call manager proxy: any sequence of method calls, of service processes starting and dying,
 and of death notices, which arrive at any time after a death and any number of times.
 */
module ProxyRuns {
  import opened TelephonyBase
  import opened ProxySections
  import opened CallManagerProxies

  datatype Event =
    | InitCalled(answer: ConnectAnswer)
    | UnInitCalled(offered: Code)
    | RegisterCalled(created: bool, offered: Code)
    | UnRegisterCalled(offered: Code)
    | RequestCalled(request: Request, answer: ConnectAnswer, reoffered: Code, offered: Code)
    | ObserverCalled(request: Request, offered: Code)
    | DeathNoticed(notice: Option<EpochId>)
    | ServiceStarts
    | ServiceDies(epoch: EpochId)

  function Step(s: System, event: Event): System {
    match event
    case InitCalled(answer) => InitStep(s, answer)
    case UnInitCalled(offered) => UnInitStep(s, offered)
    case RegisterCalled(created, offered) => Run(Register(created), s, offered)
    case UnRegisterCalled(offered) => Run(Unregister, s, offered)
    case RequestCalled(request, answer, reoffered, offered) => RequestStep(s, request, answer, reoffered, offered)
    case ObserverCalled(request, offered) => Run(Forward(request), s, offered)
    case DeathNoticed(notice) =>
      if notice.Some? && Alive(s.epochs, notice.value) then s else DiedStep(s, notice)
    case ServiceStarts => s.(epochs := s.epochs + [Epoch(true, [])])
    case ServiceDies(e) => if e < |s.epochs| then s.(epochs := s.epochs[e := s.epochs[e].(alive := false)]) else s
  }

  function After(events: seq<Event>): System {
    if events == [] then INITIAL else Step(After(events[..|events| - 1]), events[|events| - 1])
  }

  // ---------- the client and the service agree on the registration ----------

  predicate Registered(s: System, e: EpochId) {
    s.link.registered && s.link.service == Some(e)
  }

  /**
   A registered client holds a connection and a callback. Every live service process holds exactly the callback
   that the client believes to be registered with it, once, and nothing left over from earlier.
   */
  ghost predicate Agree(s: System) {
    && (s.link.registered ==> s.link.service.Some? && s.link.callback.Some?)
    && (s.link.service.Some? ==> s.link.service.value < |s.epochs|)
    && (forall e :: 0 <= e < |s.epochs| && s.epochs[e].alive ==>
          s.epochs[e].callbacks == if Registered(s, e) then [s.link.callback.value] else [])
  }

  // Tearing the connection down although the service still holds the callback, or can no longer be asked.
  predicate FailedDisconnect(s: System, event: Event) {
    && event.UnInitCalled? && s.link.registered && s.link.service.Some?
    && !Reply(s.epochs, s.link.service.value, event.offered).Success?
  }

  lemma RegisterAgrees(s: System, created: bool, offered: Code)
    requires Agree(s)
    ensures Agree(Run(Register(created), s, offered))
  {
  }

  lemma UnregisterAgrees(s: System, offered: Code)
    requires Agree(s)
    ensures var t := Run(Unregister, s, offered);
      && Agree(t) && t.link.service == s.link.service
      && (t.link.registered <==> s.link.registered && !Reply(s.epochs, s.link.service.value, offered).Success?)
  {
  }

  lemma ConnectAgrees(s: System, answer: ConnectAnswer)
    requires Agree(s)
    ensures Agree(Run(Connect(answer), s, Success))
    ensures Run(Connect(answer), s, Success).link.registered == s.link.registered
  {
  }

  lemma RequestAgrees(s: System, request: Request, answer: ConnectAnswer, reoffered: Code, offered: Code)
    requires Agree(s)
    ensures Agree(RequestStep(s, request, answer, reoffered, offered))
  {
    ConnectAgrees(s, answer);
    ForwardFacts(ReConnectStep(s, answer, reoffered), request, offered);
  }

  /** From a state of agreement, one event loses it exactly when it is a disconnection of the failing kind. */
  lemma AgreementStep(s: System, event: Event)
    requires Agree(s)
    ensures Agree(Step(s, event)) <==> !FailedDisconnect(s, event)
  {
    match event
    case InitCalled(answer) => ConnectAgrees(s, answer);
    case UnInitCalled(offered) => UnregisterAgrees(s, offered);
    case RegisterCalled(created, offered) => RegisterAgrees(s, created, offered);
    case UnRegisterCalled(offered) => UnregisterAgrees(s, offered);
    case RequestCalled(request, answer, reoffered, offered) =>
      RequestAgrees(s, request, answer, reoffered, offered);
    case ObserverCalled(request, offered) => ForwardFacts(s, request, offered);
    case DeathNoticed(_) =>
    case ServiceStarts =>
    case ServiceDies(_) =>
  }

  lemma AfterPrefix(events: seq<Event>, k: nat)
    requires k < |events|
    ensures After(events[..k + 1]) == Step(After(events[..k]), events[k])
  {
    assert events[..k + 1][..k] == events[..k];
  }

  lemma {:induction false} AgreementAlong(events: seq<Event>, n: nat)
    requires n <= |events|
    requires forall k :: 0 <= k < n ==> !FailedDisconnect(After(events[..k]), events[k])
    ensures Agree(After(events[..n]))
  {
    if n > 0 {
      AgreementAlong(events, n - 1);
      AfterPrefix(events, n - 1);
      AgreementStep(After(events[..n - 1]), events[n - 1]);
    }
  }

  /** The client and the service agree all along a run exactly when no disconnection in it fails. */
  lemma RunAgreement(events: seq<Event>)
    ensures (forall n :: 0 <= n <= |events| ==> Agree(After(events[..n])))
      <==> (forall k :: 0 <= k < |events| ==> !FailedDisconnect(After(events[..k]), events[k]))
  {
    hide Agree, FailedDisconnect, Step;
    if forall k :: 0 <= k < |events| ==> !FailedDisconnect(After(events[..k]), events[k]) {
      forall n | 0 <= n <= |events|
        ensures Agree(After(events[..n]))
      {
        AgreementAlong(events, n);
      }
    } else {
      var k :| 0 <= k < |events| && FailedDisconnect(After(events[..k]), events[k]);
      AfterPrefix(events, k);
      if Agree(After(events[..k])) {
        AgreementStep(After(events[..k]), events[k]);
        assert !Agree(After(events[..k + 1]));
      }
    }
  }

  // ---------- what holds in every run ----------

  predicate Sound(s: System) {
    && (s.link.service.Some? ==> s.link.service.value < |s.epochs|)
    && (s.initialised ==> s.link.service.Some?)
  }

  lemma SoundStep(s: System, event: Event)
    requires Sound(s)
    ensures Sound(Step(s, event))
  {
    if event.RequestCalled? {
      ReConnectFacts(s, event.answer, event.reoffered);
      ForwardFacts(ReConnectStep(s, event.answer, event.reoffered), event.request, event.offered);
    }
  }

  /** The initialised flag is only ever up while there is a connection. */
  lemma {:induction false} InitialisedMeansConnected(events: seq<Event>)
    ensures Sound(After(events))
  {
    if events != [] {
      InitialisedMeansConnected(events[..|events| - 1]);
      SoundStep(After(events[..|events| - 1]), events[|events| - 1]);
    }
  }

  // ---------- death notices ----------

  /** A notice about a process other than the connected one changes nothing. */
  lemma LateNotice(s: System, e: EpochId)
    requires s.link.service != Some(e)
    ensures Step(s, DeathNoticed(Some(e))) == s
  {
  }

  /** So a run does not depend on when, or how often, such notices arrive. */
  lemma {:induction false} LateNoticeInvisible(before: seq<Event>, e: EpochId, later: seq<Event>)
    requires After(before).link.service != Some(e)
    ensures After(before + [DeathNoticed(Some(e))] + later) == After(before + later)
  {
    hide Step;
    var notice := [DeathNoticed(Some(e))];
    if later == [] {
      assert before + notice + later == before + notice && before + later == before;
      assert (before + notice)[..|before|] == before;
      LateNotice(After(before), e);
    } else {
      var front := later[..|later| - 1];
      assert (before + notice + later)[..|before| + |later|] == before + notice + front;
      assert (before + later)[..|before| + |front|] == before + front;
      LateNoticeInvisible(before, e, front);
    }
  }

  predicate Gone(s: System, e: EpochId) {
    e < |s.epochs| && !s.epochs[e].alive && s.link.service != Some(e)
  }

  lemma GoneStep(s: System, e: EpochId, event: Event)
    requires Gone(s, e)
    ensures Gone(Step(s, event), e)
  {
    if event.RequestCalled? {
      ReConnectFacts(s, event.answer, event.reoffered);
      ForwardFacts(ReConnectStep(s, event.answer, event.reoffered), event.request, event.offered);
    }
  }

  // The k-th event is a notice that drops the connection to e.
  predicate Drops(events: seq<Event>, k: nat, e: EpochId) {
    && k < |events| && events[k] == DeathNoticed(Some(e))
    && After(events[..k]).link.service == Some(e) && !Alive(After(events[..k]).epochs, e)
  }

  lemma GoneAtDrop(s: System, e: EpochId)
    requires Sound(s) && s.link.service == Some(e) && !Alive(s.epochs, e)
    ensures Gone(Step(s, DeathNoticed(Some(e))), e)
  {
  }

  lemma {:induction false} GoneAfterDrop(events: seq<Event>, i: nat, n: nat, e: EpochId)
    requires Drops(events, i, e) && i < n <= |events|
    ensures Gone(After(events[..n]), e)
  {
    hide Step, Gone, Sound;
    AfterPrefix(events, n - 1);
    if n == i + 1 {
      InitialisedMeansConnected(events[..i]);
      GoneAtDrop(After(events[..i]), e);
    } else {
      GoneAfterDrop(events, i, n - 1, e);
      GoneStep(After(events[..n - 1]), e, events[n - 1]);
    }
  }

  /** However often a death is noticed, the connection to a process is dropped at most once. */
  lemma DroppedAtMostOnce(events: seq<Event>, i: nat, j: nat, e: EpochId)
    requires Drops(events, i, e) && Drops(events, j, e)
    ensures i == j
  {
    hide Step, After;
    if i < j {
      GoneAfterDrop(events, i, j, e);
    } else if j < i {
      GoneAfterDrop(events, j, i, e);
    }
  }

  lemma StaysUnregistered(s: System, event: Event)
    requires Agree(s) && !s.link.registered && !event.RegisterCalled?
    ensures Agree(Step(s, event)) && !Step(s, event).link.registered
  {
    AgreementStep(s, event);
    if event.RequestCalled? {
      ConnectAgrees(s, event.answer);
      ForwardFacts(ReConnectStep(s, event.answer, event.reoffered), event.request, event.offered);
    }
  }

  lemma DeathAgrees(s: System, e: EpochId)
    requires Agree(s) && s.link.service == Some(e) && !Alive(s.epochs, e)
    ensures Agree(Step(s, DeathNoticed(Some(e)))) && !Step(s, DeathNoticed(Some(e))).link.registered
  {
    AgreementStep(s, DeathNoticed(Some(e)));
  }

  /**
   Of whole methods, from a state of agreement: a noticed death ends the registration, and no live process holds a
   callback again until the client registers one. Module ProxyRevival shows how this fails between threads.
   */
  lemma {:induction false} DeathEndsRegistration(before: seq<Event>, e: EpochId, later: seq<Event>)
    requires Agree(After(before)) && After(before).link.service == Some(e) && !Alive(After(before).epochs, e)
    requires forall k :: 0 <= k < |later| ==> !later[k].RegisterCalled?
    ensures var t := After(before + [DeathNoticed(Some(e))] + later);
      && Agree(t) && !t.link.registered
      && forall d :: 0 <= d < |t.epochs| && t.epochs[d].alive ==> t.epochs[d].callbacks == []
  {
    hide Step;
    var notice := [DeathNoticed(Some(e))];
    var events := before + notice + later;
    if later == [] {
      assert events[..|before|] == before;
      DeathAgrees(After(before), e);
    } else {
      var front := later[..|later| - 1];
      DeathEndsRegistration(before, e, front);
      assert events[..|events| - 1] == before + notice + front;
      StaysUnregistered(After(before + notice + front), later[|later| - 1]);
    }
  }

  // ---------- what a failed disconnection leads to ----------

  const LEAK := [
    ServiceStarts, InitCalled(Found(0)), RegisterCalled(true, Success), UnInitCalled(GeneralError)]

  const LEAKED := System(Link(None, Some(0), true), false, [Epoch(true, [0])], 1, [])

  lemma LeakSteps()
    ensures var started := INITIAL.(epochs := [Epoch(true, [])]);
      var connected := started.(link := Link(Some(0), None, false), initialised := true);
      var registered := System(Link(Some(0), Some(0), true), true, [Epoch(true, [0])], 1, []);
      && Step(INITIAL, LEAK[0]) == started && Step(started, LEAK[1]) == connected
      && Step(connected, LEAK[2]) == registered && Step(registered, LEAK[3]) == LEAKED
  {
    NoneThenOne([], 0);
    assert INITIAL.epochs + [Epoch(true, [])] == [Epoch(true, [])];
    assert [Epoch(true, [])][0 := Epoch(true, [0])] == [Epoch(true, [0])];
  }

  lemma NoneThenOne(callbacks: seq<CallbackId>, callback: CallbackId)
    requires callbacks == []
    ensures callbacks + [callback] == [callback] && (callbacks + [callback])[1..] == callbacks
  {
  }

  lemma LeakState()
    ensures After(LEAK) == LEAKED
  {
    hide Step;
    LeakSteps();
    assert After(LEAK[..0]) == INITIAL;
    AfterPrefix(LEAK, 0);
    AfterPrefix(LEAK, 1);
    AfterPrefix(LEAK, 2);
    AfterPrefix(LEAK, 3);
    assert LEAK[..4] == LEAK;
  }

  lemma AfterLeak(event: Event)
    ensures After(LEAK + [event]) == Step(LEAKED, event)
  {
    hide Step;
    LeakState();
    assert (LEAK + [event])[..|LEAK|] == LEAK;
  }

  /** The next request reconnects and registers the callback a second time with the same process. */
  lemma LeakRegistersTwice()
    ensures var s := After(LEAK + [RequestCalled(7, Found(0), Success, Success)]);
      s.link.registered && s.epochs == [Epoch(true, [0, 0])]
  {
    hide After;
    AfterLeak(RequestCalled(7, Found(0), Success, Success));
    assert [0] + [0] == [0, 0];
    assert [Epoch(true, [0])][0 := Epoch(true, [0, 0])] == [Epoch(true, [0, 0])];
  }

  // The client believes itself registered but has no callback.
  predicate Stuck(s: System) {
    s.link.registered && s.link.callback.None?
  }

  /** If that second registration is refused, the client is stuck. */
  lemma LeakGetsStuck()
    ensures Stuck(After(LEAK + [RequestCalled(7, Found(0), GeneralError, Success)]))
  {
    hide After;
    AfterLeak(RequestCalled(7, Found(0), GeneralError, Success));
  }

  /**
   A stuck client can neither register nor unregister, and nothing frees it but the noticed death of the very
   process it is connected to.
   */
  lemma StuckStep(s: System, event: Event)
    requires Stuck(s)
    ensures Stuck(Step(s, event)) <==>
      !(event.DeathNoticed? && s.link.service.Some? && event.notice == s.link.service
        && !Alive(s.epochs, s.link.service.value))
    ensures event.RegisterCalled? ==>
      ResultCode(Register(event.created), s, event.offered) == RegisterCallbackFail
    ensures event.UnRegisterCalled? ==> ResultCode(Unregister, s, event.offered) != Success
  {
    if event.RequestCalled? {
      ForwardFacts(ReConnectStep(s, event.answer, event.reoffered), event.request, event.offered);
    }
  }

  // ---------- registering and unregistering ----------

  /** In a state of agreement, registering succeeds exactly when it changes the client to registered. */
  lemma RegisterOutcome(s: System, created: bool, offered: Code)
    requires Agree(s)
    ensures var t := Run(Register(created), s, offered);
      ResultCode(Register(created), s, offered) == Success <==> !s.link.registered && t.link.registered
  {
  }

  /** Unregistering a fresh registration leaves every process as it was before, and the connection in place. */
  lemma UnregisterUndoesRegister(s: System, offered: Code)
    requires Agree(s) && ResultCode(Register(true), s, offered) == Success
    ensures var t := Run(Unregister, Run(Register(true), s, offered), Success);
      && t.epochs == s.epochs && !t.link.registered && t.link.service == s.link.service
      && ResultCode(Unregister, Run(Register(true), s, offered), Success) == Success
  {
    var e := s.link.service.value;
    assert s.epochs[e] == Epoch(true, []);
    NoneThenOne(s.epochs[e].callbacks, s.nextCallback);
    assert Run(Register(true), s, offered).epochs == s.epochs[e := Epoch(true, [s.nextCallback])];
    assert Run(Unregister, Run(Register(true), s, offered), Success).epochs[e] == Epoch(true, []);
  }
}
