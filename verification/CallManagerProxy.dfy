/**
 The call manager proxy, one method at a time: connecting to the service, registering a callback with it,
 forwarding requests, and reacting to its death. What the service and the system answer is passed in.
 */
module CallManagerProxies {
  import opened TelephonyBase
  import opened ProxySections

  /** The processes on the other side, and what has been sent to them. */
  class RemoteWorld {
    var epochs: seq<Epoch>
    var nextCallback: CallbackId
    var sent: seq<(EpochId, Request)>

    constructor ()
      ensures epochs == [] && nextCallback == 0 && sent == []
    {
      epochs, nextCallback, sent := [], 0, [];
    }

    method NewCallback() returns (callback: CallbackId)
      modifies this`nextCallback
      ensures callback == old(nextCallback) && nextCallback == old(nextCallback) + 1
    {
      callback := nextCallback;
      nextCallback := nextCallback + 1;
    }

    method RegisterCallBack(e: EpochId, callback: CallbackId, offered: Code) returns (code: Code)
      modifies this`epochs
      ensures code == Reply(old(epochs), e, offered)
      ensures epochs == if code.Success? then AddCallback(Link(Some(e), Some(callback), false), old(epochs), e)
        else old(epochs)
    {
      code := Reply(epochs, e, offered);
      if code.Success? && e < |epochs| {
        epochs := epochs[e := epochs[e].(callbacks := epochs[e].callbacks + [callback])];
      }
    }

    method UnRegisterCallBack(e: EpochId, offered: Code) returns (code: Code)
      modifies this`epochs
      ensures code == Reply(old(epochs), e, offered)
      ensures epochs == Serve(Unregister, NO_LINK, old(epochs), e, code)
    {
      code := Reply(epochs, e, offered);
      if code.Success? && e < |epochs| && epochs[e].callbacks != [] {
        epochs := epochs[e := epochs[e].(callbacks := epochs[e].callbacks[1..])];
      }
    }

    method Receive(e: EpochId, request: Request, offered: Code) returns (code: Code)
      modifies this`sent
      ensures code == Reply(epochs, e, offered) && sent == old(sent) + [(e, request)]
    {
      sent := sent + [(e, request)];
      code := Reply(epochs, e, offered);
    }
  }

  function WithoutFirst(callbacks: seq<CallbackId>): seq<CallbackId> {
    if callbacks == [] then [] else callbacks[1..]
  }

  class CallManagerProxy {
    const remote: RemoteWorld
    var service: Option<EpochId>
    var callback: Option<CallbackId>
    var registerStatus: bool
    var initStatus: bool

    function State(): System
      reads this, remote
    {
      System(Link(service, callback, registerStatus), initStatus, remote.epochs, remote.nextCallback, remote.sent)
    }

    // The process that the interface object stands for is alive.
    predicate ServiceLives()
      reads this, remote
    {
      service.Some? && service.value < |remote.epochs| && remote.epochs[service.value].alive
    }

    // Looking the service up yields the interface object of a live process.
    predicate Reaches(answer: ConnectAnswer)
      reads this, remote
    {
      answer.Found? && answer.epoch < |remote.epochs| && remote.epochs[answer.epoch].alive
    }

    constructor (remote: RemoteWorld)
      ensures this.remote == remote
      ensures State() == System(NO_LINK, false, remote.epochs, remote.nextCallback, remote.sent)
    {
      this.remote := remote;
      service, callback, registerStatus, initStatus := None, None, false, false;
    }

    method Init(answer: ConnectAnswer)
      modifies this
      ensures State() == InitStep(old(State()), answer)
      ensures old(initStatus) ==> State() == old(State())
      ensures !old(initStatus) ==>
        && (initStatus <==> service.Some?)
        && (service.Some? <==> old(service).Some? || Reaches(answer))
    {
      if initStatus {
        return;
      }
      var result := ConnectService(answer);
      if result != Success {
        return;
      }
      initStatus := true;
    }

    method UnInit(offered: Code)
      modifies this, remote
      ensures State() == UnInitStep(old(State()), offered)
      ensures !initStatus && service.None?
    {
      DisconnectService(offered);
      initStatus := false;
    }

    method RegisterCallBack(created: bool, offered: Code) returns (code: Code)
      modifies this, remote
      ensures State() == Run(Register(created), old(State()), offered)
      ensures code == ResultCode(Register(created), old(State()), offered)
      ensures old(registerStatus) ==> code == RegisterCallbackFail && State() == old(State())
      ensures !old(registerStatus) && old(service).None? ==> code == LocalPtrNull && State() == old(State())
      ensures !old(registerStatus) && old(service).Some? && !created ==>
        && code == LocalPtrNull && callback.None? && !registerStatus
        && remote.epochs == old(remote.epochs) && remote.nextCallback == old(remote.nextCallback)
      ensures !old(registerStatus) && old(service).Some? && created && old(ServiceLives()) && offered == Success ==>
        && code == Success && registerStatus && callback == Some(old(remote.nextCallback))
        && remote.epochs == old(remote.epochs[service.value := remote.epochs[service.value].(
             callbacks := remote.epochs[service.value].callbacks + [remote.nextCallback])])
      ensures !old(registerStatus) && old(service).Some? && created && !(old(ServiceLives()) && offered == Success) ==>
        && code == (if old(ServiceLives()) && (offered == PermissionErr || offered == IllegalUseOfSystemApi)
                    then offered else RegisterCallbackFail)
        && callback.None? && !registerStatus && remote.epochs == old(remote.epochs)
      ensures service == old(service) && initStatus == old(initStatus) && remote.sent == old(remote.sent)
    {
      if registerStatus {
        return RegisterCallbackFail;
      }
      if service.None? {
        return LocalPtrNull;
      }
      if !created {
        callback := None;
        return LocalPtrNull;
      }
      var mine := remote.NewCallback();
      callback := Some(mine);
      var ret := remote.RegisterCallBack(service.value, mine, offered);
      if ret != Success {
        callback := None;
        if ret == PermissionErr || ret == IllegalUseOfSystemApi {
          return ret;
        }
        return RegisterCallbackFail;
      }
      registerStatus := true;
      return Success;
    }

    method UnRegisterCallBack(offered: Code) returns (code: Code)
      modifies this, remote
      ensures State() == Run(Unregister, old(State()), offered)
      ensures code == ResultCode(Unregister, old(State()), offered)
      ensures !old(registerStatus) ==> code == RegisterCallbackFail && State() == old(State())
      ensures old(registerStatus) && old(service).None? ==> code == LocalPtrNull && State() == old(State())
      ensures old(registerStatus) && old(service).Some? && !(old(ServiceLives()) && offered == Success) ==>
        && code == (if old(ServiceLives()) && (offered == PermissionErr || offered == IllegalUseOfSystemApi)
                    then offered else UnregisterCallbackFail)
        && State() == old(State())
      ensures old(registerStatus) && old(service).Some? && old(ServiceLives()) && offered == Success ==>
        && code == (if old(callback).Some? then Success else LocalPtrNull)
        && registerStatus == old(callback).None? && callback.None?
        && remote.epochs == old(remote.epochs[service.value := remote.epochs[service.value].(
             callbacks := WithoutFirst(remote.epochs[service.value].callbacks))])
      ensures service == old(service) && initStatus == old(initStatus) && remote.sent == old(remote.sent)
    {
      if !registerStatus {
        return RegisterCallbackFail;
      }
      if service.None? {
        return LocalPtrNull;
      }
      var ret := remote.UnRegisterCallBack(service.value, offered);
      if ret != Success {
        if ret == PermissionErr || ret == IllegalUseOfSystemApi {
          return ret;
        }
        return UnregisterCallbackFail;
      }
      if callback.None? {
        return LocalPtrNull;
      }
      callback := None;
      registerStatus := false;
      return Success;
    }

    method ConnectService(answer: ConnectAnswer) returns (code: Code)
      modifies this
      ensures State() == Run(Connect(answer), old(State()), Success)
      ensures code == ResultCode(Connect(answer), old(State()), Success)
      ensures old(service).Some? ==> code == Success && State() == old(State())
      ensures old(service).None? && Reaches(answer) ==>
        code == Success && State() == old(State()).(link := Link(Some(answer.epoch), callback, registerStatus))
      ensures old(service).None? && !Reaches(answer) ==>
        && State() == old(State())
        && code == match answer
             case NoManager => LocalPtrNull
             case NoAbility => IpcConnectStubFail
             case NoRecipient => GeneralError
             case NoInterface => LocalPtrNull
             case Found(_) => GeneralError
      ensures callback == old(callback) && registerStatus == old(registerStatus)
    {
      if service.Some? {
        return Success;
      }
      match answer {
        case NoManager =>
          return LocalPtrNull;
        case NoAbility =>
          return IpcConnectStubFail;
        case NoRecipient =>
          return GeneralError;
        case NoInterface =>
          return LocalPtrNull;
        case Found(e) =>
          if !Alive(remote.epochs, e) {
            return GeneralError;
          }
          service := Some(e);
          return Success;
      }
    }

    method DisconnectService(offered: Code)
      modifies this, remote
      ensures State() == Run(Clear, Run(Unregister, old(State()), offered), Success)
      ensures service.None? && initStatus == old(initStatus)
    {
      var _ := UnRegisterCallBack(offered);
      if service.Some? {
        service := None;
      }
    }

    method ReConnectService(answer: ConnectAnswer, reoffered: Code) returns (code: Code)
      modifies this, remote
      ensures State() == ReConnectStep(old(State()), answer, reoffered)
      ensures code == if old(service).Some? || old(Reaches(answer)) then Success else IpcConnectStubFail
    {
      var registered := registerStatus;
      if service.None? {
        var result := ConnectService(answer);
        if result != Success {
          return IpcConnectStubFail;
        }
        if registered {
          var _ := ReRegisterCallBack(reoffered);
        }
      }
      return Success;
    }

    method ReRegisterCallBack(offered: Code) returns (code: Code)
      modifies this, remote
      ensures State() == Run(Reregister, old(State()), offered)
      ensures code == ResultCode(Reregister, old(State()), offered)
      ensures old(service).None? || old(callback).None? ==> code == LocalPtrNull && State() == old(State())
      ensures old(service).Some? && old(callback).Some? && !(old(ServiceLives()) && offered == Success) ==>
        && code == (if old(ServiceLives()) && offered == PermissionErr then PermissionErr else RegisterCallbackFail)
        && callback.None? && remote.epochs == old(remote.epochs)
      ensures old(service).Some? && old(callback).Some? && old(ServiceLives()) && offered == Success ==>
        && code == Success && callback == old(callback)
        && remote.epochs == old(remote.epochs[service.value := remote.epochs[service.value].(
             callbacks := remote.epochs[service.value].callbacks + [callback.value])])
      ensures service == old(service) && registerStatus == old(registerStatus) && initStatus == old(initStatus)
    {
      if service.None? {
        return LocalPtrNull;
      }
      if callback.None? {
        return LocalPtrNull;
      }
      var ret := remote.RegisterCallBack(service.value, callback.value, offered);
      if ret != Success {
        callback := None;
        if ret == PermissionErr {
          return PermissionErr;
        }
        return RegisterCallbackFail;
      }
      return Success;
    }

    method ObserverOnCallDetailsChange(request: Request, offered: Code) returns (code: Code)
      modifies this, remote
      ensures State() == Run(Forward(request), old(State()), offered)
      ensures code == if old(service).None? then LocalPtrNull
        else if old(ServiceLives()) && offered == Success then Success
        else RegisterCallbackFail
      ensures remote.sent == old(remote.sent)
        + if old(service).Some? then [(old(service).value, request)] else []
    {
      if service.None? {
        return LocalPtrNull;
      }
      var ret := remote.Receive(service.value, request, offered);
      if ret != Success {
        return RegisterCallbackFail;
      }
      return Success;
    }

    /**
     The request methods. A request reaches the current service exactly once and its answer is returned, or,
     when there is no service and none can be connected to, nothing is sent and nothing changes.
     */
    method DialCall(request: Request, answer: ConnectAnswer, reoffered: Code, offered: Code) returns (code: Code)
      modifies this, remote
      ensures State() == RequestStep(old(State()), request, answer, reoffered, offered)
      ensures old(service).None? && !old(Reaches(answer)) ==> State() == old(State()) && code == IpcConnectStubFail
      ensures old(service).Some? || old(Reaches(answer)) ==>
        var e := if old(service).Some? then old(service).value else answer.epoch;
        && service == Some(e)
        && remote.sent == old(remote.sent) + [(e, request)]
        && code == if e < |old(remote.epochs)| && old(remote.epochs)[e].alive then offered else DeadObject
    {
      hide Run, ReConnectStep;
      ReConnectFacts(State(), answer, reoffered);
      var connected := ReConnectService(answer, reoffered);
      ForwardFacts(State(), request, offered);
      if connected != Success {
        return IpcConnectStubFail;
      }
      if service.None? {
        return LocalPtrNull;
      }
      code := remote.Receive(service.value, request, offered);
    }

    method OnRemoteDied(notice: Option<EpochId>)
      modifies this
      ensures State() == DiedStep(old(State()), notice)
      ensures notice.None? || notice != old(service) ==> State() == old(State())
      ensures notice.Some? && notice == old(service) ==>
        service.None? && !initStatus && !registerStatus && callback == old(callback)
    {
      if notice.None? {
        return;
      }
      if service.None? {
        return;
      }
      if service.value == notice.value {
        service := None;
        initStatus := false;
        registerStatus := false;
      }
    }
  }

  // ---------- what the methods do to the state ----------

  function InitStep(s: System, answer: ConnectAnswer): System {
    if s.initialised || ResultCode(Connect(answer), s, Success) != Success then s
    else Run(Connect(answer), s, Success).(initialised := true)
  }

  function UnInitStep(s: System, offered: Code): System {
    Run(Clear, Run(Unregister, s, offered), Success).(initialised := false)
  }

  predicate ReConnects(s: System, answer: ConnectAnswer) {
    s.link.service.Some? || Connects(answer, s.epochs)
  }

  function ReConnectStep(s: System, answer: ConnectAnswer, reoffered: Code): System {
    if s.link.service.Some? || !Connects(answer, s.epochs) then s
    else
      var connected := Run(Connect(answer), s, Success);
      if s.link.registered then Run(Reregister, connected, reoffered) else connected
  }

  function RequestStep(s: System, request: Request, answer: ConnectAnswer, reoffered: Code, offered: Code): System {
    if !ReConnects(s, answer) then s
    else Run(Forward(request), ReConnectStep(s, answer, reoffered), offered)
  }

  function DiedStep(s: System, notice: Option<EpochId>): System {
    if notice.None? then s else Run(Died(notice.value), s, Success)
  }

  lemma ReConnectFacts(s: System, answer: ConnectAnswer, reoffered: Code)
    ensures var t := ReConnectStep(s, answer, reoffered);
      && t.link.service == (if s.link.service.None? && Connects(answer, s.epochs) then Some(answer.epoch)
                            else s.link.service)
      && (!ReConnects(s, answer) ==> t == s)
      && t.sent == s.sent
      && (forall e: EpochId, offered :: Reply(t.epochs, e, offered) == Reply(s.epochs, e, offered))
  {
  }

  lemma ForwardFacts(s: System, request: Request, offered: Code)
    ensures Run(Forward(request), s, offered)
      == if s.link.service.Some? then s.(sent := s.sent + [(s.link.service.value, request)]) else s
  {
  }
}
