/**
 What the critical sections of the call manager proxy do: the vocabulary shared by the model of whole methods
 (module CallManagerProxies) and the model of interleaved threads (module ProxyThreads).

 The remote service is a growing sequence of epochs, one for each start of its process. An epoch keeps the
 callbacks that this client has registered with it.
 */
module ProxySections {
  import opened TelephonyBase

  type EpochId = nat
  type CallbackId = nat
  type Request = int

  datatype Code =
    | Success
    | LocalPtrNull
    | RegisterCallbackFail
    | UnregisterCallbackFail
    | IpcConnectStubFail
    | PermissionErr
    | IllegalUseOfSystemApi
    | GeneralError
    | DeadObject
    | OtherCode(value: int)

  datatype Epoch = Epoch(alive: bool, callbacks: seq<CallbackId>)

  predicate Alive(epochs: seq<Epoch>, e: EpochId) {
    e < |epochs| && epochs[e].alive
  }

  /** The fields of the proxy that its lock protects. */
  datatype Link = Link(service: Option<EpochId>, callback: Option<CallbackId>, registered: bool)

  const NO_LINK := Link(None, None, false)

  /** How looking the service up in the system ability manager can end. */
  datatype ConnectAnswer = NoManager | NoAbility | NoRecipient | NoInterface | Found(epoch: EpochId)

  // A death recipient can only be added to a remote object that is still alive.
  predicate Connects(answer: ConnectAnswer, epochs: seq<Epoch>) {
    answer.Found? && Alive(epochs, answer.epoch)
  }

  datatype Section =
    | Register(created: bool)
    | Unregister
    | Connect(answer: ConnectAnswer)
    | Clear
    | Reregister
    | Peek
    | Forward(request: Request)
    | Died(notice: EpochId)

  predicate IsExclusive(section: Section) {
    !section.Peek? && !section.Forward?
  }

  // ---------- a section in three phases: checks and early writes, the service call, late writes ----------

  predicate Creates(section: Section, link: Link) {
    section.Register? && section.created && !link.registered && link.service.Some?
  }

  /** The epoch on whose interface object the section calls a method; None when it ends before that. */
  function Target(section: Section, link: Link): Option<EpochId> {
    match section
    case Register(created) => if !link.registered && created then link.service else None
    case Unregister => if link.registered then link.service else None
    case Connect(_) => None
    case Clear => None
    case Reregister => if link.callback.Some? then link.service else None
    case Peek => None
    case Forward(_) => link.service
    case Died(_) => link.service
  }

  function Before(section: Section, link: Link, epochs: seq<Epoch>, nextCallback: CallbackId): Link {
    match section
    case Register(created) =>
      if link.registered || link.service.None? then link
      else link.(callback := if created then Some(nextCallback) else None)
    case Connect(answer) =>
      if link.service.None? && Connects(answer, epochs) then link.(service := Some(answer.epoch)) else link
    case Clear => link.(service := None)
    case _ => link
  }

  /** A dead process answers nothing; a live one answers as it pleases. */
  function Reply(epochs: seq<Epoch>, e: EpochId, offered: Code): Code {
    if Alive(epochs, e) then offered else DeadObject
  }

  function Serve(section: Section, link: Link, epochs: seq<Epoch>, e: EpochId, code: Code): (r: seq<Epoch>)
    ensures |r| == |epochs|
  {
    if e >= |epochs| || !code.Success? then epochs
    else match section
      case Register(_) => AddCallback(link, epochs, e)
      case Reregister => AddCallback(link, epochs, e)
      case Unregister =>
        if epochs[e].callbacks == [] then epochs
        else epochs[e := epochs[e].(callbacks := epochs[e].callbacks[1..])]
      case _ => epochs
  }

  function AddCallback(link: Link, epochs: seq<Epoch>, e: EpochId): (r: seq<Epoch>)
    requires e < |epochs|
    ensures |r| == |epochs|
  {
    if link.callback.None? then epochs
    else epochs[e := epochs[e].(callbacks := epochs[e].callbacks + [link.callback.value])]
  }

  function After(section: Section, link: Link, e: EpochId, code: Code): Link {
    match section
    case Register(_) => if code.Success? then link.(registered := true) else link.(callback := None)
    case Unregister =>
      if code.Success? && link.callback.Some? then link.(callback := None, registered := false) else link
    case Reregister => if code.Success? then link else link.(callback := None)
    case Died(notice) => if notice == e then link.(service := None, registered := false) else link
    case _ => link
  }

  // ---------- a section run without interruption ----------

  /** The proxy and the world around it. */
  datatype System = System(
    link: Link,
    initialised: bool,
    epochs: seq<Epoch>,
    nextCallback: CallbackId,
    sent: seq<(EpochId, Request)>)

  const INITIAL := System(NO_LINK, false, [], 0, [])

  function Run(section: Section, s: System, offered: Code): System {
    var link := Before(section, s.link, s.epochs, s.nextCallback);
    var nextCallback := if Creates(section, s.link) then s.nextCallback + 1 else s.nextCallback;
    match Target(section, s.link)
    case None => s.(link := link, nextCallback := nextCallback)
    case Some(e) =>
      var code := Reply(s.epochs, e, offered);
      s.(link := After(section, link, e, code),
         initialised := s.initialised && !(section.Died? && section.notice == e),
         epochs := Serve(section, link, s.epochs, e, code),
         nextCallback := nextCallback,
         sent := if section.Forward? then s.sent + [(e, section.request)] else s.sent)
  }

  /** The code with which the method around the section returns. */
  function ResultCode(section: Section, s: System, offered: Code): Code {
    match section
    case Register(created) =>
      if s.link.registered then RegisterCallbackFail
      else if s.link.service.None? || !created then LocalPtrNull
      else
        var code := Reply(s.epochs, s.link.service.value, offered);
        if code in {Success, PermissionErr, IllegalUseOfSystemApi} then code else RegisterCallbackFail
    case Unregister =>
      if !s.link.registered then RegisterCallbackFail
      else if s.link.service.None? then LocalPtrNull
      else
        var code := Reply(s.epochs, s.link.service.value, offered);
        if code in {PermissionErr, IllegalUseOfSystemApi} then code
        else if !code.Success? then UnregisterCallbackFail
        else if s.link.callback.None? then LocalPtrNull
        else Success
    case Connect(answer) =>
      if s.link.service.Some? || Connects(answer, s.epochs) then Success
      else if answer.NoManager? || answer.NoInterface? then LocalPtrNull
      else if answer.NoAbility? then IpcConnectStubFail
      else GeneralError
    case Reregister =>
      if s.link.service.None? || s.link.callback.None? then LocalPtrNull
      else
        var code := Reply(s.epochs, s.link.service.value, offered);
        if code in {Success, PermissionErr} then code else RegisterCallbackFail
    case Forward(_) =>
      if s.link.service.None? then LocalPtrNull else Reply(s.epochs, s.link.service.value, offered)
    case _ => Success
  }
}
