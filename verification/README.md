# Verified model of the call manager

This project models the parts of the OpenHarmony call manager that keep state, speak a protocol or parse text, and
proves properties of them over all inputs, all runs and all interleavings of threads.

* **The call manager proxy** (`ProxySections`, `CallManagerProxies`, `ProxyRuns`, `ProxyThreads`, `ProxySerial`,
  `ProxyDeaths`, `ProxyCauses`, `ProxyInitialised`, `ProxyRequests`, `ProxyAlone`, `ProxyRevival`).
  The client's connection to the service and its callback registration, under a reader/writer lock. The service is a
  growing sequence of epochs, one for each start of its process; each is alive or dead and keeps the callbacks this
  client has registered with it. What the service and the system answer is an input of every step. Two granularities:
  whole methods, as a class, and single steps of any number of threads (wait, acquire, check, call, write, release).
* **Challenge tokens** (`ChallengeTokens`, `ChallengeTokenRuns`, `ChallengeTokenText`). A list of at most three
  entries, removed lazily after ten minutes and handed out once.
* **The configuration** (`CallManagerConfigs`, `ConfigThreads`). Double-checked initialisation of two tables.
* **Parcels** (`MessageParcels`, `Windows`, `CallRecords`, `CallAttributeCodec`, `CallReportCodec`). The writers and
  readers of call records, of counted lists of them, and of single and batch call reports.
* **Phone numbers** (`PhoneText`, `PurePhoneNumbers`, `CallNumberUtils`). The recogniser, the cleaning functions, the
  normal form and the equality built on it.
* **The call policy** (`EdmCallPolicies`, `PolicyThreads`). Two lists under a reader/writer lock.
* **Fading the ring tone** (`MotionRecognition`). A loop with a time budget.

Methods that update fields are methods of classes here, each tied by its contract to a function of the old state; the
properties are proved about these functions. Runs are sequences of events or moves, and a property "of every run" is a
lemma over every such sequence.

## Where the code does not do what one might expect

Each item names what is proved of it: a run that shows it, where there is one, and exactly when the expected property
does hold.

* *Disconnecting.* `DisconnectService` ignores a failed `UnRegisterCallBack` and drops the connection all the same
  (`call_manager_proxy.cpp:248`). The client then believes itself registered without a connection; the next request
  registers the callback a second time with the same process (`LeakRegistersTwice`), or, if that is refused, leaves
  the client registered without a callback, from where it can neither register nor unregister (`LeakGetsStuck`,
  `StuckStep`). `RunAgreement` says that these failing disconnections are the only way to lose agreement.
* *Disconnecting while another thread registers.* `DisconnectService` is two critical sections. A registration between
  them has the same effect although every call succeeds (`RaceLosesAgreement`). `AgreementAndItsCauses` says that these
  are the only two ways to lose agreement in any interleaving: a thread clears the connection although its own
  unregistration was reported as a failure (other than that there was nothing to unregister), or although a registration
  by another thread has been reported as a success since, with no unregistration or noticed death after it.
* *Death.* With whole methods, and from a state of agreement, nothing registers the callback again after a noticed death
  until the client does, because the flag that would trigger it has been cleared (`ProxyRuns.DeathEndsRegistration`).
  Between threads this fails: `ReConnectService` decides by a copy of the flag that can be older than the death, and
  `OnRemoteDied` keeps the callback. `RegistrationIsRevived` is such a run, from a state of agreement.
  `ReregistersUnregistered` says exactly when a request is about to register the callback of a client that is not
  registered. `NoReregistration` says that no request ever registers again as long as no disconnection has gone wrong in
  one of the two ways above, and `ProxyCauses.DeathEndsRegistration` that a noticed death then ends the registration.
* *Null check.* With whole methods the null check behind a successful reconnection is never taken (`DialCall`). Between
  threads it is taken exactly when the connection has been lost since the request found or made it, with no connection
  after that (`SendsWithoutConnection`, `RequestOutcome`).
* *The initialised flag.* It is not under the lock. A thread that raises it after its connection has been lost leaves the
  client initialised without a connection, and further calls of `Init` do nothing (`InitialisedWithoutConnection`).
  `InitialisedAllAlong` says that this is the only way.
* *Batch reports.* The stub unpacks all calls of a batch into one record (`call_status_callback_stub.cpp:209-214`), so
  a call that is not VoIP is delivered with the VoIP details of an earlier call of the batch (`StaleVoipExample`).
  `BatchRoundTrip` gives the exact condition for a batch to arrive as sent.
* *Single reports.* The stub reads eight fields that the proxy did not send; they arrive as zero or empty, which is not
  always the default of the record: the default RTT channel is -1 (`SingleRoundTrip`).
* *Call lists.* A list of 10000 records or more arrives as something else, also when its size wraps around as a 32-bit
  integer (`CallListRoundTrip`).
* *Configuration.* A thread whose own load has failed reads the tables without the mutex and may find them half filled
  by another thread; its answer is then wrong for a name that is listed but not yet inserted (`HalfFilledTableIsRead`).
  `WholeUnlessPartWay` says exactly when a table is whole, `PartWayIsNoticed` that this is exactly what two queries can
  notice, and `AnswerIsRight` exactly which answers are right. After publication every answer is
  (`AnswersAfterPublication`).

## Model

| member | source | states |
|---|---|---|
| `CallManagerProxies.CallManagerProxy.Init` | `frameworks/native/src/call_manager_proxy.cpp:61-96` | connects unless already initialised and raises the flag only on success |
| `CallManagerProxies.CallManagerProxy.UnInit` | `frameworks/native/src/call_manager_proxy.cpp:128-133` | unregisters, clears the connection and lowers the flag, whatever the service answered |
| `CallManagerProxies.CallManagerProxy.RegisterCallBack` | `frameworks/native/src/call_manager_proxy.cpp:138-174` | every case of the code and of the new state: refused when registered, null pointer without connection or callback object, the answer of a live process for success and the two permission errors, and a general failure otherwise |
| `CallManagerProxies.CallManagerProxy.UnRegisterCallBack` | `frameworks/native/src/call_manager_proxy.cpp:176-205` | every case of the code and of the new state: only an unregistration that the service confirms changes anything, and the two permission errors are passed on |
| `CallManagerProxies.CallManagerProxy.ConnectService` | `frameworks/native/src/call_manager_proxy.cpp:207-244` | connects only to a live process, keeps an existing connection, and returns the code of the step that failed |
| `CallManagerProxies.CallManagerProxy.DisconnectService` | `frameworks/native/src/call_manager_proxy.cpp:246-254` | unregisters and then clears the connection even if that failed |
| `CallManagerProxies.CallManagerProxy.ReConnectService` | `frameworks/native/src/call_manager_proxy.cpp:256-277` | succeeds exactly when there is a connection or one can be made, and registers the callback again only if the flag was up |
| `CallManagerProxies.CallManagerProxy.ReRegisterCallBack` | `frameworks/native/src/call_manager_proxy.cpp:279-301` | every case of the code and of the new state: adds the existing callback again, or drops it when refused, leaving the flag alone |
| `CallManagerProxies.CallManagerProxy.ObserverOnCallDetailsChange` | `frameworks/native/src/call_manager_proxy.cpp:303-316` | forwards without reconnecting and maps every failure to one code |
| `CallManagerProxies.CallManagerProxy.DialCall` | `frameworks/native/src/call_manager_proxy.cpp:348-365` | from every state: the request reaches the current service exactly once and its code is returned, or nothing is sent, nothing changes and the connect failure is returned; the null check behind a successful reconnection is never taken |
| `CallManagerProxies.CallManagerProxy.OnRemoteDied` | `frameworks/native/src/call_manager_proxy.cpp:1589-1608` | only a notice about the connected process changes anything, and then it clears connection, registration and initialisation |
| `ProxyRuns.AgreementStep` | `frameworks/native/src/call_manager_proxy.cpp:61-316` | from a state in which client and service agree on the registration, one event loses the agreement exactly when it is a disconnection whose unregistration fails |
| `ProxyRuns.RunAgreement` | `frameworks/native/src/call_manager_proxy.cpp:61-316` | over whole runs: registered means connected with a callback, and every live process holds exactly the callback the client believes it holds, all along, exactly when no disconnection of the run fails |
| `ProxyRuns.InitialisedMeansConnected` | `frameworks/native/src/call_manager_proxy.cpp:61-133` | in every run the initialised flag is up only while there is a connection |
| `ProxyRuns.LateNotice` | `frameworks/native/src/call_manager_proxy.cpp:1589-1608` | a death notice about another process than the connected one changes nothing |
| `ProxyRuns.LateNoticeInvisible` | `frameworks/native/src/call_manager_proxy.cpp:1589-1608` | a late or duplicate notice can be taken out of a run without changing where it leads |
| `ProxyRuns.DroppedAtMostOnce` | `frameworks/native/src/call_manager_proxy.cpp:1589-1608` | in every run the connection to a process is dropped by at most one of its notices |
| `ProxyRuns.DeathEndsRegistration` | `frameworks/native/src/call_manager_proxy.cpp:256-301` | after a noticed death, with whole methods and from a state of agreement, over any continuation without a registration by the client: client and service agree, the client is not registered, and no live process holds a callback |
| `ProxyRuns.LeakRegistersTwice` | `frameworks/native/src/call_manager_proxy.cpp:246-254` | a concrete run in which one process holds the same callback twice |
| `ProxyRuns.LeakGetsStuck` | `frameworks/native/src/call_manager_proxy.cpp:279-301` | a concrete run that leaves the client registered without a callback |
| `ProxyRuns.StuckStep` | `frameworks/native/src/call_manager_proxy.cpp:138-205` | such a client can neither register nor unregister; only the noticed death of its own process frees it |
| `ProxyRuns.RegisterOutcome` | `frameworks/native/src/call_manager_proxy.cpp:138-174` | in agreement, registering reports success exactly when it made the client registered |
| `ProxyRuns.UnregisterUndoesRegister` | `frameworks/native/src/call_manager_proxy.cpp:138-205` | unregistering undoes a registration on both sides and keeps the connection |
| `ProxyThreads.NeverCallsNull` | `frameworks/native/src/call_manager_proxy.cpp:138-316` | in every interleaving of any number of threads, no service method is called through a null pointer |
| `ProxyThreads.CheckedPointerIsCurrent` | `frameworks/native/src/call_manager_proxy.cpp:353-358` | between its null check and its call, the pointer a thread has checked is still the current one |
| `ProxyThreads.InsideIsUndisturbed` | `frameworks/native/src/call_manager_proxy.cpp:138-316` | no step of another thread changes the fields under the lock while a thread is inside a section |
| `ProxyThreads.TurnRunsSection` | `frameworks/native/src/call_manager_proxy.cpp:138-316` | the five steps of a thread that is alone amount to the section run as a whole, code included |
| `ProxyThreads.RaceLosesAgreement` | `frameworks/native/src/call_manager_proxy.cpp:246-254` | a concrete interleaving in which all calls succeed and the client ends up registered without a connection |
| `ProxySerial.SerialStep` | `frameworks/native/src/call_manager_proxy.cpp:138-316` | every step of every thread is, on the abstract state, one whole section, one change outside the lock, or nothing |
| `ProxySerial.InterleavingsAreSerial` | `frameworks/native/src/call_manager_proxy.cpp:138-316` | every interleaving leads to the state that its sections lead to when carried out one after the other in the order of a log |
| `ProxySerial.QuietStatesAreSerial` | `frameworks/native/src/call_manager_proxy.cpp:138-316` | when no thread is inside a section, that holds of the real state: connection, registration, flag, service processes and requests sent |
| `ProxySerial.LogIsComplete` | `frameworks/native/src/call_manager_proxy.cpp:138-316` | the log has each thread's sections once each, in the order in which the thread entered them |
| `ProxySerial.AgreementMove` | `frameworks/native/src/call_manager_proxy.cpp:138-316` | one move of an interleaving loses the agreement on the registration exactly when it clears the connection of a registered client |
| `ProxySerial.InterleavedAgreement` | `frameworks/native/src/call_manager_proxy.cpp:246-254` | over every interleaving, client and service agree all along exactly when no connection is cleared while the client is registered |
| `ProxyCauses.StandsHolds` | `frameworks/native/src/call_manager_proxy.cpp:246-254` | in every interleaving, a thread about to clear the connection has last unregistered, and one about to raise the initialised flag has last connected |
| `ProxyCauses.RegisteredBeforeClear` | `frameworks/native/src/call_manager_proxy.cpp:246-254` | when a thread is about to clear the connection, the client is registered exactly when that thread's unregistration was reported as a failure other than having nothing to unregister, or another thread's registration was reported as a success since, and nothing has unregistered the client after that |
| `ProxyCauses.AgreementAndItsCauses` | `frameworks/native/src/call_manager_proxy.cpp:138-254` | over every interleaving, client and service agree all along exactly when no connection is cleared for one of these two reasons |
| `ProxyCauses.NoReregistration` | `frameworks/native/src/call_manager_proxy.cpp:256-301` | in every interleaving in which no disconnection has gone wrong in one of these ways, no thread ever registers the callback again of its own accord |
| `ProxyCauses.DeathEndsRegistration` | `frameworks/native/src/call_manager_proxy.cpp:1589-1608` | in every such interleaving, once a notice has dropped the connection no live process holds a callback until a thread's registration succeeds |
| `ProxyCauses.UnregisteredIsExact` | `frameworks/native/src/call_manager_proxy.cpp:138-205` | a client that was registered at some point of a log is not any more exactly when it was unregistered since, with no registration after that |
| `ProxyCauses.LostIsExact` | `frameworks/native/src/call_manager_proxy.cpp:207-254` | a client that was connected at some point of a log is not any more exactly when the connection was cleared or died since, with no connection after that |
| `ProxyRequests.SawHolds` | `frameworks/native/src/call_manager_proxy.cpp:256-277` | in every interleaving, a request about to register again has seen the flag up, and one about to send has found or made a connection, at the position of its own last section of that kind in the log |
| `ProxyRequests.ReregistersUnregistered` | `frameworks/native/src/call_manager_proxy.cpp:256-301` | when a request is about to register the callback again, the client is not registered exactly when it was unregistered, or its process noticed dead, since the request looked, with no registration after that |
| `ProxyRequests.SendsWithoutConnection` | `frameworks/native/src/call_manager_proxy.cpp:350-357` | when a request is about to check the pointer, it is null exactly when the connection was lost since the request found or made it, with no connection after that |
| `ProxyRequests.RequestOutcome` | `frameworks/native/src/call_manager_proxy.cpp:348-365` | in every interleaving a request that gets to sending either finds the connection lost, sends nothing and returns the null-pointer code, or reaches the connected process once and returns its answer |
| `ProxyAlone.AloneRunsMethod` | `frameworks/native/src/call_manager_proxy.cpp:61-365` | for every operation, a thread that runs it alone through the interleaved model leaves exactly the state that the call of the whole method leaves, whatever codes its sections are offered |
| `ProxyAlone.AloneRequestSends` | `frameworks/native/src/call_manager_proxy.cpp:348-365` | a request that runs alone reaches the connected process once, or connects to the live process that is found and reaches that one once, or changes nothing |
| `ProxyAlone.RequestChain` | `frameworks/native/src/call_manager_proxy.cpp:256-277` | in every interleaving, the section that follows each section of a request, by the connection and the flag as the thread leaves the section |
| `ProxyAlone.LockAdmits` | `frameworks/native/src/call_manager_proxy.cpp:261-263` | the looking and the sending sections share the lock; all others wait for it alone |
| `ProxyRevival.RegistrationIsRevived` | `frameworks/native/src/call_manager_proxy.cpp:256-301` | a concrete interleaving from a state of agreement: the death is noticed, no thread begins to register after that, and a live process ends up with the callback of a client that is not registered |
| `ProxyDeaths.LateNoticesInvisible` | `frameworks/native/src/call_manager_proxy.cpp:1589-1608` | in every interleaving, a notice about a process that is not connected can be taken out of the log without changing where it leads |
| `ProxyDeaths.NoticedAfterDeath` | `frameworks/native/src/call_manager_proxy.cpp:1589-1608` | when a notice takes effect, its process is dead, however many steps the notice was on its way |
| `ProxyDeaths.DroppedAtMostOnce` | `frameworks/native/src/call_manager_proxy.cpp:1589-1608` | in every interleaving, the connection to a process is dropped by at most one of its notices |
| `ProxyInitialised.InitialisedAllAlong` | `frameworks/native/src/call_manager_proxy.cpp:61-133` | over every interleaving, the flag is up only while there is a connection or a thread is about to lower it, exactly when no thread raises it after its connection has been cleared or has died without a new one, while nobody is about to lower it |
| `ProxyInitialised.InitialisedWithoutConnection` | `frameworks/native/src/call_manager_proxy.cpp:61-96` | a concrete interleaving that leaves the flag up without a connection, so that initialising again does nothing |
| `ChallengeTokens.ChallengeTokenManager.CleanupExpiredChallengeTokensUnsafe` | `utils/src/challenge_token_manager.cpp:67-74` | removes exactly the expired entries, in order |
| `ChallengeTokens.ChallengeTokenManager.TryUpdateChallengeTokenList` | `utils/src/challenge_token_manager.cpp:29-51` | purges, then overwrites the caller's entry, refuses when full, or appends |
| `ChallengeTokens.ChallengeTokenManager.PopChallengeTokenByPhone` | `utils/src/challenge_token_manager.cpp:53-65` | purges, then removes and returns the first entry of the number |
| `ChallengeTokens.ExpiredExactly` | `utils/src/challenge_token_manager.cpp:71-72` | the comparison of truncated minutes is exact: an entry expires at the age of ten minutes |
| `ChallengeTokens.PurgeTwice` | `utils/src/challenge_token_manager.cpp:67-74` | purging later makes an earlier purge superfluous |
| `ChallengeTokens.UpdateOutcome` | `utils/src/challenge_token_manager.cpp:29-51` | an update is refused exactly when three unexpired entries of other applications are there, and then changes nothing; otherwise the caller's only entry is the challenge, renewed where the caller's unexpired entry stood or appended if there was none, and the others are exactly the unexpired ones in their order |
| `ChallengeTokens.PopOutcome` | `utils/src/challenge_token_manager.cpp:53-65` | a pop returns the first unexpired entry for the number and keeps the order of the rest; none only if there is none |
| `ChallengeTokenRuns.LazyExpiryIsInvisible` | `utils/src/challenge_token_manager.cpp:29-74` | over every run with a clock that does not go back, removing entries only on use gives the same answers as removing each the instant it expires |
| `ChallengeTokenRuns.RunKeepsInv` | `utils/src/challenge_token_manager.cpp:29-65` | after every run: at most three entries, of pairwise different applications |
| `ChallengeTokenRuns.TokensAreConserved` | `utils/src/challenge_token_manager.cpp:29-74` | over every run the offered tokens are, as a multiset, the rejected, overwritten, expired, popped and present ones together |
| `ChallengeTokenRuns.TokensAreSingleUse` | `utils/src/challenge_token_manager.cpp:53-65` | a token that was offered once is handed out at most once |
| `ChallengeTokenText.GenerateToken` | `utils/src/challenge_token_manager.cpp:86-102` | the hexadecimal text of the random bytes, or nothing when the generator fails |
| `ChallengeTokenText.HexReadsBack` | `utils/src/challenge_token_manager.cpp:94-99` | two lower-case hexadecimal digits for each byte, from which the byte can be read back |
| `ChallengeTokenText.HexIsInjective` | `utils/src/challenge_token_manager.cpp:94-99` | different random bytes give different tokens |
| `CallManagerConfigs.CallManagerConfig.Init` | `utils/src/call_manager_config.cpp:39-56` | stores the two parses of the document once; a failed load stores nothing and is retried |
| `CallManagerConfigs.CallManagerConfig.ParserConfigJson` | `utils/src/call_manager_config.cpp:96-122` | adds the parses of both lists, or nothing when there is no document |
| `CallManagerConfigs.CallManagerConfig.ParseFeatureList` | `utils/src/call_manager_config.cpp:124-146` | a name is in the result exactly if it was before or is a non-empty text in an array of at most 100 items; an oversized array adds nothing |
| `CallManagerConfigs.CallManagerConfig.ShouldHangUpCellularCallBeforeAnswer` | `utils/src/call_manager_config.cpp:76-84` | answers membership of a non-empty key in the parse of the loaded document, or in the table when it was loaded before |
| `CallManagerConfigs.CallManagerConfig.ShouldConvertUsernameToPhoneNum` | `utils/src/call_manager_config.cpp:86-94` | the same for the second table |
| `ConfigThreads.OneWriter` | `utils/src/call_manager_config.cpp:39-56` | in every interleaving at most one thread writes the tables at a time |
| `ConfigThreads.PublishedMeansParsed` | `utils/src/call_manager_config.cpp:39-56` | in every interleaving the flag is up exactly when a document has been published, and then the tables are its two parses |
| `ConfigThreads.PublishedIsFrozen` | `utils/src/call_manager_config.cpp:41-49` | from then on no move of any thread changes the tables |
| `ConfigThreads.AnswersAfterPublication` | `utils/src/call_manager_config.cpp:76-94` | every answer given after publication is membership in the parse of the published document |
| `ConfigThreads.WholeUnlessPartWay` | `utils/src/call_manager_config.cpp:39-56` | in every interleaving, each table is empty or the complete parse of the document published or being filled in, exactly when no thread has inserted a part of its list that is neither nothing nor everything |
| `ConfigThreads.PartWayIsNoticed` | `utils/src/call_manager_config.cpp:76-94` | a thread is part-way exactly when there are two listed names of which a query would answer yes for one and no for the other |
| `ConfigThreads.AnswerIsRight` | `utils/src/call_manager_config.cpp:76-94` | every answer ever given is right by the complete parse of the document published or being filled in, except exactly for names that are listed but not yet inserted; it is no when there is no document |
| `ConfigThreads.AsksAlone` | `utils/src/call_manager_config.cpp:39-94` | a thread that is alone with a query initialises the tables if nobody has and its load succeeds, and is answered exactly once, by the published document |
| `ConfigThreads.HalfFilledTableIsRead` | `utils/src/call_manager_config.cpp:76-84` | a concrete interleaving in which, of two listed names, one is answered no and the other yes |
| `CallAttributeCodec.WriteCallAttributeInfo` | `utils/src/call_manager_utils.cpp:44-84` | appends exactly the cells of the record |
| `CallAttributeCodec.WriteVoipCallInfo` | `utils/src/call_manager_utils.cpp:105-123` | appends the VoIP block for VoIP calls only |
| `CallAttributeCodec.ReadCallAttributeInfo` | `frameworks/native/src/native_call_manager_utils.cpp:25-96` | the record read from the cursor, and where the cursor is left |
| `CallAttributeCodec.AttributeReadsBack` | `frameworks/native/src/native_call_manager_utils.cpp:25-96` | wherever a record stands in a parcel, reading it gives what was sent, with the voice override, the VoIP block only for VoIP calls and defaults for what is not sent, and consumes exactly its cells |
| `CallAttributeCodec.ExchangeCallAttributeInfo` | `utils/src/call_manager_utils.cpp:32-84` | a record written and read back, field by field: the video state becomes voice exactly for an incoming call whose object says so, and every other field that is sent is kept |
| `CallAttributeCodec.TransmittedFields` | `utils/src/call_manager_utils.cpp:32-42` | the same of every record of a list |
| `CallAttributeCodec.OnGetCurrentCallList` | `services/bluetooth/src/bluetooth_call_stub.cpp:231-241` | appends the wrapped 32-bit count and the records |
| `CallAttributeCodec.GetCurrentCallList` | `frameworks/native/src/bluetooth_call_proxy.cpp:103-130` | the counted list at the cursor; nothing for a failed request or a count outside 1 to 9999 |
| `CallAttributeCodec.ListReadsBack` | `frameworks/native/src/bluetooth_call_proxy.cpp:124-128` | a list of records reads back record by record and ends where it was written to end |
| `CallAttributeCodec.CallListRoundTrip` | `frameworks/native/src/bluetooth_call_proxy.cpp:119-129` | with anything in front and behind, the list arrives exactly when it has fewer than 10000 records |
| `CallAttributeCodec.ExchangeCallList` | `services/bluetooth/src/bluetooth_call_stub.cpp:231-241` | the same of the two methods run one after the other, field by field; from 10000 records on, as many records as the wrapped count says, or none if that is out of range |
| `CallReportCodec.PackUpdateCallReportInfo` | `frameworks/native/src/call_status_callback_proxy.cpp:47-76` | appends the token and the cells of a single report |
| `CallReportCodec.UpdateCallReportInfo` | `frameworks/native/src/call_status_callback_proxy.cpp:41-82` | from the proxy through the stub and back: every transmitted field is handed on and the call manager's answer is returned, or the connection failure when the stub cannot be reached |
| `CallReportCodec.UpdateCallsReportInfo` | `frameworks/native/src/call_status_callback_proxy.cpp:108-125` | the same for a batch: a batch is handed on exactly when the stub is reached and its wrapped count is 1 to 10, every field that is sent arrives, it is what was sent exactly when no VoIP details are left over, and otherwise the sender gets the connection failure |
| `CallReportCodec.PackUpdateCallsReportInfo` | `frameworks/native/src/call_status_callback_proxy.cpp:755-800` | appends token, count, one section for each call, and the slot |
| `CallReportCodec.BuildCallReportInfo` | `services/telephony_interaction/src/call_status_callback_stub.cpp:225-270` | overwrites what the section carries and leaves the rest of the record as the previous call left it |
| `CallReportCodec.OnUpdateCallReportInfo` | `services/telephony_interaction/src/call_status_callback_stub.cpp:180-194` | the record unpacked from a single report is handed on and the answer is written to the reply |
| `CallReportCodec.OnUpdateCallsReportInfo` | `services/telephony_interaction/src/call_status_callback_stub.cpp:196-223` | rejects counts outside 1 to 10 without a reply and hands on nothing; otherwise hands on as many calls as counted, unpacked one after the other into the same record, with the slot, and writes the answer to the reply |
| `CallReportCodec.OnRemoteRequest` | `services/telephony_interaction/src/call_status_callback_stub.cpp:140-158` | rejects a wrong token and otherwise dispatches on the request code, with the handler's code, report and reply |
| `CallReportCodec.ReportedFields` | `frameworks/native/src/call_status_callback_proxy.cpp:761-797` | what counts as arriving as sent: every field of the section, VoIP details for VoIP calls only, defaults for the two fields not sent |
| `CallReportCodec.SectionReadsBack` | `services/telephony_interaction/src/call_status_callback_stub.cpp:225-270` | unpacking the section of a call gives every field that was sent and stops behind it |
| `CallReportCodec.BatchDelivered` | `services/telephony_interaction/src/call_status_callback_stub.cpp:209-214` | a batch of 1 to 10 calls arrives with all fields, but a call that is not VoIP carries the VoIP details of the latest VoIP call before it |
| `CallReportCodec.BatchRoundTrip` | `services/telephony_interaction/src/call_status_callback_stub.cpp:196-223` | a batch arrives as sent exactly when it has 1 to 10 calls and no call that is not VoIP directly follows a VoIP call with details |
| `CallReportCodec.StaleVoipExample` | `services/telephony_interaction/src/call_status_callback_stub.cpp:209-214` | a concrete batch in which a carrier call arrives with the user name of a VoIP call |
| `CallReportCodec.SingleRoundTrip` | `services/telephony_interaction/src/call_status_callback_stub.cpp:180-194` | a single report arrives with the fields it does not carry zero or empty: intact exactly when they were |
| `CallReportCodec.SectionBeginsWithSingle` | `frameworks/native/src/call_status_callback_proxy.cpp:50-76` | in a batch, each call's section begins with the cells of its single report |
| `CallReportCodec.BatchUniquelyDecodable` | `frameworks/native/src/call_status_callback_proxy.cpp:755-800` | two batches with the same cells agree on slot, number of calls and every field sent, despite the conditional block |
| `PurePhoneNumbers.IsPurePhoneNumber` | `utils/src/call_manager_utils.cpp:146-229` | accepts exactly the grammar: length 5 to 20, legal characters and bracket neighbours, plus only in front, no prefix with more brackets closed than opened, equal totals, 5 digits or 8 with plus |
| `CallNumberUtils.RemoveSeparatorsPhoneNumber` | `utils/src/call_number_utils.cpp:177-191` | keeps exactly the dialable characters and pauses |
| `CallNumberUtils.RemovePostDialPhoneNumber` | `utils/src/call_number_utils.cpp:193-209` | keeps exactly the dialable characters in front of the first pause |
| `CallNumberUtils.SeparatorsLaws` | `utils/src/call_number_utils.cpp:177-191` | removing separators distributes over concatenation and is idempotent |
| `CallNumberUtils.PostDialIsCut` | `utils/src/call_number_utils.cpp:193-209` | removing the post-dial string is removing separators and cutting before the first pause |
| `CallNumberUtils.RemovalsCommute` | `utils/src/call_number_utils.cpp:177-209` | the removals can be done in either order and are idempotent |
| `CallNumberUtils.HasAlphabetInPhoneNum` | `utils/src/call_number_utils.cpp:211-225` | true exactly for the empty text and texts with a letter |
| `CallNumberUtils.ProcessSpace` | `utils/src/call_number_utils.cpp:146-155` | extracting words and joining them keeps exactly the characters that are not white space |
| `CallNumberUtils.CleaningAccepted` | `utils/src/call_manager_utils.cpp:182-229` | cleaning an accepted number gives an optional plus and exactly its digits, by either cleaning, without letters, and accepted again |
| `CallNumberUtils.NormalForm` | `utils/src/call_number_utils.cpp:405-414` | the leftmost match of the pattern is the eleven digits from the first one, or nothing when fewer remain |
| `CallNumberUtils.NormalizeTwice` | `utils/src/call_number_utils.cpp:405-414` | normalising is idempotent |
| `CallNumberUtils.NormalizeIgnores` | `utils/src/call_number_utils.cpp:405-414` | characters other than digits, anywhere, and a prefix without a one, do not matter |
| `CallNumberUtils.SamenessByDigits` | `utils/src/call_number_utils.cpp:394-403` | two texts are the same number exactly when both have eleven digits from their first one on, and these are equal |
| `CallNumberUtils.SamenessLaws` | `utils/src/call_number_utils.cpp:394-403` | symmetric, transitive, and reflexive exactly for numbers with eleven digits from the first one |
| `CallNumberUtils.GetAccountIdByNumber` | `utils/src/call_number_utils.cpp:381-392` | the least slot whose text has the same eleven digits from its first one on; the argument is left alone when there is none |
| `EdmCallPolicies.EdmCallPolicy.SetCallPolicy` | `utils/src/edm_call_policy.cpp:33-55` | refuses lists of more than 1000 numbers and then changes nothing; otherwise both lists are exactly the requested ones, whatever was there before |
| `EdmCallPolicies.EdmCallPolicy.IsCallEnable` | `utils/src/edm_call_policy.cpp:57-87` | what a list decides about a number, and never while telephony is disabled |
| `EdmCallPolicies.EdmCallPolicy.IsDialingEnable` | `utils/src/edm_call_policy.cpp:89-92` | allowed exactly when telephony is not disabled and the last accepted update has no objection: none made, an empty list, or membership that matches the trust flag |
| `EdmCallPolicies.EdmCallPolicy.IsIncomingEnable` | `utils/src/edm_call_policy.cpp:94-97` | the same for incoming calls |
| `EdmCallPolicies.ListsDecide` | `utils/src/edm_call_policy.cpp:57-87` | the stored set and flag decide as the requested list and trust flag say |
| `EdmCallPolicies.LastAcceptedIsLast` | `utils/src/edm_call_policy.cpp:33-55` | after any run of updates the policy in force is the accepted one that no accepted one follows |
| `EdmCallPolicies.RefusedUpdatesLeaveNoTrace` | `utils/src/edm_call_policy.cpp:37-39` | a refused update can be taken out of any run |
| `PolicyThreads.AnswersSeeWholePolicies` | `utils/src/edm_call_policy.cpp:33-97` | in every interleaving every answer is that of one complete policy, the last one completed |
| `PolicyThreads.ReadersFindWholeLists` | `utils/src/edm_call_policy.cpp:57-87` | in every interleaving, while a thread reads, both lists are those of the last completed update |
| `PolicyThreads.WritersAreAlone` | `utils/src/edm_call_policy.cpp:40-52` | while a thread writes the lists, no other thread writes or reads them |
| `PolicyThreads.SetsAlone` | `utils/src/edm_call_policy.cpp:33-55` | a thread that is alone with an update puts both lists in force, or changes nothing when a list has more than 1000 numbers |
| `PolicyThreads.AsksAlone` | `utils/src/edm_call_policy.cpp:57-97` | a thread that is alone with a query is answered exactly once, by the policy in force |
| `PolicyThreads.PoliciesWereRequested` | `utils/src/edm_call_policy.cpp:33-55` | the policy behind an answer was requested before and accepted |
| `MotionRecognition.ReduceRingToneVolume` | `utils/src/motion_recognition.cpp:159-184` | terminates; goes down level by level with one setting and one pause each, and stops early only at an unusable reading |
| `MotionRecognition.WithinBudget` | `utils/src/motion_recognition.cpp:159-184` | whatever the table, the pauses total at most 1.5 seconds; if the reading for the starting level is positive, no setting reaches the starting volume |
| `MotionRecognition.FadeStopsAt` | `utils/src/motion_recognition.cpp:172-183` | the fade goes past exactly the levels whose readings are neither zero nor as loud as the start, with one equal pause at each |
| `MotionRecognition.FadeIsDetermined` | `utils/src/motion_recognition.cpp:159-184` | the settings and the time depend on the table alone |
| `MotionRecognition.FadeIsComplete` | `utils/src/motion_recognition.cpp:171-183` | with an increasing table: one setting for each level below the top, strictly decreasing, between 0 and 1, ending at the ratio of level 1, in more than 1.5 seconds less one microsecond a step |

## Left out

- Request methods: the about ninety others repeat the one modelled by `DialCall`, so they would only add copies of it.
- Service side of registration: the service keeps the callbacks of all clients in one list; the model keeps those of
  this client, in order, and removes the first (`services/call_report/src/call_ability_report_proxy.cpp:55-94`). A
  registration that fails is taken to leave the service's list unchanged.
- Death recipients: adding one is taken to succeed exactly on a live process; which recipient object is removed is not
  modelled, only that notices can come late and more than once.
- `CALL_MANAGER_AUTO_START_OPTIMIZE`: the event bus that triggers this path is not part of this model.
- Transfer-controller registration: it writes a flag under a shared lock, so the exclusion proved here does not apply.
- Memory order: threads interleave as if memory were sequentially consistent; the pointer and the flags are read and
  written in single steps.
- Parcel bytes: a parcel is a sequence of typed cells. Reading a cell of another kind yields a default, where real
  bytes would be reinterpreted; allocation failures and padding are not modelled. C strings end at their first NUL.
- Requests to the callback stub other than the two reports, and failures to write the token or the reply: the handlers
  of those requests are not part of this model. A request counts as failed to the sender when the stub returns an error.
- Records: the fields of a record are grouped into parts in the order of transmission; enumerations are 32-bit integers.
- Clocks: times are integers that do not decrease within a run; a call reads them at most twice. Token locks are left
  out, because each call holds the mutex throughout.
- Random bytes, JSON text, bundle look-up by uid and the SIM's own numbers are inputs. Converting UTF-16 to UTF-8 is
  left out; texts are sequences of characters, and digits are the ten ASCII digits.
- Regular expressions: the two used are modelled by selecting digits and by a leftmost search.
- `MotionRecognition.ReduceRingToneVolume`: does not model rounding of floating-point volumes, nor a volume table that
  changes while the loop runs; volumes are real numbers and the table is a function of the level.
- Subscribe and unsubscribe of motion sensors: flags around a plugin that is loaded at run time.
- `call_manager_service_proxy.cpp`, `cellular_call_proxy.cpp` and the thin client classes: they only write parcels and
  send them.
- Call, conference and audio services, dialogs, settings, data sharing and logging: input and output of the system.
