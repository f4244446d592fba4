/**
 The parcel codec of call records. The writer and the reader live on the two sides of the IPC boundary, in
 different source files; this module gives each its own specification and proves that they undo each other.
 */
module CallAttributeCodec {
  import opened TelephonyBase
  import opened CallRecords
  import opened MessageParcels
  import opened Windows

  const MAX_SIZE := 10000

  // What the service knows of its live call objects: call id to "report me as a voice call".
  type CallObjects = map<int32, bool>

  predicate IsForcedReportVoiceCall(call: CallPart, objects: CallObjects) {
    call.callState == CALL_STATUS_INCOMING && call.callId in objects && objects[call.callId]
  }

  // ---------- the cells a record is written as ----------

  function VoipCells(v: VoipCallReportInfo): (cells: seq<Cell>)
    ensures |cells| == 14
  {
    [Str(v.voipCallId), Str(v.userName), Str(v.abilityName), Str(v.extensionId), Str(v.voipBundleName),
     Bool(v.showBannerForIncomingCall), Bool(v.isConferenceCall), Bool(v.isVoiceAnswerSupported),
     Bool(v.isUserMuteRingToneAllowed), Bool(v.isDialingAllowedDuringCarrierCall), Bool(v.hasMicPermission),
     Bool(v.isCapsuleSticky), Int32(v.uid), Bytes(v.userProfile)]
  }

  function VoipBlock(callType: int32, v: VoipCallReportInfo): seq<Cell> {
    if callType == TYPE_VOIP then VoipCells(v) else []
  }

  function CallCells(call: CallPart, objects: CallObjects): (cells: seq<Cell>)
    ensures |cells| == 10
  {
    [CStr(call.accountNumber), CStr(call.bundleName), Bool(call.speakerphoneOn), Int32(call.accountId),
     Int32(if IsForcedReportVoiceCall(call, objects) then TYPE_VOICE else call.videoState),
     Int64(call.startTime), Bool(call.isEcc), Int32(call.callType), Int32(call.callId), Int32(call.callState)]
  }

  function TimeCells(times: TimePart): (cells: seq<Cell>)
    ensures |cells| == 8
  {
    [Int32(times.conferenceState), Int64(times.callBeginTime), Int64(times.callEndTime),
     Int64(times.ringBeginTime), Int64(times.ringEndTime), Int32(times.callDirection), Int32(times.answerType),
     Int32(times.index)]
  }

  function TypeCells(types: TypePart): (cells: seq<Cell>)
    ensures |cells| == 3
  {
    [Int32(types.crsType), Int32(types.originalCallType), CStr(types.numberLocation)]
  }

  function NumberCells(number: NumberPart): (cells: seq<Cell>)
    ensures |cells| == 8
  {
    [Int32(number.numberMarkInfo.markType), CStr(number.numberMarkInfo.markContent),
     Int32(number.numberMarkInfo.markCount), CStr(number.numberMarkInfo.markSource),
     Bool(number.numberMarkInfo.isCloud), CStr(number.numberMarkInfo.markDetails), CStr(number.contactName),
     Str(number.extraParamsString)]
  }

  function TailCells(tail: TailPart): (cells: seq<Cell>)
    ensures |cells| == 3
  {
    [Int32(tail.phoneOrWatch), Int32(tail.rttState), Bool(tail.isCustomAccessibility)]
  }

  function AttributeCells(info: CallAttributeInfo, objects: CallObjects): seq<Cell> {
    CallCells(info.call, objects)
    + (TimeCells(info.times)
       + (TypeCells(info.types)
          + (NumberCells(info.number)
             + (VoipBlock(info.call.callType, info.voipCallInfo) + TailCells(info.tail)))))
  }

  // ---------- the record read from a given position ----------

  function VoipAt(cells: seq<Cell>, p: nat): VoipCallReportInfo {
    VoipCallReportInfo(StrAt(cells, p), StrAt(cells, p + 1), StrAt(cells, p + 2), StrAt(cells, p + 3),
      StrAt(cells, p + 4), BoolAt(cells, p + 5), BoolAt(cells, p + 6), BoolAt(cells, p + 7),
      BoolAt(cells, p + 8), BoolAt(cells, p + 9), BoolAt(cells, p + 10), BoolAt(cells, p + 11),
      Int32At(cells, p + 12), BytesAt(cells, p + 13))
  }

  function NumberTextAt(cells: seq<Cell>, p: nat): NumberText {
    BoundedCopy(CStrAt(cells, p), MAX_NUMBER_LEN)
  }

  function CallAt(cells: seq<Cell>, p: nat): CallPart {
    CallPart(NumberTextAt(cells, p), BoundedCopy(CStrAt(cells, p + 1), MAX_BUNDLE_NAME_LEN), BoolAt(cells, p + 2),
      Int32At(cells, p + 3), Int32At(cells, p + 4), Int64At(cells, p + 5), BoolAt(cells, p + 6),
      Int32At(cells, p + 7), Int32At(cells, p + 8), Int32At(cells, p + 9))
  }

  function TimesAt(cells: seq<Cell>, p: nat): TimePart {
    TimePart(Int32At(cells, p), Int64At(cells, p + 1), Int64At(cells, p + 2), Int64At(cells, p + 3),
      Int64At(cells, p + 4), Int32At(cells, p + 5), Int32At(cells, p + 6), Int32At(cells, p + 7))
  }

  function TypesAt(cells: seq<Cell>, p: nat): TypePart {
    TypePart(Int32At(cells, p), Int32At(cells, p + 1), NumberTextAt(cells, p + 2))
  }

  function NumberAt(cells: seq<Cell>, p: nat): NumberPart {
    var mark := NumberMarkInfo(Int32At(cells, p), NumberTextAt(cells, p + 1), Int32At(cells, p + 2),
      NumberTextAt(cells, p + 3), BoolAt(cells, p + 4), NumberTextAt(cells, p + 5));
    NumberPart(mark, NumberTextAt(cells, p + 6), StrAt(cells, p + 7))
  }

  function TailAt(cells: seq<Cell>, p: nat): TailPart {
    TailPart(Int32At(cells, p), Int32At(cells, p + 1), BoolAt(cells, p + 2))
  }

  // Where the last three cells of the record starting at p are.
  function TailPosition(cells: seq<Cell>, p: nat): nat {
    if CallAt(cells, p).callType == TYPE_VOIP then p + 43 else p + 29
  }

  function AttributeAt(cells: seq<Cell>, p: nat): CallAttributeInfo {
    var voip := if CallAt(cells, p).callType == TYPE_VOIP then VoipAt(cells, p + 29) else DEFAULT_VOIP;
    CallAttributeInfo(CallAt(cells, p), TimesAt(cells, p + 10), TypesAt(cells, p + 18), NumberAt(cells, p + 21),
      voip, TailAt(cells, TailPosition(cells, p)), DEFAULT_UNSENT)
  }

  // ---------- the writer, group by group ----------

  method WriteVoipCells(v: VoipCallReportInfo, parcel: MessageParcel)
    modifies parcel`cells
    ensures parcel.cells == old(parcel.cells) + VoipCells(v)
  {
    AppendFourteen(parcel.cells, VoipCells(v));
    parcel.Write(Str(v.voipCallId));
    parcel.Write(Str(v.userName));
    parcel.Write(Str(v.abilityName));
    parcel.Write(Str(v.extensionId));
    parcel.Write(Str(v.voipBundleName));
    parcel.Write(Bool(v.showBannerForIncomingCall));
    parcel.Write(Bool(v.isConferenceCall));
    parcel.Write(Bool(v.isVoiceAnswerSupported));
    parcel.Write(Bool(v.isUserMuteRingToneAllowed));
    parcel.Write(Bool(v.isDialingAllowedDuringCarrierCall));
    parcel.Write(Bool(v.hasMicPermission));
    parcel.Write(Bool(v.isCapsuleSticky));
    parcel.Write(Int32(v.uid));
    parcel.Write(Bytes(v.userProfile));
  }

  method WriteVoipCallInfo(callType: int32, v: VoipCallReportInfo, parcel: MessageParcel)
    modifies parcel`cells
    ensures parcel.cells == old(parcel.cells) + VoipBlock(callType, v)
  {
    if callType == TYPE_VOIP {
      WriteVoipCells(v, parcel);
    }
  }

  method WriteCallPart(call: CallPart, objects: CallObjects, parcel: MessageParcel)
    modifies parcel`cells
    ensures parcel.cells == old(parcel.cells) + CallCells(call, objects)
  {
    AppendTen(parcel.cells, CallCells(call, objects));
    parcel.Write(CStr(call.accountNumber));
    parcel.Write(CStr(call.bundleName));
    parcel.Write(Bool(call.speakerphoneOn));
    parcel.Write(Int32(call.accountId));
    if IsForcedReportVoiceCall(call, objects) {
      parcel.Write(Int32(TYPE_VOICE));
    } else {
      parcel.Write(Int32(call.videoState));
    }
    parcel.Write(Int64(call.startTime));
    parcel.Write(Bool(call.isEcc));
    parcel.Write(Int32(call.callType));
    parcel.Write(Int32(call.callId));
    parcel.Write(Int32(call.callState));
  }

  method WriteTimePart(times: TimePart, parcel: MessageParcel)
    modifies parcel`cells
    ensures parcel.cells == old(parcel.cells) + TimeCells(times)
  {
    AppendEight(parcel.cells, TimeCells(times));
    parcel.Write(Int32(times.conferenceState));
    parcel.Write(Int64(times.callBeginTime));
    parcel.Write(Int64(times.callEndTime));
    parcel.Write(Int64(times.ringBeginTime));
    parcel.Write(Int64(times.ringEndTime));
    parcel.Write(Int32(times.callDirection));
    parcel.Write(Int32(times.answerType));
    parcel.Write(Int32(times.index));
  }

  method WriteNumberPart(number: NumberPart, parcel: MessageParcel)
    modifies parcel`cells
    ensures parcel.cells == old(parcel.cells) + NumberCells(number)
  {
    AppendEight(parcel.cells, NumberCells(number));
    parcel.Write(Int32(number.numberMarkInfo.markType));
    parcel.Write(CStr(number.numberMarkInfo.markContent));
    parcel.Write(Int32(number.numberMarkInfo.markCount));
    parcel.Write(CStr(number.numberMarkInfo.markSource));
    parcel.Write(Bool(number.numberMarkInfo.isCloud));
    parcel.Write(CStr(number.numberMarkInfo.markDetails));
    parcel.Write(CStr(number.contactName));
    parcel.Write(Str(number.extraParamsString));
  }

  method WriteCallAttributeInfo(info: CallAttributeInfo, objects: CallObjects, parcel: MessageParcel)
    modifies parcel`cells
    ensures parcel.cells == old(parcel.cells) + AttributeCells(info, objects)
  {
    SumOfSix(parcel.cells, CallCells(info.call, objects), TimeCells(info.times), TypeCells(info.types),
      NumberCells(info.number), VoipBlock(info.call.callType, info.voipCallInfo), TailCells(info.tail));
    WriteCallPart(info.call, objects, parcel);
    WriteTimePart(info.times, parcel);
    AppendThree(parcel.cells, TypeCells(info.types));
    parcel.Write(Int32(info.types.crsType));
    parcel.Write(Int32(info.types.originalCallType));
    parcel.Write(CStr(info.types.numberLocation));
    WriteNumberPart(info.number, parcel);
    WriteVoipCallInfo(info.call.callType, info.voipCallInfo, parcel);
    AppendThree(parcel.cells, TailCells(info.tail));
    parcel.Write(Int32(info.tail.phoneOrWatch));
    parcel.Write(Int32(info.tail.rttState));
    parcel.Write(Bool(info.tail.isCustomAccessibility));
  }

  lemma SumOfSix<T>(s: seq<T>, a: seq<T>, b: seq<T>, c: seq<T>, d: seq<T>, e: seq<T>, f: seq<T>)
    ensures s + a + b + c + d + e + f == s + (a + (b + (c + (d + (e + f)))))
  {
  }

  // ---------- the reader, group by group ----------

  method ReadVoipCells(parcel: MessageParcel) returns (v: VoipCallReportInfo)
    modifies parcel`cursor
    ensures v == VoipAt(parcel.cells, old(parcel.cursor)) && parcel.cursor == old(parcel.cursor) + 14
  {
    var voipCallId := parcel.ReadString();
    var userName := parcel.ReadString();
    var abilityName := parcel.ReadString();
    var extensionId := parcel.ReadString();
    var voipBundleName := parcel.ReadString();
    var showBanner := parcel.ReadBool();
    var isConference := parcel.ReadBool();
    var voiceAnswer := parcel.ReadBool();
    var userMute := parcel.ReadBool();
    var dialingAllowed := parcel.ReadBool();
    var hasMic := parcel.ReadBool();
    var sticky := parcel.ReadBool();
    var uid := parcel.ReadInt32();
    var userProfile := parcel.ReadUInt8Vector();
    v := VoipCallReportInfo(voipCallId, userName, abilityName, extensionId, voipBundleName, showBanner,
      isConference, voiceAnswer, userMute, dialingAllowed, hasMic, sticky, uid, userProfile);
  }

  method ReadCallPart(parcel: MessageParcel) returns (call: CallPart)
    modifies parcel`cursor
    ensures call == CallAt(parcel.cells, old(parcel.cursor)) && parcel.cursor == old(parcel.cursor) + 10
  {
    var accountNumber := parcel.ReadCharArray(MAX_NUMBER_LEN);
    var bundleName := parcel.ReadCharArray(MAX_BUNDLE_NAME_LEN);
    var speakerphoneOn := parcel.ReadBool();
    var accountId := parcel.ReadInt32();
    var videoState := parcel.ReadInt32();
    var startTime := parcel.ReadInt64();
    var isEcc := parcel.ReadBool();
    var callType := parcel.ReadInt32();
    var callId := parcel.ReadInt32();
    var callState := parcel.ReadInt32();
    call := CallPart(accountNumber, bundleName, speakerphoneOn, accountId, videoState, startTime, isEcc, callType,
      callId, callState);
  }

  method ReadTimePart(parcel: MessageParcel) returns (times: TimePart)
    modifies parcel`cursor
    ensures times == TimesAt(parcel.cells, old(parcel.cursor)) && parcel.cursor == old(parcel.cursor) + 8
  {
    var conferenceState := parcel.ReadInt32();
    var callBeginTime := parcel.ReadInt64();
    var callEndTime := parcel.ReadInt64();
    var ringBeginTime := parcel.ReadInt64();
    var ringEndTime := parcel.ReadInt64();
    var callDirection := parcel.ReadInt32();
    var answerType := parcel.ReadInt32();
    var index := parcel.ReadInt32();
    times := TimePart(conferenceState, callBeginTime, callEndTime, ringBeginTime, ringEndTime, callDirection,
      answerType, index);
  }

  method ReadNumberPart(parcel: MessageParcel) returns (number: NumberPart)
    modifies parcel`cursor
    ensures number == NumberAt(parcel.cells, old(parcel.cursor)) && parcel.cursor == old(parcel.cursor) + 8
  {
    var markType := parcel.ReadInt32();
    var markContent := parcel.ReadCharArray(MAX_NUMBER_LEN);
    var markCount := parcel.ReadInt32();
    var markSource := parcel.ReadCharArray(MAX_NUMBER_LEN);
    var isCloud := parcel.ReadBool();
    var markDetails := parcel.ReadCharArray(MAX_NUMBER_LEN);
    var contactName := parcel.ReadCharArray(MAX_NUMBER_LEN);
    var extraParamsString := parcel.ReadString();
    var mark := NumberMarkInfo(markType, markContent, markCount,
      markSource, isCloud, markDetails);
    number := NumberPart(mark, contactName, extraParamsString);
  }

  method ReadTypePart(parcel: MessageParcel) returns (types: TypePart)
    modifies parcel`cursor
    ensures types == TypesAt(parcel.cells, old(parcel.cursor)) && parcel.cursor == old(parcel.cursor) + 3
  {
    var crsType := parcel.ReadInt32();
    var originalCallType := parcel.ReadInt32();
    var numberLocation := parcel.ReadCharArray(MAX_NUMBER_LEN);
    types := TypePart(crsType, originalCallType, numberLocation);
  }

  method ReadTailPart(parcel: MessageParcel) returns (tail: TailPart)
    modifies parcel`cursor
    ensures tail == TailAt(parcel.cells, old(parcel.cursor)) && parcel.cursor == old(parcel.cursor) + 3
  {
    var phoneOrWatch := parcel.ReadInt32();
    var rttState := parcel.ReadInt32();
    var isCustomAccessibility := parcel.ReadBool();
    tail := TailPart(phoneOrWatch, rttState, isCustomAccessibility);
  }

  method ReadCallAttributeInfo(parcel: MessageParcel) returns (info: CallAttributeInfo)
    modifies parcel`cursor
    ensures info == AttributeAt(parcel.cells, old(parcel.cursor))
    ensures parcel.cursor == TailPosition(parcel.cells, old(parcel.cursor)) + 3
  {
    hide CallAt, TimesAt, TypesAt, NumberAt, VoipAt, TailAt;
    var call := ReadCallPart(parcel);
    var times := ReadTimePart(parcel);
    var types := ReadTypePart(parcel);
    var number := ReadNumberPart(parcel);
    var voipCallInfo := DEFAULT_VOIP;
    if call.callType == TYPE_VOIP {
      voipCallInfo := ReadVoipCells(parcel);
    }
    var tail := ReadTailPart(parcel);
    info := CallAttributeInfo(call, times, types, number, voipCallInfo, tail, DEFAULT_UNSENT);
  }

  // ---------- round trip of one record ----------

  /** What the receiver should know of a record. */
  function Transmitted(info: CallAttributeInfo, objects: CallObjects): CallAttributeInfo {
    info.(
      call := if IsForcedReportVoiceCall(info.call, objects) then info.call.(videoState := TYPE_VOICE) else info.call,
      voipCallInfo := if info.call.callType == TYPE_VOIP then info.voipCallInfo else DEFAULT_VOIP,
      unsent := DEFAULT_UNSENT)
  }

  lemma VoipReadsBack(cells: seq<Cell>, p: nat, v: VoipCallReportInfo)
    requires Holds(cells, p, VoipCells(v))
    ensures VoipAt(cells, p) == v
  {
    HoldsFourteen(cells, p, VoipCells(v));
  }

  lemma CallReadsBack(cells: seq<Cell>, p: nat, call: CallPart, objects: CallObjects)
    requires Holds(cells, p, CallCells(call, objects))
    ensures CallAt(cells, p)
      == if IsForcedReportVoiceCall(call, objects) then call.(videoState := TYPE_VOICE) else call
  {
    HoldsTen(cells, p, CallCells(call, objects));
  }

  lemma TimesReadBack(cells: seq<Cell>, p: nat, times: TimePart)
    requires Holds(cells, p, TimeCells(times))
    ensures TimesAt(cells, p) == times
  {
    HoldsEight(cells, p, TimeCells(times));
  }

  lemma NumberReadsBack(cells: seq<Cell>, p: nat, number: NumberPart)
    requires Holds(cells, p, NumberCells(number))
    ensures NumberAt(cells, p) == number
  {
    HoldsEight(cells, p, NumberCells(number));
  }

  lemma AttributeParts(cells: seq<Cell>, p: nat, info: CallAttributeInfo, objects: CallObjects)
    requires Holds(cells, p, AttributeCells(info, objects))
    ensures Holds(cells, p, CallCells(info.call, objects))
    ensures Holds(cells, p + 10, TimeCells(info.times))
    ensures Holds(cells, p + 18, TypeCells(info.types))
    ensures Holds(cells, p + 21, NumberCells(info.number))
    ensures info.call.callType == TYPE_VOIP ==> Holds(cells, p + 29, VoipCells(info.voipCallInfo))
    ensures Holds(cells, if info.call.callType == TYPE_VOIP then p + 43 else p + 29, TailCells(info.tail))
  {
    hide CallCells, TimeCells, TypeCells, NumberCells, VoipCells, TailCells;
    var voip := VoipBlock(info.call.callType, info.voipCallInfo) + TailCells(info.tail);
    var number := NumberCells(info.number) + voip;
    var types := TypeCells(info.types) + number;
    HoldsParts(cells, p, CallCells(info.call, objects), TimeCells(info.times) + types);
    HoldsParts(cells, p + 10, TimeCells(info.times), types);
    HoldsParts(cells, p + 18, TypeCells(info.types), number);
    HoldsParts(cells, p + 21, NumberCells(info.number), voip);
    HoldsParts(cells, p + 29, VoipBlock(info.call.callType, info.voipCallInfo), TailCells(info.tail));
  }

  /** One record, wherever it stands in a parcel: reading it gives what was sent and stops where it ends. */
  lemma AttributeReadsBack(cells: seq<Cell>, p: nat, info: CallAttributeInfo, objects: CallObjects)
    requires Holds(cells, p, AttributeCells(info, objects))
    ensures AttributeAt(cells, p) == Transmitted(info, objects)
    ensures TailPosition(cells, p) + 3 == p + |AttributeCells(info, objects)|
  {
    hide CallCells, TimeCells, NumberCells, VoipCells, CallAt, TimesAt, NumberAt, VoipAt;
    AttributeParts(cells, p, info, objects);
    CallReadsBack(cells, p, info.call, objects);
    TimesReadBack(cells, p + 10, info.times);
    HoldsThree(cells, p + 18, TypeCells(info.types));
    NumberReadsBack(cells, p + 21, info.number);
    if info.call.callType == TYPE_VOIP {
      VoipReadsBack(cells, p + 29, info.voipCallInfo);
    }
    HoldsThree(cells, TailPosition(cells, p), TailCells(info.tail));
  }

  // ---------- the counted list ----------

  function ListCells(infos: seq<CallAttributeInfo>, objects: CallObjects): seq<Cell> {
    if infos == [] then []
    else ListCells(infos[..|infos| - 1], objects) + AttributeCells(infos[|infos| - 1], objects)
  }

  function CallListCells(infos: seq<CallAttributeInfo>, objects: CallObjects): seq<Cell> {
    [Int32(WrapToInt32(|infos|))] + ListCells(infos, objects)
  }

  // The n records read from position p, and the position behind them.
  function ListAt(cells: seq<Cell>, p: nat, n: nat): (seq<CallAttributeInfo>, nat) {
    if n == 0 then ([], p)
    else
      var (infos, q) := ListAt(cells, p, n - 1);
      (infos + [AttributeAt(cells, q)], TailPosition(cells, q) + 3)
  }

  function CallListAt(cells: seq<Cell>, p: nat): (seq<CallAttributeInfo>, nat) {
    var count := Int32At(cells, p);
    if count <= 0 || count >= MAX_SIZE then ([], p + 1) else ListAt(cells, p + 1, count)
  }

  method OnGetCurrentCallList(infos: seq<CallAttributeInfo>, objects: CallObjects, reply: MessageParcel)
    modifies reply`cells
    ensures reply.cells == old(reply.cells) + CallListCells(infos, objects)
  {
    hide AttributeCells;
    reply.Write(Int32(WrapToInt32(|infos|)));
    ghost var start := reply.cells;
    for i := 0 to |infos|
      invariant reply.cells == start + ListCells(infos[..i], objects)
    {
      assert infos[..i + 1][..i] == infos[..i];
      WriteCallAttributeInfo(infos[i], objects, reply);
      assert start + ListCells(infos[..i], objects) + AttributeCells(infos[i], objects)
        == start + (ListCells(infos[..i], objects) + AttributeCells(infos[i], objects));
    }
    assert infos[..|infos|] == infos;
  }

  method GetCurrentCallList(delivered: bool, reply: MessageParcel) returns (calls: seq<CallAttributeInfo>)
    modifies reply`cursor
    ensures delivered ==> (calls, reply.cursor) == CallListAt(reply.cells, old(reply.cursor))
    ensures !delivered ==> calls == [] && reply.cursor == old(reply.cursor)
    ensures delivered ==>
      var count := Int32At(reply.cells, old(reply.cursor));
      if 0 < count < 10000 then |calls| == count else calls == []
  {
    hide AttributeAt, TailPosition;
    calls := [];
    if !delivered {
      return;
    }
    var count := reply.ReadInt32();
    if count <= 0 || count >= MAX_SIZE {
      return;
    }
    ghost var p := reply.cursor;
    for i := 0 to count
      invariant (calls, reply.cursor) == ListAt(reply.cells, p, i)
    {
      var info := ReadCallAttributeInfo(reply);
      calls := calls + [info];
    }
    ListLength(reply.cells, p, count);
  }

  function TransmittedAll(infos: seq<CallAttributeInfo>, objects: CallObjects): seq<CallAttributeInfo> {
    seq(|infos|, i requires 0 <= i < |infos| => Transmitted(infos[i], objects))
  }

  lemma {:induction false} ListReadsBack(cells: seq<Cell>, p: nat, infos: seq<CallAttributeInfo>,
      objects: CallObjects)
    requires Holds(cells, p, ListCells(infos, objects))
    ensures ListAt(cells, p, |infos|) == (TransmittedAll(infos, objects), p + |ListCells(infos, objects)|)
  {
    hide AttributeCells, AttributeAt, TailPosition, Transmitted;
    if infos != [] {
      var front, last := infos[..|infos| - 1], infos[|infos| - 1];
      HoldsParts(cells, p, ListCells(front, objects), AttributeCells(last, objects));
      ListReadsBack(cells, p, front, objects);
      AttributeReadsBack(cells, p + |ListCells(front, objects)|, last, objects);
      assert TransmittedAll(infos, objects) == TransmittedAll(front, objects) + [Transmitted(last, objects)];
    }
  }

  lemma {:induction false} ListLength(cells: seq<Cell>, p: nat, n: nat)
    ensures |ListAt(cells, p, n).0| == n
  {
    hide AttributeAt, TailPosition;
    if n > 0 {
      ListLength(cells, p, n - 1);
    }
  }

  /**
   The reply to a call-list request, with anything in front of it and behind it: the list arrives exactly when
   it has fewer than 10000 records, and then the reader stops exactly behind it.
   */
  lemma CallListRoundTrip(c: seq<Cell>, infos: seq<CallAttributeInfo>, objects: CallObjects, rest: seq<Cell>)
    ensures var (calls, end) := CallListAt(c + CallListCells(infos, objects) + rest, |c|);
      && (calls == TransmittedAll(infos, objects) <==> |infos| < MAX_SIZE)
      && (|infos| < MAX_SIZE ==> end == |c| + |CallListCells(infos, objects)|)
  {
    hide AttributeCells, AttributeAt, TailPosition, Transmitted;
    var cells := c + CallListCells(infos, objects) + rest;
    HoldsMiddle(c, CallListCells(infos, objects), rest);
    HoldsParts(cells, |c|, [Int32(WrapToInt32(|infos|))], ListCells(infos, objects));
    assert cells[|c| + 0] == Int32(WrapToInt32(|infos|));
    if |infos| < MAX_SIZE {
      ListReadsBack(cells, |c| + 1, infos, objects);
    } else {
      var count := WrapToInt32(|infos|);
      if 0 < count < MAX_SIZE {
        ListLength(cells, |c| + 1, count);
      }
    }
  }

  /** The whole exchange: the service fills a fresh reply, the client reads it. */
  method ExchangeCallList(infos: seq<CallAttributeInfo>, objects: CallObjects)
    returns (calls: seq<CallAttributeInfo>)
    ensures calls == TransmittedAll(infos, objects) <==> |infos| < MAX_SIZE
    ensures |calls| == if 0 < WrapToInt32(|infos|) < 10000 then WrapToInt32(|infos|) else 0
    ensures |infos| < 10000 ==>
      |calls| == |infos| && forall i :: 0 <= i < |infos| ==> ArrivesAs(infos[i], objects, calls[i])
  {
    hide ArrivesAs, Transmitted;
    var reply := new MessageParcel();
    OnGetCurrentCallList(infos, objects, reply);
    CallListRoundTrip([], infos, objects, []);
    assert [] + CallListCells(infos, objects) + [] == reply.cells;
    calls := GetCurrentCallList(true, reply);
    assert reply.cells[0] == Int32(WrapToInt32(|infos|));
    if |infos| < MAX_SIZE {
      forall i | 0 <= i < |infos|
        ensures ArrivesAs(infos[i], objects, calls[i])
      {
        TransmittedFields(infos[i], objects);
        assert calls[i] == Transmitted(infos[i], objects);
      }
    }
  }

  // ---------- the record field by field ----------

  /** What a record arrives as: only incoming calls that are reported as voice calls lose their video state. */
  predicate ArrivesAs(info: CallAttributeInfo, objects: CallObjects, got: CallAttributeInfo) {
    && got.call.(videoState := 0) == info.call.(videoState := 0)
    && got.call.videoState == (
         if info.call.callState == CALL_STATUS_INCOMING
            && info.call.callId in objects && objects[info.call.callId] then TYPE_VOICE
         else info.call.videoState)
    && got.times == info.times && got.types == info.types && got.number == info.number && got.tail == info.tail
    && got.voipCallInfo == (if info.call.callType == TYPE_VOIP then info.voipCallInfo else DEFAULT_VOIP)
    && got.unsent == DEFAULT_UNSENT
  }

  lemma TransmittedFields(info: CallAttributeInfo, objects: CallObjects)
    ensures ArrivesAs(info, objects, Transmitted(info, objects))
  {
  }

  /** One record, written and read back. */
  method ExchangeCallAttributeInfo(info: CallAttributeInfo, objects: CallObjects) returns (r: CallAttributeInfo)
    ensures info.call.callState == CALL_STATUS_INCOMING && info.call.callId in objects && objects[info.call.callId]
      ==> r.call == info.call.(videoState := TYPE_VOICE)
    ensures !(info.call.callState == CALL_STATUS_INCOMING && info.call.callId in objects
              && objects[info.call.callId])
      ==> r.call == info.call
    ensures r.times == info.times && r.types == info.types && r.number == info.number && r.tail == info.tail
    ensures r.voipCallInfo == if info.call.callType == TYPE_VOIP then info.voipCallInfo else DEFAULT_VOIP
    ensures r.unsent == DEFAULT_UNSENT
  {
    hide AttributeCells, AttributeAt;
    var parcel := new MessageParcel();
    WriteCallAttributeInfo(info, objects, parcel);
    assert parcel.cells == AttributeCells(info, objects);
    HoldsMiddle([], parcel.cells, []);
    assert [] + parcel.cells + [] == parcel.cells;
    AttributeReadsBack(parcel.cells, 0, info, objects);
    r := ReadCallAttributeInfo(parcel);
  }
}
