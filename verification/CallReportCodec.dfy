/**
 The parcel codec of call reports: the proxy in the cellular stack packs one call or a batch of calls, the stub
 in the call manager unpacks them. The stub unpacks every call of a batch into the same record.
 */
module CallReportCodec {
  import opened TelephonyBase
  import opened CallRecords
  import opened MessageParcels
  import opened Windows
  import Codec = CallAttributeCodec

  const MAX_CALL_NUM := 10
  const FAILED_UNKNOWN: int32 := 1279
  const DESCRIPTOR := "OHOS.Telephony.ICallStatusCallback"
  const UPDATE_CALL_INFO := 0
  const UPDATE_CALLS_INFO := 1

  // The fields that both the single and the batch report carry.
  datatype FrontPart = FrontPart(
    index: int32,
    accountNum: NumberText,
    accountId: int32,
    callType: int32,
    callMode: int32,
    state: int32,
    voiceDomain: int32,
    mpty: int32)

  datatype KindPart = KindPart(crsType: int32, originalCallType: int32, phoneIndex: int32)

  // The fields that only the batch report carries.
  datatype ExtraPart = ExtraPart(
    name: string,
    namePresentation: int32,
    reason: int32,
    message: string,
    newCallUseBox: int32,
    rttState: int32,
    rttChannelId: int32,
    imsDomain: int32)

  datatype CallReportInfo = CallReportInfo(
    front: FrontPart,
    kind: KindPart,
    voipCallInfo: VoipCallReportInfo,
    extra: ExtraPart,
    isPendingHold: bool,
    remoteBluetoothAddr: string)

  datatype CallsReportInfo = CallsReportInfo(callVec: seq<CallReportInfo>, slotId: int32)

  const DEFAULT_FRONT := FrontPart(0, "", 0, 3, 0, -1, 0, 0)
  const DEFAULT_EXTRA := ExtraPart("", 0, FAILED_UNKNOWN, "", 0, 0, -1, 0)
  const DEFAULT_REPORT := CallReportInfo(DEFAULT_FRONT, KindPart(0, 0, 0), DEFAULT_VOIP, DEFAULT_EXTRA, false, "")

  // What is read of the batch-only fields when they were not sent.
  const ABSENT_EXTRA := ExtraPart("", 0, FAILED_UNKNOWN, "", 0, 0, 0, 0)

  // ---------- the cells a report is written as ----------

  function FrontCells(front: FrontPart): (cells: seq<Cell>)
    ensures |cells| == 8
  {
    [Int32(front.index), CStr(front.accountNum), Int32(front.accountId), Int32(front.callType),
     Int32(front.callMode), Int32(front.state), Int32(front.voiceDomain), Int32(front.mpty)]
  }

  function KindCells(kind: KindPart): (cells: seq<Cell>)
    ensures |cells| == 3
  {
    [Int32(kind.crsType), Int32(kind.originalCallType), Int32(kind.phoneIndex)]
  }

  function ExtraCells(extra: ExtraPart): (cells: seq<Cell>)
    ensures |cells| == 8
  {
    [Str(extra.name), Int32(extra.namePresentation), Int32(extra.reason), Str(extra.message),
     Int32(extra.newCallUseBox), Int32(extra.rttState), Int32(extra.rttChannelId), Int32(extra.imsDomain)]
  }

  function SingleCells(report: CallReportInfo): (cells: seq<Cell>)
    ensures |cells| == if report.front.callType == TYPE_VOIP then 25 else 11
  {
    FrontCells(report.front)
    + (KindCells(report.kind) + Codec.VoipBlock(report.front.callType, report.voipCallInfo))
  }

  function SectionCells(report: CallReportInfo): (cells: seq<Cell>)
    ensures |cells| == if report.front.callType == TYPE_VOIP then 33 else 19
  {
    SingleCells(report) + ExtraCells(report.extra)
  }

  function SectionsCells(reports: seq<CallReportInfo>): seq<Cell> {
    if reports == [] then []
    else SectionsCells(reports[..|reports| - 1]) + SectionCells(reports[|reports| - 1])
  }

  function BatchCells(info: CallsReportInfo): seq<Cell> {
    [Token(DESCRIPTOR), Int32(WrapToInt32(|info.callVec|))] + (SectionsCells(info.callVec) + [Int32(info.slotId)])
  }

  // ---------- the report read from a given position ----------

  function FrontAt(cells: seq<Cell>, p: nat): FrontPart {
    FrontPart(Int32At(cells, p), BoundedCopy(CStrAt(cells, p + 1), MAX_NUMBER_LEN), Int32At(cells, p + 2),
      Int32At(cells, p + 3), Int32At(cells, p + 4), Int32At(cells, p + 5), Int32At(cells, p + 6),
      Int32At(cells, p + 7))
  }

  function KindAt(cells: seq<Cell>, p: nat): KindPart {
    KindPart(Int32At(cells, p), Int32At(cells, p + 1), Int32At(cells, p + 2))
  }

  function ExtraAt(cells: seq<Cell>, p: nat, previous: ExtraPart): ExtraPart {
    var reason := if p + 2 < |cells| && cells[p + 2].Int32? then cells[p + 2].i else previous.reason;
    ExtraPart(StrAt(cells, p), Int32At(cells, p + 1), reason, StrAt(cells, p + 3), Int32At(cells, p + 4),
      Int32At(cells, p + 5), Int32At(cells, p + 6), Int32At(cells, p + 7))
  }

  function ExtraPosition(cells: seq<Cell>, p: nat): nat {
    if FrontAt(cells, p).callType == TYPE_VOIP then p + 25 else p + 11
  }

  // The record after unpacking the section at p into one that held the previous call.
  function ReportAt(cells: seq<Cell>, p: nat, previous: CallReportInfo): CallReportInfo {
    previous.(
      front := FrontAt(cells, p),
      kind := KindAt(cells, p + 8),
      voipCallInfo :=
        if FrontAt(cells, p).callType == TYPE_VOIP then Codec.VoipAt(cells, p + 11) else previous.voipCallInfo,
      extra := ExtraAt(cells, ExtraPosition(cells, p), previous.extra))
  }

  // The n reports unpacked from position p, the record left over, and the position behind them.
  function ReportsAt(cells: seq<Cell>, p: nat, n: nat): (seq<CallReportInfo>, CallReportInfo, nat) {
    if n == 0 then ([], DEFAULT_REPORT, p)
    else
      var (reports, previous, q) := ReportsAt(cells, p, n - 1);
      var report := ReportAt(cells, q, previous);
      (reports + [report], report, ExtraPosition(cells, q) + 8)
  }

  // What reaches UpdateCallsReportInfo; None when the batch is rejected.
  function BatchAt(cells: seq<Cell>, p: nat): Option<CallsReportInfo> {
    var count := Int32At(cells, p);
    if count <= 0 || count > MAX_CALL_NUM then None
    else
      var (reports, _, q) := ReportsAt(cells, p + 1, count);
      Some(CallsReportInfo(reports, Int32At(cells, q)))
  }

  // ---------- the proxy ----------

  method WriteSingle(report: CallReportInfo, parcel: MessageParcel)
    modifies parcel`cells
    ensures parcel.cells == old(parcel.cells) + SingleCells(report)
  {
    var front, kind := report.front, report.kind;
    AppendEight(parcel.cells, FrontCells(front));
    parcel.Write(Int32(front.index));
    parcel.Write(CStr(front.accountNum));
    parcel.Write(Int32(front.accountId));
    parcel.Write(Int32(front.callType));
    parcel.Write(Int32(front.callMode));
    parcel.Write(Int32(front.state));
    parcel.Write(Int32(front.voiceDomain));
    parcel.Write(Int32(front.mpty));
    AppendThree(parcel.cells, KindCells(kind));
    parcel.Write(Int32(kind.crsType));
    parcel.Write(Int32(kind.originalCallType));
    parcel.Write(Int32(kind.phoneIndex));
    SumOfThree(old(parcel.cells), FrontCells(front), KindCells(kind),
      Codec.VoipBlock(front.callType, report.voipCallInfo));
    Codec.WriteVoipCallInfo(front.callType, report.voipCallInfo, parcel);
  }

  lemma SumOfThree<T>(s: seq<T>, a: seq<T>, b: seq<T>, c: seq<T>)
    ensures s + a + b + c == s + (a + (b + c))
  {
  }

  method WriteExtra(extra: ExtraPart, parcel: MessageParcel)
    modifies parcel`cells
    ensures parcel.cells == old(parcel.cells) + ExtraCells(extra)
  {
    AppendEight(parcel.cells, ExtraCells(extra));
    parcel.Write(Str(extra.name));
    parcel.Write(Int32(extra.namePresentation));
    parcel.Write(Int32(extra.reason));
    parcel.Write(Str(extra.message));
    parcel.Write(Int32(extra.newCallUseBox));
    parcel.Write(Int32(extra.rttState));
    parcel.Write(Int32(extra.rttChannelId));
    parcel.Write(Int32(extra.imsDomain));
  }

  method PackUpdateCallReportInfo(report: CallReportInfo, parcel: MessageParcel)
    modifies parcel`cells
    ensures parcel.cells == old(parcel.cells) + ([Token(DESCRIPTOR)] + SingleCells(report))
  {
    parcel.Write(Token(DESCRIPTOR));
    WriteSingle(report, parcel);
  }

  method PackUpdateCallsReportInfo(info: CallsReportInfo, parcel: MessageParcel)
    modifies parcel`cells
    ensures parcel.cells == old(parcel.cells) + BatchCells(info)
  {
    hide SingleCells, ExtraCells;
    ghost var head := [Token(DESCRIPTOR), Int32(WrapToInt32(|info.callVec|))];
    parcel.Write(Token(DESCRIPTOR));
    parcel.Write(Int32(WrapToInt32(|info.callVec|)));
    ghost var start := parcel.cells;
    assert start == old(parcel.cells) + head;
    for i := 0 to |info.callVec|
      invariant parcel.cells == start + SectionsCells(info.callVec[..i])
    {
      var report := info.callVec[i];
      assert info.callVec[..i + 1][..i] == info.callVec[..i];
      WriteSingle(report, parcel);
      WriteExtra(report.extra, parcel);
      SumOfThree(start, SectionsCells(info.callVec[..i]), SingleCells(report), ExtraCells(report.extra));
    }
    assert info.callVec[..|info.callVec|] == info.callVec;
    parcel.Write(Int32(info.slotId));
    SumOfThree(old(parcel.cells), head, SectionsCells(info.callVec), [Int32(info.slotId)]);
  }

  // ---------- the stub ----------

  method BuildCallReportInfo(previous: CallReportInfo, data: MessageParcel) returns (report: CallReportInfo)
    modifies data`cursor
    ensures report == ReportAt(data.cells, old(data.cursor), previous)
    ensures data.cursor == ExtraPosition(data.cells, old(data.cursor)) + 8
  {
    hide FrontAt, KindAt, ExtraAt, Codec.VoipAt;
    var front := ReadFront(data);
    var kind := ReadKind(data);
    report := previous.(front := front, kind := kind);
    if front.callType == TYPE_VOIP {
      var v := Codec.ReadVoipCells(data);
      report := report.(voipCallInfo := v);
    }
    var extra := ReadExtra(previous.extra, data);
    report := report.(extra := extra);
  }

  method ReadFront(data: MessageParcel) returns (front: FrontPart)
    modifies data`cursor
    ensures front == FrontAt(data.cells, old(data.cursor)) && data.cursor == old(data.cursor) + 8
  {
    var index := data.ReadInt32();
    var accountNum := data.ReadCharArray(MAX_NUMBER_LEN);
    var accountId := data.ReadInt32();
    var callType := data.ReadInt32();
    var callMode := data.ReadInt32();
    var state := data.ReadInt32();
    var voiceDomain := data.ReadInt32();
    var mpty := data.ReadInt32();
    front := FrontPart(index, accountNum, accountId, callType, callMode, state, voiceDomain, mpty);
  }

  method ReadKind(data: MessageParcel) returns (kind: KindPart)
    modifies data`cursor
    ensures kind == KindAt(data.cells, old(data.cursor)) && data.cursor == old(data.cursor) + 3
  {
    var crsType := data.ReadInt32();
    var originalCallType := data.ReadInt32();
    var phoneIndex := data.ReadInt32();
    kind := KindPart(crsType, originalCallType, phoneIndex);
  }

  method ReadExtra(previous: ExtraPart, data: MessageParcel) returns (extra: ExtraPart)
    modifies data`cursor
    ensures extra == ExtraAt(data.cells, old(data.cursor), previous) && data.cursor == old(data.cursor) + 8
  {
    var name := data.ReadString();
    var namePresentation := data.ReadInt32();
    var ok, reason := data.TryReadInt32();
    if !ok {
      reason := previous.reason;
    }
    var message := data.ReadString();
    var newCallUseBox := data.ReadInt32();
    var rttState := data.ReadInt32();
    var rttChannelId := data.ReadInt32();
    var imsDomain := data.ReadInt32();
    extra := ExtraPart(name, namePresentation, reason, message, newCallUseBox, rttState, rttChannelId, imsDomain);
  }

  // What the stub hands on to the call manager, whose answer is `result` below.
  datatype Report = NoReport | Single(report: CallReportInfo) | Batch(info: CallsReportInfo)

  /** The code that the stub returns; the handlers of other requests are not modelled. */
  datatype StubCode = Success | DescriptorMismatch | ArgumentInvalid | OtherRequest

  method OnUpdateCallReportInfo(data: MessageParcel, reply: MessageParcel, result: int32)
    returns (code: StubCode, delivered: Report)
    requires data != reply
    modifies data`cursor, reply`cells
    ensures delivered == Single(ReportAt(data.cells, old(data.cursor), DEFAULT_REPORT))
    ensures code.Success? && reply.cells == old(reply.cells) + [Int32(result)]
  {
    var report := BuildCallReportInfo(DEFAULT_REPORT, data);
    reply.Write(Int32(result));
    return StubCode.Success, Single(report);
  }

  method OnUpdateCallsReportInfo(data: MessageParcel, reply: MessageParcel, result: int32)
    returns (code: StubCode, delivered: Report)
    requires data != reply
    modifies data`cursor, reply`cells
    ensures match BatchAt(data.cells, old(data.cursor))
      case None => code.ArgumentInvalid? && delivered.NoReport? && reply.cells == old(reply.cells)
      case Some(info) =>
        code.Success? && delivered == Batch(info) && reply.cells == old(reply.cells) + [Int32(result)]
    ensures var count := Int32At(data.cells, old(data.cursor));
      if count < 1 || count > 10 then code.ArgumentInvalid? && delivered.NoReport? && reply.cells == old(reply.cells)
      else
        && code.Success? && delivered.Batch? && |delivered.info.callVec| == count
        && reply.cells == old(reply.cells) + [Int32(result)]
  {
    hide ReportAt, ExtraPosition;
    var count := data.ReadInt32();
    if count <= 0 || count > MAX_CALL_NUM {
      return ArgumentInvalid, NoReport;
    }
    ghost var p := data.cursor;
    var reports := [];
    var report := DEFAULT_REPORT;
    for i := 0 to count
      invariant reply.cells == old(reply.cells)
      invariant (reports, report, data.cursor) == ReportsAt(data.cells, p, i)
    {
      report := BuildCallReportInfo(report, data);
      reports := reports + [report];
    }
    ReportsLength(data.cells, p, count);
    var slotId := data.ReadInt32();
    reply.Write(Int32(result));
    return StubCode.Success, Batch(CallsReportInfo(reports, slotId));
  }

  // What a request with the right token is answered with, and hands on.
  function Served(code: nat, cells: seq<Cell>): (StubCode, Report) {
    if code == UPDATE_CALL_INFO then (StubCode.Success, Single(ReportAt(cells, 1, DEFAULT_REPORT)))
    else if code == UPDATE_CALLS_INFO then
      match BatchAt(cells, 1)
      case None => (ArgumentInvalid, NoReport)
      case Some(info) => (StubCode.Success, Batch(info))
    else (OtherRequest, NoReport)
  }

  method OnRemoteRequest(code: nat, data: MessageParcel, reply: MessageParcel, result: int32)
    returns (status: StubCode, delivered: Report)
    requires data != reply && data.cursor == 0
    modifies data`cursor, reply`cells
    ensures (status, delivered)
      == if TokenAt(data.cells, 0) == DESCRIPTOR then Served(code, data.cells) else (DescriptorMismatch, NoReport)
    ensures reply.cells == old(reply.cells) + if status.Success? then [Int32(result)] else []
    ensures TokenAt(data.cells, 0) != DESCRIPTOR ==> status.DescriptorMismatch? && delivered.NoReport?
    ensures TokenAt(data.cells, 0) == DESCRIPTOR ==>
      if code == UPDATE_CALL_INFO then status.Success? && delivered.Single?
      else if code == UPDATE_CALLS_INFO then
        if 1 <= Int32At(data.cells, 1) <= 10 then status.Success? && delivered.Batch?
        else status.ArgumentInvalid? && delivered.NoReport?
      else status.OtherRequest? && delivered.NoReport?
  {
    var descriptor := data.ReadInterfaceToken();
    if descriptor != DESCRIPTOR {
      return DescriptorMismatch, NoReport;
    }
    if code == UPDATE_CALL_INFO {
      status, delivered := OnUpdateCallReportInfo(data, reply, result);
    } else if code == UPDATE_CALLS_INFO {
      status, delivered := OnUpdateCallsReportInfo(data, reply, result);
    } else {
      return OtherRequest, NoReport;
    }
  }

  // ---------- one section ----------

  lemma FrontReadsBack(cells: seq<Cell>, p: nat, front: FrontPart)
    requires Holds(cells, p, FrontCells(front))
    ensures FrontAt(cells, p) == front
  {
    HoldsEight(cells, p, FrontCells(front));
  }

  lemma ExtraReadsBack(cells: seq<Cell>, p: nat, extra: ExtraPart, previous: ExtraPart)
    requires Holds(cells, p, ExtraCells(extra))
    ensures ExtraAt(cells, p, previous) == extra
  {
    HoldsEight(cells, p, ExtraCells(extra));
  }

  lemma SingleReadsBack(cells: seq<Cell>, p: nat, report: CallReportInfo, previous: CallReportInfo)
    requires Holds(cells, p, SingleCells(report))
    ensures var r := ReportAt(cells, p, previous);
      && r.front == report.front && r.kind == report.kind
      && r.voipCallInfo
         == (if report.front.callType == TYPE_VOIP then report.voipCallInfo else previous.voipCallInfo)
    ensures ExtraPosition(cells, p) == p + |SingleCells(report)|
  {
    hide FrontAt, FrontCells, ExtraAt, Codec.VoipAt, Codec.VoipCells;
    var voip := Codec.VoipBlock(report.front.callType, report.voipCallInfo);
    HoldsParts(cells, p, FrontCells(report.front), KindCells(report.kind) + voip);
    HoldsParts(cells, p + 8, KindCells(report.kind), voip);
    FrontReadsBack(cells, p, report.front);
    HoldsThree(cells, p + 8, KindCells(report.kind));
    if report.front.callType == TYPE_VOIP {
      Codec.VoipReadsBack(cells, p + 11, report.voipCallInfo);
    }
  }

  // Unpacking a section overwrites all that was sent and leaves the rest of the record as it was.
  function Overwritten(report: CallReportInfo, previous: CallReportInfo): CallReportInfo {
    report.(
      voipCallInfo := if report.front.callType == TYPE_VOIP then report.voipCallInfo else previous.voipCallInfo,
      isPendingHold := previous.isPendingHold,
      remoteBluetoothAddr := previous.remoteBluetoothAddr)
  }

  lemma SectionReadsBack(cells: seq<Cell>, p: nat, report: CallReportInfo, previous: CallReportInfo)
    requires Holds(cells, p, SectionCells(report))
    ensures ReportAt(cells, p, previous) == Overwritten(report, previous)
    ensures ExtraPosition(cells, p) + 8 == p + |SectionCells(report)|
  {
    hide FrontAt, KindAt, ExtraAt, ExtraCells, SingleCells, Codec.VoipAt;
    HoldsParts(cells, p, SingleCells(report), ExtraCells(report.extra));
    SingleReadsBack(cells, p, report, previous);
    ExtraReadsBack(cells, p + |SingleCells(report)|, report.extra, previous.extra);
  }

  // ---------- the batch as it is delivered ----------

  /** What the receiver should know of a reported call. */
  function Reported(report: CallReportInfo): CallReportInfo {
    Overwritten(report, DEFAULT_REPORT)
  }

  function ReportedAll(info: CallsReportInfo): CallsReportInfo {
    info.(callVec := seq(|info.callVec|, i requires 0 <= i < |info.callVec| => Reported(info.callVec[i])))
  }

  // The VoIP details that the stub's record holds after call number i: those of the latest VoIP call.
  function CarriedVoip(reports: seq<CallReportInfo>, i: nat): VoipCallReportInfo
    requires i < |reports|
  {
    if reports[i].front.callType == TYPE_VOIP then reports[i].voipCallInfo
    else if i == 0 then DEFAULT_VOIP
    else CarriedVoip(reports, i - 1)
  }

  function Delivered(reports: seq<CallReportInfo>, i: nat): CallReportInfo
    requires i < |reports|
  {
    Reported(reports[i]).(voipCallInfo := CarriedVoip(reports, i))
  }

  function DeliveredAll(reports: seq<CallReportInfo>): seq<CallReportInfo> {
    seq(|reports|, i requires 0 <= i < |reports| => Delivered(reports, i))
  }

  lemma {:induction false} CarriedInPrefix(reports: seq<CallReportInfo>, n: nat, i: nat)
    requires i < n <= |reports|
    ensures CarriedVoip(reports[..n], i) == CarriedVoip(reports, i)
  {
    if i > 0 {
      CarriedInPrefix(reports, n, i - 1);
    }
  }

  lemma DeliveredInPrefix(reports: seq<CallReportInfo>, n: nat)
    requires n < |reports|
    ensures DeliveredAll(reports[..n + 1]) == DeliveredAll(reports[..n]) + [Delivered(reports, n)]
  {
    forall i | 0 <= i <= n
      ensures Delivered(reports[..n + 1], i) == Delivered(reports, i)
      ensures i < n ==> Delivered(reports[..n], i) == Delivered(reports, i)
    {
      CarriedInPrefix(reports, n + 1, i);
      if i < n {
        CarriedInPrefix(reports, n, i);
      }
    }
  }

  lemma {:induction false} SectionsReadBack(cells: seq<Cell>, p: nat, reports: seq<CallReportInfo>, n: nat)
    requires n <= |reports|
    requires Holds(cells, p, SectionsCells(reports[..n]))
    ensures var (delivered, last, end) := ReportsAt(cells, p, n);
      && delivered == DeliveredAll(reports[..n])
      && last == (if n == 0 then DEFAULT_REPORT else Delivered(reports, n - 1))
      && end == p + |SectionsCells(reports[..n])|
  {
    hide SectionCells, ReportAt, ExtraPosition;
    if n > 0 {
      var m := n - 1;
      assert reports[..n][..m] == reports[..m];
      HoldsParts(cells, p, SectionsCells(reports[..m]), SectionCells(reports[m]));
      SectionsReadBack(cells, p, reports, m);
      var (_, previous, q) := ReportsAt(cells, p, m);
      SectionReadsBack(cells, q, reports[m], previous);
      DeliveredInPrefix(reports, m);
    }
  }

  lemma BatchParts(info: CallsReportInfo)
    ensures var cells, reports := BatchCells(info), info.callVec;
      && Int32At(cells, 1) == WrapToInt32(|reports|)
      && Holds(cells, 2, SectionsCells(reports))
      && Int32At(cells, 2 + |SectionsCells(reports)|) == info.slotId
  {
    hide SectionsCells, WrapToInt32;
    var sections := SectionsCells(info.callVec);
    Framed([Token(DESCRIPTOR), Int32(WrapToInt32(|info.callVec|))], sections, Int32(info.slotId));
  }

  lemma Framed(head: seq<Cell>, middle: seq<Cell>, last: Cell)
    requires |head| == 2
    ensures var cells := head + (middle + [last]);
      cells[1] == head[1] && Holds(cells, 2, middle) && cells[2 + |middle|] == last
  {
  }

  /**
   A batch of 1 to 10 calls is delivered with every transmitted field, except that a call that is not VoIP
   carries the VoIP details of the latest VoIP call in front of it.
   */
  lemma BatchDelivered(info: CallsReportInfo)
    requires 1 <= |info.callVec| <= MAX_CALL_NUM
    ensures BatchAt(BatchCells(info), 1) == Some(CallsReportInfo(DeliveredAll(info.callVec), info.slotId))
  {
    hide SectionsCells, ReportsAt, DeliveredAll, BatchCells;
    var cells, reports := BatchCells(info), info.callVec;
    BatchParts(info);
    assert reports[..|reports|] == reports;
    SectionsReadBack(cells, 2, reports, |reports|);
  }

  // No call that is not VoIP directly follows a VoIP call whose details differ from the defaults.
  predicate NoStaleVoip(reports: seq<CallReportInfo>) {
    forall i :: 1 <= i < |reports|
      && reports[i - 1].front.callType == TYPE_VOIP && reports[i].front.callType != TYPE_VOIP
      ==> reports[i - 1].voipCallInfo == DEFAULT_VOIP
  }

  lemma {:induction false} CarriedWithoutStale(reports: seq<CallReportInfo>, i: nat)
    requires NoStaleVoip(reports) && i < |reports|
    ensures CarriedVoip(reports, i) == Reported(reports[i]).voipCallInfo
  {
    if i > 0 {
      CarriedWithoutStale(reports, i - 1);
    }
  }

  lemma {:induction false} ReportsLength(cells: seq<Cell>, p: nat, n: nat)
    ensures |ReportsAt(cells, p, n).0| == n
  {
    hide ReportAt, ExtraPosition;
    if n > 0 {
      ReportsLength(cells, p, n - 1);
    }
  }

  /** Exactly when a batch report arrives as it was sent. */
  lemma BatchRoundTrip(info: CallsReportInfo)
    ensures BatchAt(BatchCells(info), 1) == Some(ReportedAll(info))
      <==> 1 <= |info.callVec| <= MAX_CALL_NUM && NoStaleVoip(info.callVec)
  {
    hide SectionsCells, ReportsAt;
    var cells, reports := BatchCells(info), info.callVec;
    if 1 <= |reports| <= MAX_CALL_NUM {
      BatchDelivered(info);
      if NoStaleVoip(reports) {
        forall i | 0 <= i < |reports|
          ensures Delivered(reports, i) == Reported(reports[i])
        {
          CarriedWithoutStale(reports, i);
          assert Reported(reports[i]) == Reported(reports[i]).(voipCallInfo := CarriedVoip(reports, i));
        }
        assert DeliveredAll(reports) == ReportedAll(info).callVec;
      } else {
        var i :| 1 <= i < |reports| && reports[i - 1].front.callType == TYPE_VOIP
          && reports[i].front.callType != TYPE_VOIP && reports[i - 1].voipCallInfo != DEFAULT_VOIP;
        assert CarriedVoip(reports, i) == CarriedVoip(reports, i - 1) == reports[i - 1].voipCallInfo;
        assert DeliveredAll(reports)[i] == Delivered(reports, i);
        assert ReportedAll(info).callVec[i].voipCallInfo == DEFAULT_VOIP;
      }
    } else {
      BatchParts(info);
      var count := Int32At(cells, 1);
      if 0 < count <= MAX_CALL_NUM {
        ReportsLength(cells, 2, count);
      }
    }
  }

  /** A carrier call reported behind a VoIP call is delivered with the VoIP call's identity. */
  lemma StaleVoipExample()
    ensures var voip := DEFAULT_REPORT.(
        front := DEFAULT_FRONT.(callType := TYPE_VOIP), voipCallInfo := DEFAULT_VOIP.(userName := "Ann"));
      var carrier := DEFAULT_REPORT.(front := DEFAULT_FRONT.(callType := 0));
      var batch := CallsReportInfo([voip, carrier], 0);
      var delivered := BatchAt(BatchCells(batch), 1);
      && delivered.Some? && |delivered.value.callVec| == 2
      && delivered.value.callVec[1].front.callType == 0
      && delivered.value.callVec[1].voipCallInfo.userName == "Ann"
  {
    hide BatchAt, BatchCells;
    var voip := DEFAULT_REPORT.(
      front := DEFAULT_FRONT.(callType := TYPE_VOIP), voipCallInfo := DEFAULT_VOIP.(userName := "Ann"));
    var carrier := DEFAULT_REPORT.(front := DEFAULT_FRONT.(callType := 0));
    BatchDelivered(CallsReportInfo([voip, carrier], 0));
    assert DeliveredAll([voip, carrier])[1] == Delivered([voip, carrier], 1);
    assert CarriedVoip([voip, carrier], 1) == CarriedVoip([voip, carrier], 0);
  }

  // ---------- the single report ----------

  /**
   The stub unpacks a single report with the routine for batch sections, although the proxy did not send the
   batch-only fields: it arrives intact exactly when those fields have the values read from an empty parcel.
   These are not the defaults of the record: the default channel id is -1.
   */
  lemma SingleRoundTrip(report: CallReportInfo)
    ensures var delivered := ReportAt([Token(DESCRIPTOR)] + SingleCells(report), 1, DEFAULT_REPORT);
      && delivered == Reported(report).(extra := ABSENT_EXTRA)
      && (delivered == Reported(report) <==> report.extra == ABSENT_EXTRA)
    ensures ABSENT_EXTRA != DEFAULT_EXTRA
  {
    var cells := [Token(DESCRIPTOR)] + SingleCells(report);
    HoldsMiddle([Token(DESCRIPTOR)], SingleCells(report), []);
    assert cells + [] == cells;
    SingleReadsBack(cells, 1, report, DEFAULT_REPORT);
    AbsentExtra(cells, |cells|);
  }

  lemma AbsentExtra(cells: seq<Cell>, p: nat)
    requires |cells| <= p
    ensures ExtraAt(cells, p, DEFAULT_EXTRA) == ABSENT_EXTRA
  {
  }

  // ---------- unique decodability of the batch ----------

  lemma {:induction false} SectionsPrefix(reports: seq<CallReportInfo>, n: nat)
    requires n <= |reports|
    ensures SectionsCells(reports[..n]) <= SectionsCells(reports)
  {
    hide SectionCells;
    if n == |reports| {
      assert reports[..n] == reports;
    } else {
      var front := reports[..|reports| - 1];
      assert front[..n] == reports[..n];
      SectionsPrefix(front, n);
    }
  }

  /** In a batch, the section of each call begins with what the single report of that call consists of. */
  lemma SectionBeginsWithSingle(info: CallsReportInfo, i: nat)
    requires i < |info.callVec|
    ensures Holds(BatchCells(info), 2 + |SectionsCells(info.callVec[..i])|, SingleCells(info.callVec[i]))
  {
    hide SingleCells, ExtraCells, BatchCells;
    var cells, reports := BatchCells(info), info.callVec;
    BatchParts(info);
    SectionsPrefix(reports, i + 1);
    assert reports[..i + 1][..i] == reports[..i];
    HoldsParts(cells, 2, SectionsCells(reports[..i]), SectionCells(reports[i]));
    HoldsParts(cells, 2 + |SectionsCells(reports[..i])|, SingleCells(reports[i]), ExtraCells(reports[i].extra));
  }

  lemma {:induction false} SectionsAgree(cells: seq<Cell>, p: nat, a: seq<CallReportInfo>,
      b: seq<CallReportInfo>, n: nat)
    requires n <= |a| && n <= |b|
    requires Holds(cells, p, SectionsCells(a[..n])) && Holds(cells, p, SectionsCells(b[..n]))
    ensures |SectionsCells(a[..n])| == |SectionsCells(b[..n])|
    ensures forall i :: 0 <= i < n ==> Reported(a[i]) == Reported(b[i])
  {
    hide SectionCells, ReportAt, ExtraPosition;
    if n > 0 {
      var m := n - 1;
      assert a[..n][..m] == a[..m] && b[..n][..m] == b[..m];
      HoldsParts(cells, p, SectionsCells(a[..m]), SectionCells(a[m]));
      HoldsParts(cells, p, SectionsCells(b[..m]), SectionCells(b[m]));
      SectionsAgree(cells, p, a, b, m);
      var q := p + |SectionsCells(a[..m])|;
      SectionReadsBack(cells, q, a[m], DEFAULT_REPORT);
      SectionReadsBack(cells, q, b[m], DEFAULT_REPORT);
    }
  }

  lemma NotShorter(a: CallsReportInfo, b: CallsReportInfo)
    requires BatchCells(a) == BatchCells(b)
    requires |a.callVec| <= |b.callVec|
    ensures |a.callVec| == |b.callVec|
    ensures |SectionsCells(a.callVec)| == |SectionsCells(b.callVec)|
    ensures forall i :: 0 <= i < |a.callVec| ==> Reported(a.callVec[i]) == Reported(b.callVec[i])
  {
    hide SectionsCells, SectionCells;
    var n := |a.callVec|;
    BatchParts(a);
    BatchParts(b);
    SectionsPrefix(b.callVec, n);
    assert a.callVec[..n] == a.callVec;
    SectionsAgree(BatchCells(a), 2, a.callVec, b.callVec, n);
    if n < |b.callVec| {
      SectionsPrefix(b.callVec, n + 1);
      LongerByOne(b.callVec, n);
    } else {
      assert b.callVec[..n] == b.callVec;
    }
  }

  lemma LongerByOne(reports: seq<CallReportInfo>, n: nat)
    requires n < |reports|
    ensures |SectionsCells(reports[..n])| < |SectionsCells(reports[..n + 1])|
  {
    hide SingleCells, ExtraCells;
    assert reports[..n + 1][..n] == reports[..n];
  }

  /** Two batches with the same cells agree on the slot, the number of calls and all that is sent of each call. */
  lemma BatchUniquelyDecodable(a: CallsReportInfo, b: CallsReportInfo)
    requires BatchCells(a) == BatchCells(b)
    ensures ReportedAll(a) == ReportedAll(b)
  {
    hide SectionsCells, BatchCells;
    if |a.callVec| <= |b.callVec| {
      NotShorter(a, b);
    } else {
      NotShorter(b, a);
    }
    BatchParts(a);
    BatchParts(b);
    assert ReportedAll(a).callVec == ReportedAll(b).callVec;
  }

  // ---------- the whole exchange ----------

  /** What the proxy returns: the answer of the call manager, or the code for a failed connection. */
  datatype Outcome = Answered(result: int32) | IpcConnectStubFail

  /** The transport: a request that reaches the stub fails when the stub returns an error. */
  method SendRequest(reachable: bool, code: nat, data: MessageParcel, reply: MessageParcel, result: int32)
    returns (sent: bool, delivered: Report)
    requires data != reply && data.cursor == 0 && TokenAt(data.cells, 0) == DESCRIPTOR
    modifies data`cursor, reply`cells
    ensures !reachable ==> !sent && delivered.NoReport?
    ensures reachable ==> sent == Served(code, data.cells).0.Success? && delivered == Served(code, data.cells).1
    ensures reply.cells == old(reply.cells) + if sent then [Int32(result)] else []
  {
    if !reachable {
      return false, NoReport;
    }
    var status;
    status, delivered := OnRemoteRequest(code, data, reply, result);
    sent := status.Success?;
  }

  /** A single report, from the proxy's caller to the call manager and back. */
  method UpdateCallReportInfo(report: CallReportInfo, reachable: bool, result: int32)
    returns (outcome: Outcome, delivered: Report)
    ensures outcome == if reachable then Answered(result) else IpcConnectStubFail
    ensures delivered == if reachable then Single(Reported(report).(extra := ABSENT_EXTRA)) else NoReport
    ensures reachable ==>
      && delivered.report.front == report.front && delivered.report.kind == report.kind
      && delivered.report.voipCallInfo == (if report.front.callType == TYPE_VOIP then report.voipCallInfo
                                           else DEFAULT_VOIP)
      && delivered.report.isPendingHold == false && delivered.report.remoteBluetoothAddr == ""
  {
    hide SingleCells, ReportAt, Reported, BatchAt;
    var data := new MessageParcel();
    var reply := new MessageParcel();
    PackUpdateCallReportInfo(report, data);
    SingleRoundTrip(report);
    ReportedFields(report);
    assert data.cells == [Token(DESCRIPTOR)] + SingleCells(report);
    var sent;
    sent, delivered := SendRequest(reachable, UPDATE_CALL_INFO, data, reply, result);
    if !sent {
      return IpcConnectStubFail, delivered;
    }
    var answer := reply.ReadInt32();
    outcome := Answered(answer);
  }

  /** A batch report: the caller gets the call manager's answer exactly when a batch has been handed on. */
  method UpdateCallsReportInfo(info: CallsReportInfo, reachable: bool, result: int32)
    returns (outcome: Outcome, delivered: Report)
    ensures outcome == if delivered.Batch? then Answered(result) else IpcConnectStubFail
    ensures delivered.Batch? || delivered.NoReport?
    ensures delivered.Batch? <==> reachable && 1 <= WrapToInt32(|info.callVec|) <= 10
    ensures reachable && 1 <= |info.callVec| <= 10 ==>
      && delivered.Batch? && delivered.info.slotId == info.slotId && |delivered.info.callVec| == |info.callVec|
      && forall i :: 0 <= i < |info.callVec| ==> SentFields(info.callVec[i], delivered.info.callVec[i])
    ensures 1 <= |info.callVec| <= MAX_CALL_NUM ==>
      delivered == if reachable then Batch(CallsReportInfo(DeliveredAll(info.callVec), info.slotId)) else NoReport
    ensures delivered == Batch(ReportedAll(info))
      <==> reachable && 1 <= |info.callVec| <= MAX_CALL_NUM && NoStaleVoip(info.callVec)
  {
    hide BatchAt, BatchCells, ReportAt, DeliveredAll, ReportedAll, NoStaleVoip;
    var data := new MessageParcel();
    var reply := new MessageParcel();
    PackUpdateCallsReportInfo(info, data);
    BatchRoundTrip(info);
    BatchCount(info);
    HandedOnByCount(BatchCells(info), 1);
    if 1 <= |info.callVec| <= MAX_CALL_NUM {
      BatchDelivered(info);
      DeliveredLength(info.callVec);
      forall i | 0 <= i < |info.callVec|
        ensures SentFields(info.callVec[i], DeliveredAll(info.callVec)[i])
      {
        FieldsArrive(info.callVec, i);
      }
    }
    assert data.cells == BatchCells(info);
    BatchToken(info);
    var sent;
    sent, delivered := SendRequest(reachable, UPDATE_CALLS_INFO, data, reply, result);
    if !sent {
      return IpcConnectStubFail, delivered;
    }
    var answer := reply.ReadInt32();
    outcome := Answered(answer);
  }

  // The fields that every call of a batch arrives with; of a VoIP call, also its details.
  predicate SentFields(sent: CallReportInfo, got: CallReportInfo) {
    && got.front == sent.front && got.kind == sent.kind && got.extra == sent.extra
    && (sent.front.callType == TYPE_VOIP ==> got.voipCallInfo == sent.voipCallInfo)
    && got.isPendingHold == false && got.remoteBluetoothAddr == ""
  }

  lemma FieldsArrive(reports: seq<CallReportInfo>, i: nat)
    requires i < |reports|
    ensures |DeliveredAll(reports)| == |reports| && SentFields(reports[i], DeliveredAll(reports)[i])
  {
  }

  lemma DeliveredLength(reports: seq<CallReportInfo>)
    ensures |DeliveredAll(reports)| == |reports|
  {
  }

  lemma HandedOnByCount(cells: seq<Cell>, p: nat)
    ensures BatchAt(cells, p).Some? <==> 1 <= Int32At(cells, p) <= 10
  {
    hide ReportsAt;
  }

  lemma BatchCount(info: CallsReportInfo)
    ensures Int32At(BatchCells(info), 1) == WrapToInt32(|info.callVec|)
  {
    hide BatchCells, SectionsCells;
    BatchParts(info);
  }

  /** What is reported of a call: everything that is sent, and defaults for what is not. */
  lemma ReportedFields(report: CallReportInfo)
    ensures Reported(report).front == report.front && Reported(report).kind == report.kind
    ensures Reported(report).extra == report.extra
    ensures Reported(report).voipCallInfo
      == if report.front.callType == TYPE_VOIP then report.voipCallInfo else DEFAULT_VOIP
    ensures Reported(report).isPendingHold == false && Reported(report).remoteBluetoothAddr == ""
  {
  }

  lemma BatchToken(info: CallsReportInfo)
    ensures TokenAt(BatchCells(info), 0) == DESCRIPTOR
  {
    hide SectionsCells;
  }
}
