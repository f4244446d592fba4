/** The record of one call and the defaults of its fields. */
module CallRecords {
  import opened TelephonyBase

  const MAX_NUMBER_LEN := 255
  const MAX_BUNDLE_NAME_LEN := 100

  // The text of a fixed character array, up to its terminating NUL.
  type NumberText = s: string | |s| <= MAX_NUMBER_LEN
  type BundleText = s: string | |s| <= MAX_BUNDLE_NAME_LEN

  const TYPE_VOICE: int32 := 0
  const TYPE_VOIP: int32 := 4
  const CALL_STATUS_INCOMING: int32 := 4

  datatype VoipCallReportInfo = VoipCallReportInfo(
    voipCallId: string,
    userName: string,
    abilityName: string,
    extensionId: string,
    voipBundleName: string,
    showBannerForIncomingCall: bool,
    isConferenceCall: bool,
    isVoiceAnswerSupported: bool,
    isUserMuteRingToneAllowed: bool,
    isDialingAllowedDuringCarrierCall: bool,
    hasMicPermission: bool,
    isCapsuleSticky: bool,
    uid: int32,
    userProfile: seq<uint8>)

  const DEFAULT_VOIP :=
    VoipCallReportInfo("", "", "", "", "", true, false, true, false, false, true, false, 0, [])

  datatype NumberMarkInfo = NumberMarkInfo(
    markType: int32,
    markContent: NumberText,
    markCount: int32,
    markSource: NumberText,
    isCloud: bool,
    markDetails: NumberText)

  // The fields of a call's record, grouped in the order in which they travel between processes.

  datatype CallPart = CallPart(
    accountNumber: NumberText,
    bundleName: BundleText,
    speakerphoneOn: bool,
    accountId: int32,
    videoState: int32,
    startTime: int64,
    isEcc: bool,
    callType: int32,
    callId: int32,
    callState: int32)

  datatype TimePart = TimePart(
    conferenceState: int32,
    callBeginTime: int64,
    callEndTime: int64,
    ringBeginTime: int64,
    ringEndTime: int64,
    callDirection: int32,
    answerType: int32,
    index: int32)

  datatype TypePart = TypePart(
    crsType: int32,
    originalCallType: int32,
    numberLocation: NumberText)

  datatype NumberPart = NumberPart(
    numberMarkInfo: NumberMarkInfo,
    contactName: NumberText,
    extraParamsString: string)

  datatype TailPart = TailPart(
    phoneOrWatch: int32,
    rttState: int32,
    isCustomAccessibility: bool)

  // The fields that the parcel does not carry.
  datatype UnsentPart = UnsentPart(
    isEccContact: bool,
    callCreateTime: int64,
    blockReason: int32,
    celiaCallType: int32,
    detectDetails: NumberText,
    namePresentation: int32,
    name: string,
    antiFraudState: int32,
    newCallUseBox: int32,
    simType: int32,
    simIndex: int32,
    isPrevRtt: bool,
    imsDomain: int32,
    phoneIndex: int32)

  const DEFAULT_UNSENT := UnsentPart(false, 0, 0, -1, "", 0, "", 0, 0, 0, 0, false, 0, 0)

  datatype CallAttributeInfo = CallAttributeInfo(
    call: CallPart,
    times: TimePart,
    types: TypePart,
    number: NumberPart,
    voipCallInfo: VoipCallReportInfo,
    tail: TailPart,
    unsent: UnsentPart)
}
