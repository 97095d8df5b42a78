/**
 * Decoding of a white-tape advertisement (src/tapeFormat.cpp): the tape-ID
 * dispatch, the per-format event-flag normalisation and the four record
 * decoders.
 *
 * The decoders fill the caller's packet in the source; here each returns the
 * record it writes.  The IAT and DPD decoders read `t0` and `t1` (and IAT
 * `a0_val`, `a0_count`) at absolute positions 3, 4, 15 and 16, without the
 * 7-byte start offset every other field has, and DPD keeps only the low 16
 * bits of its 32-bit timestamp: both are kept as the code has them.
 */
module TapeFormat {
  import opened Common
  import opened CString
  import opened TapeFormatDefs
  import Classifier

  /** The packet type a tape ID selects. */
  function PacketTypeOfTapeId(tapeId: uint16): BlePacketType {
    if tapeId == QUARTZ_SENSOR_TMP117_TAPE_ID then QuartzSensorTmp117
    else if tapeId == QUARTZ_SENSOR_OPT3110_TAPE_ID then QuartzSensorOpt3110
    else if tapeId == QUARTZ_SENSOR_IAT_TAPE_ID then QuartzSensorIat
    else if tapeId == QUARTZ_SENSOR_DPD_TAPE_ID then QuartzSensorDpd
    else QuartzSensorUnknown
  }

  /** The tape ID of each known packet type; the inverse of `PacketTypeOfTapeId`. */
  function TapeIdOfPacketType(t: BlePacketType): (tapeId: uint16)
    requires t != QuartzSensorUnknown
  {
    match t
    case QuartzSensorTmp117 => QUARTZ_SENSOR_TMP117_TAPE_ID
    case QuartzSensorOpt3110 => QUARTZ_SENSOR_OPT3110_TAPE_ID
    case QuartzSensorIat => QUARTZ_SENSOR_IAT_TAPE_ID
    case QuartzSensorDpd => QUARTZ_SENSOR_DPD_TAPE_ID
  }

  /** The dispatch and the ID table are inverse: a known type is selected by exactly one ID. */
  lemma PacketTypeRoundTrip(tapeId: uint16, t: BlePacketType)
    ensures t != QuartzSensorUnknown ==> PacketTypeOfTapeId(TapeIdOfPacketType(t)) == t
    ensures t != QuartzSensorUnknown ==> (PacketTypeOfTapeId(tapeId) == t <==> tapeId == TapeIdOfPacketType(t))
  {
  }

  /** `getBlePacketType`: the four known tape IDs, everything else unknown. */
  function GetBlePacketType(info: AdvInfo): (t: BlePacketType)
    requires WellFormed(info) && info.length >= 30
    ensures t == QuartzSensorTmp117 <==> GetTapeId(info) == 0xFFFC
    ensures t == QuartzSensorOpt3110 <==> GetTapeId(info) == 0xFFFA
    ensures t == QuartzSensorIat <==> GetTapeId(info) == 0xFFB1
    ensures t == QuartzSensorDpd <==> GetTapeId(info) == 0xFFB0
    ensures t == QuartzSensorUnknown <==> GetTapeId(info) !in {0xFFFC, 0xFFFA, 0xFFB1, 0xFFB0}
  {
    PacketTypeOfTapeId(GetTapeId(info))
  }

  /** `getQaurtzEventFlag`: the event byte renumbered for the gateway. */
  function GetQuartzEventFlag(info: AdvInfo): (flag: byte)
    requires WellFormed(info) && info.length > 9
    ensures flag !in {0, 1, 18, 51}
    ensures info.data[9] == 0 ==> flag == 60
    ensures info.data[9] == 1 ==> flag == 61
    ensures info.data[9] == 18 ==> flag == 62
    ensures info.data[9] == 51 ==> flag == 63
    ensures info.data[9] !in {0, 1, 18, 51} ==> flag == info.data[9]
  {
    Classifier.UpdateEventFlagForQuartzIdempotent(info.data[QUARTZ_BLE_ADV_PKT_DATA_START_IDX + QUARTZ_BLE_ADV_PKT_EVT_FLAG_OFFSET]);
    Classifier.UpdateEventFlagForQuartz(info.data[QUARTZ_BLE_ADV_PKT_DATA_START_IDX + QUARTZ_BLE_ADV_PKT_EVT_FLAG_OFFSET])
  }

  /** The event byte, a zero replaced by the format's normal-mode value. */
  function EvtFlagOrNormal(info: AdvInfo, normalMode: byte): byte
    requires WellFormed(info) && info.length > 9
  {
    var blePktEvtFlag := info.data[QUARTZ_BLE_ADV_PKT_DATA_START_IDX + QUARTZ_BLE_ADV_PKT_EVT_FLAG_OFFSET];
    if blePktEvtFlag == 0 then normalMode else blePktEvtFlag
  }

  function GetEvtFlagQuartzTmp117(info: AdvInfo): (flag: byte)
    requires WellFormed(info) && info.length > 9
    ensures flag != 0
    ensures info.data[9] == 0 ==> flag == 50
    ensures info.data[9] != 0 ==> flag == info.data[9]
  {
    EvtFlagOrNormal(info, QuartzTMP117_NormalMode)
  }

  function GetEvtFlagQuartzOpt3110(info: AdvInfo): (flag: byte)
    requires WellFormed(info) && info.length > 9
    ensures flag != 0
    ensures info.data[9] == 0 ==> flag == 55
    ensures info.data[9] != 0 ==> flag == info.data[9]
  {
    EvtFlagOrNormal(info, QuartzOPT3110_NormalMode)
  }

  function GetEvtFlagQuartzIat(info: AdvInfo): (flag: byte)
    requires WellFormed(info) && info.length > 9
    ensures flag != 0
    ensures info.data[9] == 0 ==> flag == 55
    ensures info.data[9] != 0 ==> flag == info.data[9]
  {
    EvtFlagOrNormal(info, QuartzIAT_NormalMode)
  }

  function GetEvtFlagQuartzDpd(info: AdvInfo): (flag: byte)
    requires WellFormed(info) && info.length > 9
    ensures flag != 0
    ensures info.data[9] == 0 ==> flag == 55
    ensures info.data[9] != 0 ==> flag == info.data[9]
  {
    EvtFlagOrNormal(info, QuartzDPD_NormalMode)
  }

  /** The MAC text every decoder stores: the stack's address text without its colons. */
  function TapeMacAddr(info: AdvInfo): (mac: string)
    requires WellFormed(info)
    ensures mac == RemoveChar(info.bdaddrText, ':')
    ensures ':' !in mac && NoNul(mac)
  {
    RemoveCharCounts(info.bdaddrText, ':');
    RemoveCharNoNul(info.bdaddrText, ':');
    RemoveChar(info.bdaddrText, ':')
  }

  /** `parseBleAdvData_QuartzTMP117`, stated in absolute byte positions. */
  function ParseBleAdvDataQuartzTmp117(info: AdvInfo): (p: BlePacketQuartzTmp117)
    requires HasTapePayload(info)
    ensures p.macAddr == RemoveChar(info.bdaddrText, ':')
    ensures p.fid == BigEndian16(info.data[7], info.data[8])
    ensures p.evtFlag == GetEvtFlagQuartzTmp117(info)
    ensures p.t0 == TempRaw(info.data[10], info.data[11]) && p.t0Ts == BigEndian16(info.data[12], info.data[13])
    ensures p.t1 == TempRaw(info.data[14], info.data[15]) && p.t1Ts == BigEndian16(info.data[16], info.data[17])
    ensures p.t2 == TempRaw(info.data[18], info.data[19]) && p.t2Ts == BigEndian16(info.data[20], info.data[21])
    ensures p.pid == LittleEndian24(info.data[22], info.data[23], info.data[24])
    ensures p.limeBat == info.data[25] && p.seqId == BigEndian16(info.data[26], info.data[27])
    ensures p.tapeId == BigEndian16(info.data[28], info.data[29])
    ensures p.bat == info.data[30] && p.rssi == ToInt8(info.data[info.length])
  {
    BlePacketQuartzTmp117(
      macAddr := TapeMacAddr(info),
      fid := GetFid(info),
      evtFlag := GetEvtFlagQuartzTmp117(info),
      t0 := GetTemperatureRaw(info, QUARTZ_TMP117_BLE_ADV_PKT_T0_OFFSET),
      t0Ts := GetTimestampU16(info, QUARTZ_TMP117_BLE_ADV_PKT_T0_TS_OFFSET),
      t1 := GetTemperatureRaw(info, QUARTZ_TMP117_BLE_ADV_PKT_T1_OFFSET),
      t1Ts := GetTimestampU16(info, QUARTZ_TMP117_BLE_ADV_PKT_T1_TS_OFFSET),
      t2 := GetTemperatureRaw(info, QUARTZ_TMP117_BLE_ADV_PKT_T2_OFFSET),
      t2Ts := GetTimestampU16(info, QUARTZ_TMP117_BLE_ADV_PKT_T2_TS_OFFSET),
      pid := GetLimePid(info, QUARTZ_TMP117_BLE_ADV_PKT_LIME_PID_OFFSET),
      limeBat := GetLimeBat(info),
      seqId := GetRecordSequence(info, QUARTZ_TMP117_BLE_ADV_PKT_REC_SEQ_OFFSET),
      tapeId := GetTapeId(info),
      bat := GetBatVoltageRaw(info),
      rssi := GetTapeRssi(info))
  }

  /** `parseBleAdvData_QuartzOPT3110`, stated in absolute byte positions. */
  function ParseBleAdvDataQuartzOpt3110(info: AdvInfo): (p: BlePacketQuartzOpt3110)
    requires HasTapePayload(info)
    ensures p.macAddr == RemoveChar(info.bdaddrText, ':')
    ensures p.fid == BigEndian16(info.data[7], info.data[8])
    ensures p.evtFlag == GetEvtFlagQuartzOpt3110(info)
    ensures p.t0 == TempRaw(info.data[10], info.data[11]) && p.t0Ts == BigEndian16(info.data[12], info.data[13])
    ensures p.l0 == TempRaw(info.data[14], info.data[15]) && p.l0Ts == BigEndian16(info.data[16], info.data[17])
    ensures p.l1 == TempRaw(info.data[18], info.data[19]) && p.l1Ts == BigEndian16(info.data[20], info.data[21])
    ensures p.pid == LittleEndian24(info.data[22], info.data[23], info.data[24])
    ensures p.limeBat == info.data[25] && p.seqId == BigEndian16(info.data[26], info.data[27])
    ensures p.tapeId == BigEndian16(info.data[28], info.data[29])
    ensures p.bat == info.data[30] && p.rssi == ToInt8(info.data[info.length])
  {
    BlePacketQuartzOpt3110(
      macAddr := TapeMacAddr(info),
      fid := GetFid(info),
      evtFlag := GetEvtFlagQuartzOpt3110(info),
      t0 := GetTemperatureRaw(info, QUARTZ_OPT3110_BLE_ADV_PKT_T0_OFFSET),
      t0Ts := GetTimestampU16(info, QUARTZ_OPT3110_BLE_ADV_PKT_T0_TS_OFFSET),
      l0 := GetTemperatureRaw(info, QUARTZ_OPT3110_BLE_ADV_PKT_L0_OFFSET),
      l0Ts := GetTimestampU16(info, QUARTZ_OPT3110_BLE_ADV_PKT_L0_TS_OFFSET),
      l1 := GetTemperatureRaw(info, QUARTZ_OPT3110_BLE_ADV_PKT_L1_OFFSET),
      l1Ts := GetTimestampU16(info, QUARTZ_OPT3110_BLE_ADV_PKT_L1_TS_OFFSET),
      pid := GetLimePid(info, QUARTZ_OPT3110_BLE_ADV_PKT_LIME_PID_OFFSET),
      limeBat := GetLimeBat(info),
      seqId := GetRecordSequence(info, QUARTZ_OPT3110_BLE_ADV_PKT_REC_SEQ_OFFSET),
      tapeId := GetTapeId(info),
      bat := GetBatVoltageRaw(info),
      rssi := GetTapeRssi(info))
  }

  /** `parseBleAdvData_QuartzIAT`, stated in absolute byte positions. */
  function ParseBleAdvDataQuartzIat(info: AdvInfo): (p: BlePacketIat)
    requires HasTapePayload(info)
    ensures p.macAddr == RemoveChar(info.bdaddrText, ':')
    ensures p.fid == BigEndian16(info.data[7], info.data[8])
    ensures p.evtFlag == GetEvtFlagQuartzIat(info)
    ensures p.t0 == info.data[3] && p.t1 == info.data[4]
    ensures p.t1Ts == BigEndian32(info.data[12], info.data[13], info.data[14], info.data[15])
    ensures p.l0 == BigEndian16(info.data[16], info.data[17])
    ensures p.l0Ts == BigEndian32(info.data[18], info.data[19], info.data[20], info.data[21])
    ensures p.a0Val == ToInt8(info.data[15]) && p.a0Count == info.data[16]
    ensures p.ts == BigEndian32(info.data[24], info.data[25], info.data[26], info.data[27])
    ensures p.tapeId == BigEndian16(info.data[28], info.data[29])
    ensures p.bat == info.data[30] && p.rssi == ToInt8(info.data[info.length])
  {
    BlePacketIat(
      macAddr := TapeMacAddr(info),
      fid := GetFid(info),
      evtFlag := GetEvtFlagQuartzIat(info),
      t0 := info.data[QUARTZ_IAT_BLE_ADV_PKT_T0_OFFSET],
      t1 := info.data[QUARTZ_IAT_BLE_ADV_PKT_T1_OFFSET],
      t1Ts := GetTimestampU32(info, QUARTZ_IAT_BLE_ADV_PKT_T1_TS_OFFSET),
      l0 := GetLightData(info, QUARTZ_IAT_BLE_ADV_PKT_L0_OFFSET),
      l0Ts := GetTimestampU32(info, QUARTZ_IAT_BLE_ADV_PKT_L0_TS_OFFSET),
      a0Val := ToInt8(info.data[QUARTZ_IAT_BLE_ADV_PKT_A0_VAL_OFFSET]),
      a0Count := info.data[QUARTZ_IAT_BLE_ADV_PKT_A0_CNT_OFFSET],
      ts := GetTimestampU32(info, QUARTZ_IAT_BLE_ADV_PKT_TS_OFFSET),
      tapeId := GetTapeId(info),
      bat := GetBatVoltageRaw(info),
      rssi := GetTapeRssi(info))
  }

  /** `parseBleAdvData_QuartzDPD`, stated in absolute byte positions. */
  function ParseBleAdvDataQuartzDpd(info: AdvInfo): (p: BlePacketDpd)
    requires HasTapePayload(info)
    ensures p.macAddr == RemoveChar(info.bdaddrText, ':')
    ensures p.fid == BigEndian16(info.data[7], info.data[8])
    ensures p.evtFlag == GetEvtFlagQuartzDpd(info)
    ensures p.t0 == info.data[3] && p.t1 == info.data[4]
    ensures p.t1Ts == BigEndian32(info.data[12], info.data[13], info.data[14], info.data[15])
    ensures p.l0 == BigEndian16(info.data[16], info.data[17])
    ensures p.l0Ts == BigEndian32(info.data[18], info.data[19], info.data[20], info.data[21])
    ensures p.l1 == BigEndian16(info.data[22], info.data[23])
    ensures p.ts == BigEndian16(info.data[26], info.data[27])
    ensures p.tapeId == BigEndian16(info.data[28], info.data[29])
    ensures p.bat == info.data[30] && p.rssi == ToInt8(info.data[info.length])
  {
    var ts32 := GetTimestampU32(info, QUARTZ_DPD_BLE_ADV_PKT_TS_OFFSET);
    BigEndian32Low16(info.data[24], info.data[25], info.data[26], info.data[27]);
    BlePacketDpd(
      macAddr := TapeMacAddr(info),
      fid := GetFid(info),
      evtFlag := GetEvtFlagQuartzDpd(info),
      t0 := info.data[QUARTZ_DPD_BLE_ADV_PKT_T0_OFFSET],
      t1 := info.data[QUARTZ_DPD_BLE_ADV_PKT_T1_OFFSET],
      t1Ts := GetTimestampU32(info, QUARTZ_DPD_BLE_ADV_PKT_T1_TS_OFFSET),
      l0 := GetLightData(info, QUARTZ_DPD_BLE_ADV_PKT_L0_OFFSET),
      l0Ts := GetTimestampU32(info, QUARTZ_DPD_BLE_ADV_PKT_L0_TS_OFFSET),
      l1 := GetLightData(info, QUARTZ_DPD_BLE_ADV_PKT_L1_OFFSET),
      ts := ToUint16(ts32),
      tapeId := GetTapeId(info),
      bat := GetBatVoltageRaw(info),
      rssi := GetTapeRssi(info))
  }

  /** The tape ID stored in a decoded payload (none in unwritten storage). */
  function StoredTapeId(s: BleDataPacketStruct): Option<uint16> {
    match s
    case BlePktTmp117(p) => Some(p.tapeId)
    case BlePktOpt3110(p) => Some(p.tapeId)
    case BlePktIat(p) => Some(p.tapeId)
    case BlePktDpd(p) => Some(p.tapeId)
    case Unwritten(_) => None
  }

  /** The union member a packet type names. */
  predicate MemberMatchesType(s: BleDataPacketStruct, t: BlePacketType) {
    match t
    case QuartzSensorTmp117 => s.BlePktTmp117?
    case QuartzSensorOpt3110 => s.BlePktOpt3110?
    case QuartzSensorIat => s.BlePktIat?
    case QuartzSensorDpd => s.BlePktDpd?
    case QuartzSensorUnknown => true
  }

  /**
   * `parseBleDataPacket`: the type always comes from the tape ID; a known
   * type writes that member of the union, an unknown one leaves the union
   * (`prior`, whatever the caller's storage held) untouched.
   */
  function ParseBleDataPacket(info: AdvInfo, prior: BleDataPacketStruct): (pkt: BleDataPacket)
    requires HasTapePayload(info)
    ensures pkt.blePktType == GetBlePacketType(info)
    ensures pkt.blePktType == QuartzSensorUnknown ==> pkt.blePktStrct == prior
    ensures MemberMatchesType(pkt.blePktStrct, pkt.blePktType)
    ensures pkt.blePktType != QuartzSensorUnknown ==>
      StoredTapeId(pkt.blePktStrct) == Some(TapeIdOfPacketType(pkt.blePktType)) &&
      ViewMacAddr(pkt.blePktStrct) == RemoveChar(info.bdaddrText, ':')
  {
    var blePktType := GetBlePacketType(info);
    var blePktStrct :=
      match blePktType
      case QuartzSensorTmp117 => BlePktTmp117(ParseBleAdvDataQuartzTmp117(info))
      case QuartzSensorOpt3110 => BlePktOpt3110(ParseBleAdvDataQuartzOpt3110(info))
      case QuartzSensorIat => BlePktIat(ParseBleAdvDataQuartzIat(info))
      case QuartzSensorDpd => BlePktDpd(ParseBleAdvDataQuartzDpd(info))
      case QuartzSensorUnknown => prior;
    BleDataPacket(blePktStrct, blePktType)
  }

  /** Decoding a packet of a known type does not depend on what the storage held before. */
  lemma ParseBleDataPacketIgnoresPrior(info: AdvInfo, prior1: BleDataPacketStruct, prior2: BleDataPacketStruct)
    requires HasTapePayload(info)
    requires GetBlePacketType(info) != QuartzSensorUnknown
    ensures ParseBleDataPacket(info, prior1) == ParseBleDataPacket(info, prior2)
  {
  }

  /** The tape ID stored by a decode is the one that selected the format. */
  lemma StoredTapeIdSelectsFormat(info: AdvInfo, prior: BleDataPacketStruct)
    requires HasTapePayload(info)
    ensures var pkt := ParseBleDataPacket(info, prior);
      pkt.blePktType != QuartzSensorUnknown ==>
        StoredTapeId(pkt.blePktStrct) == Some(GetTapeId(info)) &&
        PacketTypeOfTapeId(StoredTapeId(pkt.blePktStrct).value) == pkt.blePktType
  {
  }
}
