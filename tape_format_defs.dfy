/**
 * The Quartz tape wire formats: byte positions, identifiers, the decoded
 * record of each format, and the fixed-offset field extractors.
 *
 * Every extractor reads `7 + offset` bytes into the advertisement (the payload
 * proper starts after a 7-byte header).  Multi-byte fields are big-endian,
 * except the LIME product identifier, which is little-endian.  Shifts and ORs
 * of disjoint bytes are written as the equal sums of multiples of powers of two.
 */
module TapeFormatDefs {
  import opened Common

  /* Signature positions of the proxying (RFID) gateway layout */
  const RFID_GW_COMPANY_IDENTIFIER_HIGH_INDEX: nat := 2
  const RFID_GW_COMPANY_IDENTIFIER_LOW_INDEX: nat := 3
  const RFID_GW_TRACK_IDENTIFIER_HIGH_INDEX: nat := 4
  const RFID_GW_TRACK_IDENTIFIER_LOW_INDEX: nat := 5
  const RFID_GW_PRODUCT_ID_HIGH_INDEX: nat := 12
  const RFID_GW_PRODUCT_ID_LOW_INDEX: nat := 13

  /* Signature positions of the direct tape layout */
  const COMPANY_IDENTIFIER_HIGH_INDEX: nat := 5
  const COMPANY_IDENTIFIER_LOW_INDEX: nat := 6
  const TRACK_IDENTIFIER_HIGH_INDEX: nat := 7
  const TRACK_IDENTIFIER_LOW_INDEX: nat := 8

  const NORDIC_IDENTIFIER_HIGH_BYTE: byte := 0x59
  const NORDIC_IDENTIFIER_LOW_BYTE: byte := 0x00
  const LIME_MILESTONE_HIGH_BYTE: byte := 0x49
  const LIME_MILESTONE_LOW_BYTE: byte := 0x54
  const WHITETAPE_HIGH_BYTE: byte := 0x52
  const WHITETAPE_LOW_BYTE: byte := 0x58
  const ULD_HIGH_BYTE: byte := 0x52
  const ULD_LOW_BYTE: byte := 0x59
  const RFID_GW_PRODUCT_ID_HIGH_BYTE: byte := 0xFF
  const RFID_GW_PRODUCT_ID_LOW_BYTE: byte := 0xA5

  /* Tape IDs of the Quartz sensor types */
  const QUARTZ_SENSOR_TMP117_TAPE_ID: uint16 := 0xFFFC
  const QUARTZ_SENSOR_OPT3110_TAPE_ID: uint16 := 0xFFFA
  const QUARTZ_SENSOR_IAT_TAPE_ID: uint16 := 0xFFB1
  const QUARTZ_SENSOR_DPD_TAPE_ID: uint16 := 0xFFB0

  const QUARTZ_BLE_ADV_PKT_DATA_START_IDX: nat := 7
  const QUARTZ_BLE_ADV_PKT_TAPE_ID_OFFSET: nat := 21
  const QUARTZ_BLE_ADV_PKT_TAPE_ID_IDX: nat := QUARTZ_BLE_ADV_PKT_DATA_START_IDX + QUARTZ_BLE_ADV_PKT_TAPE_ID_OFFSET
  const QUARTZ_BLE_ADV_PKT_FID_OFFSET: nat := 0
  const QUARTZ_BLE_ADV_PKT_EVT_FLAG_OFFSET: nat := 2
  const QUARTZ_BLE_ADV_PKT_BAT_VOLT_OFFSET: nat := 23

  const QUARTZ_TMP117_BLE_ADV_PKT_T0_OFFSET: nat := 3
  const QUARTZ_TMP117_BLE_ADV_PKT_T0_TS_OFFSET: nat := 5
  const QUARTZ_TMP117_BLE_ADV_PKT_T1_OFFSET: nat := 7
  const QUARTZ_TMP117_BLE_ADV_PKT_T1_TS_OFFSET: nat := 9
  const QUARTZ_TMP117_BLE_ADV_PKT_T2_OFFSET: nat := 11
  const QUARTZ_TMP117_BLE_ADV_PKT_T2_TS_OFFSET: nat := 13
  const QUARTZ_TMP117_BLE_ADV_PKT_LIME_PID_OFFSET: nat := 15
  const QUARTZ_TMP117_BLE_ADV_PKT_LIME_BAT_OFFSET: nat := 18
  const QUARTZ_TMP117_BLE_ADV_PKT_REC_SEQ_OFFSET: nat := 19

  const QUARTZ_OPT3110_BLE_ADV_PKT_T0_OFFSET: nat := 3
  const QUARTZ_OPT3110_BLE_ADV_PKT_T0_TS_OFFSET: nat := 5
  const QUARTZ_OPT3110_BLE_ADV_PKT_L0_OFFSET: nat := 7
  const QUARTZ_OPT3110_BLE_ADV_PKT_L0_TS_OFFSET: nat := 9
  const QUARTZ_OPT3110_BLE_ADV_PKT_L1_OFFSET: nat := 11
  const QUARTZ_OPT3110_BLE_ADV_PKT_L1_TS_OFFSET: nat := 13
  const QUARTZ_OPT3110_BLE_ADV_PKT_LIME_PID_OFFSET: nat := 15
  const QUARTZ_OPT3110_BLE_ADV_PKT_LIME_BAT_OFFSET: nat := 18
  const QUARTZ_OPT3110_BLE_ADV_PKT_REC_SEQ_OFFSET: nat := 19

  const QUARTZ_IAT_BLE_ADV_PKT_T0_OFFSET: nat := 3
  const QUARTZ_IAT_BLE_ADV_PKT_T1_OFFSET: nat := 4
  const QUARTZ_IAT_BLE_ADV_PKT_T1_TS_OFFSET: nat := 5
  const QUARTZ_IAT_BLE_ADV_PKT_L0_OFFSET: nat := 9
  const QUARTZ_IAT_BLE_ADV_PKT_L0_TS_OFFSET: nat := 11
  const QUARTZ_IAT_BLE_ADV_PKT_A0_VAL_OFFSET: nat := 15
  const QUARTZ_IAT_BLE_ADV_PKT_A0_CNT_OFFSET: nat := 16
  const QUARTZ_IAT_BLE_ADV_PKT_TS_OFFSET: nat := 17

  const QUARTZ_DPD_BLE_ADV_PKT_T0_OFFSET: nat := 3
  const QUARTZ_DPD_BLE_ADV_PKT_T1_OFFSET: nat := 4
  const QUARTZ_DPD_BLE_ADV_PKT_T1_TS_OFFSET: nat := 5
  const QUARTZ_DPD_BLE_ADV_PKT_L0_OFFSET: nat := 9
  const QUARTZ_DPD_BLE_ADV_PKT_L0_TS_OFFSET: nat := 11
  const QUARTZ_DPD_BLE_ADV_PKT_L1_OFFSET: nat := 15
  const QUARTZ_DPD_BLE_ADV_PKT_TS_OFFSET: nat := 17

  /* Raw event codes that the gateway remaps */
  const EVT_QUARTZ_TMP117_NORMAL_MODE: byte := 0
  const EVT_WHITE_TAPE_MOTION_MODE: byte := 1
  const EVT_WHITE_TAPE_HIBERNATION_MODE: byte := 18
  const EVT_WHITE_TAPE_TEMP_VIOLATION_MODE: byte := 51

  /** Absolute index of the event flag byte (7 + 2) */
  const WHITE_TAPE_DATA_EVENT_FLAG_OFFSET: nat := 9

  /* "Normal mode" value of each format's event enumeration */
  const QuartzTMP117_NormalMode: byte := 50
  const QuartzOPT3110_NormalMode: byte := 55
  const QuartzIAT_NormalMode: byte := 55
  const QuartzDPD_NormalMode: byte := 55

  /**
   * The two bytes of a two-part reading (whole part, then hundredths) that
   * the source turns into a float; the model keeps the bytes.
   */
  datatype TempRaw = TempRaw(whole: byte, hundredths: byte)

  /** Battery voltage in tenths of a volt is kept as its raw byte. */

  datatype BlePacketQuartzTmp117 = BlePacketQuartzTmp117(
    macAddr: string, fid: uint16, evtFlag: byte,
    t0: TempRaw, t0Ts: uint16, t1: TempRaw, t1Ts: uint16, t2: TempRaw, t2Ts: uint16,
    pid: uint32, limeBat: byte, seqId: uint16, tapeId: uint16, bat: byte, rssi: int8)

  datatype BlePacketQuartzOpt3110 = BlePacketQuartzOpt3110(
    macAddr: string, fid: uint16, evtFlag: byte,
    t0: TempRaw, t0Ts: uint16, l0: TempRaw, l0Ts: uint16, l1: TempRaw, l1Ts: uint16,
    pid: uint32, limeBat: byte, seqId: uint16, tapeId: uint16, bat: byte, rssi: int8)

  datatype BlePacketIat = BlePacketIat(
    macAddr: string, fid: uint16, evtFlag: byte,
    t0: byte, t1: byte, t1Ts: uint32, l0: uint16, l0Ts: uint32,
    a0Val: int8, a0Count: byte, ts: uint32, tapeId: uint16, bat: byte, rssi: int8)

  datatype BlePacketDpd = BlePacketDpd(
    macAddr: string, fid: uint16, evtFlag: byte,
    t0: byte, t1: byte, t1Ts: uint32, l0: uint16, l0Ts: uint32,
    l1: uint16, ts: uint16, tapeId: uint16, bat: byte, rssi: int8)

  datatype BlePacketType =
    | QuartzSensorUnknown
    | QuartzSensorTmp117
    | QuartzSensorOpt3110
    | QuartzSensorIat
    | QuartzSensorDpd

  /**
   * The payload union.  `Unwritten` is storage that no decoder has filled:
   * its callers only ever read the MAC text at its start.
   */
  datatype BleDataPacketStruct =
    | BlePktTmp117(tmp117: BlePacketQuartzTmp117)
    | BlePktOpt3110(opt3110: BlePacketQuartzOpt3110)
    | BlePktIat(iat: BlePacketIat)
    | BlePktDpd(dpd: BlePacketDpd)
    | Unwritten(staleMacAddr: string)

  datatype BleDataPacket = BleDataPacket(blePktStrct: BleDataPacketStruct, blePktType: BlePacketType)

  /**
   * The MAC text read through the TMP117 member of the union.  Every member
   * starts with the same `mac_addr` array, so this is the MAC of whichever
   * member was written last.
   */
  function ViewMacAddr(s: BleDataPacketStruct): string {
    match s
    case BlePktTmp117(p) => p.macAddr
    case BlePktOpt3110(p) => p.macAddr
    case BlePktIat(p) => p.macAddr
    case BlePktDpd(p) => p.macAddr
    case Unwritten(m) => m
  }

  /* ---------------- Byte assembly ---------------- */

  function BigEndian16(hi: byte, lo: byte): (v: uint16) {
    hi * 0x100 + lo
  }

  function BigEndian32(b0: byte, b1: byte, b2: byte, b3: byte): (v: uint32) {
    b0 * 0x100_0000 + b1 * 0x1_0000 + b2 * 0x100 + b3
  }

  function LittleEndian24(b0: byte, b1: byte, b2: byte): (v: uint32)
    ensures v < 0x100_0000
  {
    b2 * 0x1_0000 + b1 * 0x100 + b0
  }

  /** A 16-bit value determines its two bytes and is determined by them. */
  lemma BigEndian16RoundTrip(hi: byte, lo: byte, v: uint16)
    ensures BigEndian16(hi, lo) == v <==> hi == v / 0x100 && lo == v % 0x100
  {
  }

  lemma BigEndian32RoundTrip(b0: byte, b1: byte, b2: byte, b3: byte)
    ensures var v := BigEndian32(b0, b1, b2, b3);
      v / 0x100_0000 == b0 && (v / 0x1_0000) % 0x100 == b1 && (v / 0x100) % 0x100 == b2 && v % 0x100 == b3
  {
    var v := BigEndian32(b0, b1, b2, b3);
    assert v == ((b0 * 0x100 + b1) * 0x100 + b2) * 0x100 + b3;
  }

  lemma LittleEndian24RoundTrip(b0: byte, b1: byte, b2: byte)
    ensures var v := LittleEndian24(b0, b1, b2);
      v % 0x100 == b0 && (v / 0x100) % 0x100 == b1 && v / 0x1_0000 == b2
  {
    var v := LittleEndian24(b0, b1, b2);
    assert v == (b2 * 0x100 + b1) * 0x100 + b0;
  }

  /** The low 16 bits of a big-endian 32-bit value are its last two bytes. */
  lemma {:induction false} BigEndian32Low16(b0: byte, b1: byte, b2: byte, b3: byte)
    ensures ToUint16(BigEndian32(b0, b1, b2, b3)) == BigEndian16(b2, b3)
  {
    var v := BigEndian32(b0, b1, b2, b3);
    assert v == (b0 * 0x100 + b1) * 0x1_0000 + BigEndian16(b2, b3);
  }

  /* ---------------- Field extractors ---------------- */

  /** The advertisement carries every byte the decoders read: positions 0 to 30 and the RSSI. */
  predicate HasTapePayload(info: AdvInfo) {
    WellFormed(info) && info.length >= 30
  }

  function GetTimestampU16(info: AdvInfo, byteOffset: nat): (v: uint16)
    requires WellFormed(info) && QUARTZ_BLE_ADV_PKT_DATA_START_IDX + byteOffset + 1 < |info.data|
    ensures v == (info.data[7 + byteOffset] as int) * 0x100 + info.data[8 + byteOffset]
  {
    var startIdx := QUARTZ_BLE_ADV_PKT_DATA_START_IDX + byteOffset;
    BigEndian16(info.data[startIdx], info.data[startIdx + 1])
  }

  function GetTimestampU32(info: AdvInfo, byteOffset: nat): (v: uint32)
    requires WellFormed(info) && QUARTZ_BLE_ADV_PKT_DATA_START_IDX + byteOffset + 3 < |info.data|
    ensures v == BigEndian32(info.data[7 + byteOffset], info.data[8 + byteOffset],
                             info.data[9 + byteOffset], info.data[10 + byteOffset])
  {
    var startIdx := QUARTZ_BLE_ADV_PKT_DATA_START_IDX + byteOffset;
    BigEndian32(info.data[startIdx], info.data[startIdx + 1], info.data[startIdx + 2], info.data[startIdx + 3])
  }

  /** Whole part and hundredths of a two-part reading (the source converts them to float). */
  function GetTemperatureRaw(info: AdvInfo, byteOffset: nat): (t: TempRaw)
    requires WellFormed(info) && QUARTZ_BLE_ADV_PKT_DATA_START_IDX + byteOffset + 1 < |info.data|
    ensures t.whole == info.data[7 + byteOffset] && t.hundredths == info.data[8 + byteOffset]
  {
    var startIdx := QUARTZ_BLE_ADV_PKT_DATA_START_IDX + byteOffset;
    TempRaw(info.data[startIdx], info.data[startIdx + 1])
  }

  function GetLimePid(info: AdvInfo, byteOffset: nat): (v: uint32)
    requires WellFormed(info) && QUARTZ_BLE_ADV_PKT_DATA_START_IDX + byteOffset + 2 < |info.data|
    ensures v < 0x100_0000
    ensures v == info.data[7 + byteOffset] + 0x100 * (info.data[8 + byteOffset] as int) + 0x1_0000 * (info.data[9 + byteOffset] as int)
  {
    var startIdx := QUARTZ_BLE_ADV_PKT_DATA_START_IDX + byteOffset;
    LittleEndian24(info.data[startIdx], info.data[startIdx + 1], info.data[startIdx + 2])
  }

  function GetTapeId(info: AdvInfo): (v: uint16)
    requires WellFormed(info) && QUARTZ_BLE_ADV_PKT_TAPE_ID_IDX + 1 < |info.data|
    ensures v == (info.data[28] as int) * 0x100 + info.data[29]
  {
    var startIdx := QUARTZ_BLE_ADV_PKT_TAPE_ID_IDX;
    BigEndian16(info.data[startIdx], info.data[startIdx + 1])
  }

  function GetFid(info: AdvInfo): (v: uint16)
    requires WellFormed(info) && 8 < |info.data|
    ensures v == (info.data[7] as int) * 0x100 + info.data[8]
  {
    var startIdx := QUARTZ_BLE_ADV_PKT_DATA_START_IDX + QUARTZ_BLE_ADV_PKT_FID_OFFSET;
    BigEndian16(info.data[startIdx], info.data[startIdx + 1])
  }

  /** The raw battery byte; the source divides it by 10 as a float. */
  function GetBatVoltageRaw(info: AdvInfo): (b: byte)
    requires WellFormed(info) && 30 < |info.data|
    ensures b == info.data[30]
  {
    info.data[QUARTZ_BLE_ADV_PKT_DATA_START_IDX + QUARTZ_BLE_ADV_PKT_BAT_VOLT_OFFSET]
  }

  /** The RSSI the stack appended right after the payload, as a signed byte. */
  function GetTapeRssi(info: AdvInfo): (r: int8)
    requires WellFormed(info)
    ensures info.data[info.length] < 0x80 ==> r == info.data[info.length]
    ensures info.data[info.length] >= 0x80 ==> r == (info.data[info.length] as int) - 0x100
  {
    ToInt8(info.data[info.length])
  }

  /** LIME battery: always byte 25, through the OPT3110 offset, whatever the format. */
  function GetLimeBat(info: AdvInfo): (b: byte)
    requires WellFormed(info) && 25 < |info.data|
    ensures b == info.data[25]
  {
    info.data[QUARTZ_BLE_ADV_PKT_DATA_START_IDX + QUARTZ_OPT3110_BLE_ADV_PKT_LIME_BAT_OFFSET]
  }

  function GetRecordSequence(info: AdvInfo, byteOffset: nat): (v: uint16)
    requires WellFormed(info) && QUARTZ_BLE_ADV_PKT_DATA_START_IDX + byteOffset + 1 < |info.data|
    ensures v == (info.data[7 + byteOffset] as int) * 0x100 + info.data[8 + byteOffset]
  {
    var startIdx := QUARTZ_BLE_ADV_PKT_DATA_START_IDX + byteOffset;
    BigEndian16(info.data[startIdx], info.data[startIdx + 1])
  }

  function GetLightData(info: AdvInfo, byteOffset: nat): (v: uint16)
    requires WellFormed(info) && QUARTZ_BLE_ADV_PKT_DATA_START_IDX + byteOffset + 1 < |info.data|
    ensures v == (info.data[7 + byteOffset] as int) * 0x100 + info.data[8 + byteOffset]
  {
    var startIdx := QUARTZ_BLE_ADV_PKT_DATA_START_IDX + byteOffset;
    BigEndian16(info.data[startIdx], info.data[startIdx + 1])
  }
}
