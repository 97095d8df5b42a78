/**
 * Source classification of one advertising report (src/main.cpp): the
 * bounds-checked byte accessor, the direct / proxy signature check, the RSSI
 * floor, and the gateway-wide event-flag remap.
 */
module Classifier {
  import opened Common
  import opened TapeFormatDefs

  datatype DeviceType =
    | DeviceTypeUnknown
    | DeviceTypeWhite
    | DeviceTypeLime
    | DeviceTypeUld
    | DeviceTypeSpsfGw
    | DeviceTypeMax

  /** `getInfoDataAt`: a payload byte, or nothing when the index is not inside the payload. */
  function GetInfoDataAt(info: AdvInfo, index: nat): (r: Option<byte>)
    requires WellFormed(info)
    ensures r.None? <==> index >= info.length
    ensures r.Some? ==> r.value == info.data[index]
  {
    if index >= info.length then None else Some(info.data[index])
  }

  /** The ten signature positions, in the order the classifier reads them. */
  const SignatureIndices: seq<nat> := [
    COMPANY_IDENTIFIER_HIGH_INDEX, COMPANY_IDENTIFIER_LOW_INDEX,
    TRACK_IDENTIFIER_HIGH_INDEX, TRACK_IDENTIFIER_LOW_INDEX,
    RFID_GW_COMPANY_IDENTIFIER_HIGH_INDEX, RFID_GW_COMPANY_IDENTIFIER_LOW_INDEX,
    RFID_GW_TRACK_IDENTIFIER_HIGH_INDEX, RFID_GW_TRACK_IDENTIFIER_LOW_INDEX,
    RFID_GW_PRODUCT_ID_HIGH_INDEX, RFID_GW_PRODUCT_ID_LOW_INDEX]

  /** Reads the bytes at `indices` one after another; the first failed read abandons the rest. */
  function ReadAll(info: AdvInfo, indices: seq<nat>): (r: Option<seq<byte>>)
    requires WellFormed(info)
    ensures r.None? <==> exists k :: 0 <= k < |indices| && indices[k] >= info.length
    ensures r.Some? ==> |r.value| == |indices|
    ensures r.Some? ==> forall k :: 0 <= k < |indices| ==> r.value[k] == info.data[indices[k]]
  {
    if indices == [] then Some([])
    else
      match GetInfoDataAt(info, indices[0])
      case None => None
      case Some(b) =>
        match ReadAll(info, indices[1..])
        case None => None
        case Some(rest) => Some([b] + rest)
  }

  /** The classification once all ten signature bytes have been read. */
  function ClassifySignature(b: seq<byte>, length: nat): (d: DeviceType)
    requires |b| == |SignatureIndices|
    ensures d == DeviceTypeUnknown || d == DeviceTypeWhite
    ensures d == DeviceTypeWhite <==>
      length >= 30 &&
      b[0] == 0x59 && b[1] == 0x00 && b[2] == 0x52 && b[3] == 0x58 &&
      !(b[4] == 0x59 && b[5] == 0x00 && b[8] == 0xFF && b[9] == 0xA5)
  {
    var isTrkNordicDevice := b[0] == NORDIC_IDENTIFIER_HIGH_BYTE && b[1] == NORDIC_IDENTIFIER_LOW_BYTE;
    var isTrkRfidDevice :=
      b[4] == NORDIC_IDENTIFIER_HIGH_BYTE && b[5] == NORDIC_IDENTIFIER_LOW_BYTE &&
      b[8] == RFID_GW_PRODUCT_ID_HIGH_BYTE && b[9] == RFID_GW_PRODUCT_ID_LOW_BYTE;
    if !isTrkNordicDevice && !isTrkRfidDevice then DeviceTypeUnknown
    else
      // the direct layout's track bytes win when both signatures match
      var trackHigh := if isTrkNordicDevice then b[2] else b[6];
      var trackLow := if isTrkNordicDevice then b[3] else b[7];
      var d0 := DeviceTypeMax;
      var d1 := if trackHigh == LIME_MILESTONE_HIGH_BYTE && trackLow == LIME_MILESTONE_LOW_BYTE then DeviceTypeLime else d0;
      var d2 := if trackHigh == WHITETAPE_HIGH_BYTE && trackLow == WHITETAPE_LOW_BYTE
                then (if isTrkRfidDevice then DeviceTypeSpsfGw else DeviceTypeWhite) else d1;
      var d3 := if trackHigh == ULD_HIGH_BYTE && trackLow == ULD_LOW_BYTE then DeviceTypeUld else d2;
      if d3 != DeviceTypeWhite || length < 30 then DeviceTypeUnknown else d3
  }

  /** The direct white-tape signature: Nordic company ID at 5-6, white-tape track at 7-8. */
  predicate DirectWhiteSignature(info: AdvInfo)
    requires WellFormed(info) && info.length > 8
  {
    info.data[5] == 0x59 && info.data[6] == 0x00 && info.data[7] == 0x52 && info.data[8] == 0x58
  }

  /** The proxying gateway's signature: Nordic company ID at 2-3, product ID 0xFFA5 at 12-13. */
  predicate ProxySignature(info: AdvInfo)
    requires WellFormed(info) && info.length > 13
  {
    info.data[2] == 0x59 && info.data[3] == 0x00 && info.data[12] == 0xFF && info.data[13] == 0xA5
  }

  /**
   * `getBleDataSource`: only a direct white tape with a full 30-byte payload
   * and without the proxy signature is WHITE; every other report, including
   * a LIME, ULD or proxied one, is UNKNOWN.
   */
  function GetBleDataSource(info: AdvInfo): (d: DeviceType)
    requires WellFormed(info)
    ensures d == DeviceTypeUnknown || d == DeviceTypeWhite
    ensures info.length <= 13 ==> d == DeviceTypeUnknown
    ensures d == DeviceTypeWhite <==>
      info.length >= 30 && DirectWhiteSignature(info) && !ProxySignature(info)
  {
    match ReadAll(info, SignatureIndices)
    case None => DeviceTypeUnknown
    case Some(b) => ClassifySignature(b, info.length)
  }

  /** `isBleRssiInRange`: the floor is inclusive. */
  function IsBleRssiInRange(rssi: int8): (inRange: bool)
    ensures inRange <==> -80 <= rssi as int
  {
    rssi >= BLE_RSSI_THRESHOLD
  }

  lemma IsBleRssiInRangeBoundary()
    ensures IsBleRssiInRange(-80) && !IsBleRssiInRange(-81)
  {
  }

  /** A stronger signal than an accepted one is accepted too. */
  lemma IsBleRssiInRangeMonotone(weaker: int8, stronger: int8)
    requires weaker <= stronger && IsBleRssiInRange(weaker)
    ensures IsBleRssiInRange(stronger)
  {
  }

  /**
   * `isValidWhiteTapeBleSource`: the classification (the source's out
   * parameter) and whether the report is a white tape above the RSSI floor,
   * the RSSI byte `length` being read as a signed byte.
   */
  function IsValidWhiteTapeBleSource(info: AdvInfo): (r: (bool, DeviceType))
    requires WellFormed(info)
    ensures r.1 == GetBleDataSource(info)
    ensures r.0 <==> info.length >= 30 && DirectWhiteSignature(info) && !ProxySignature(info) &&
                     GetTapeRssi(info) >= BLE_RSSI_THRESHOLD
    ensures r.0 ==> HasTapePayload(info)
  {
    var deviceType := GetBleDataSource(info);
    (deviceType == DeviceTypeWhite && IsBleRssiInRange(ToInt8(info.data[info.length])), deviceType)
  }

  /** `UpdateEventFlagForQuartz`: the four raw mode codes the gateway renumbers. */
  function UpdateEventFlagForQuartz(evtFlag: byte): (r: byte)
    ensures evtFlag == EVT_QUARTZ_TMP117_NORMAL_MODE ==> r == NormalMode
    ensures evtFlag == EVT_WHITE_TAPE_MOTION_MODE ==> r == InMotionMode
    ensures evtFlag == EVT_WHITE_TAPE_HIBERNATION_MODE ==> r == InHibernationMode
    ensures evtFlag == EVT_WHITE_TAPE_TEMP_VIOLATION_MODE ==> r == TemperatureViolationMode
    ensures evtFlag !in {0, 1, 18, 51} ==> r == evtFlag
  {
    match evtFlag
    case 0 => NormalMode
    case 1 => InMotionMode
    case 18 => InHibernationMode
    case 51 => TemperatureViolationMode
    case _ => evtFlag
  }

  /** No raw code survives the remap, so remapping a remapped flag changes nothing. */
  lemma UpdateEventFlagForQuartzIdempotent(evtFlag: byte)
    ensures UpdateEventFlagForQuartz(evtFlag) !in {0, 1, 18, 51}
    ensures UpdateEventFlagForQuartz(UpdateEventFlagForQuartz(evtFlag)) == UpdateEventFlagForQuartz(evtFlag)
  {
  }

  /**
   * `getTimestamp`: a big-endian 16-bit count of two-minute ticks converted
   * to seconds; the product never exceeds 32 bits, so nothing wraps.
   */
  function GetTimestamp(bleDataBuff: seq<byte>, startIdx: byte): (secs: uint32)
    requires startIdx + 1 < |bleDataBuff|
    ensures secs % 120 == 0
    ensures secs / 120 == bleDataBuff[startIdx] as int * 0x100 + bleDataBuff[startIdx + 1]
  {
    BigEndian16(bleDataBuff[startIdx], bleDataBuff[startIdx + 1]) * 120
  }
}
