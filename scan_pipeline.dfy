/**
 * The scan side of src/main.cpp after a report has been read from the
 * radio: the per-address RSSI statistics, the IDLE / SCANNING state machine,
 * the delivery queue to the cloud side, and the per-report step that filters,
 * decodes and forwards.  The queue is modelled sequentially: one push, one
 * pop, one drain at a time.
 */
module ScanPipeline {
  import opened Common
  import opened CString
  import opened TapeFormatDefs
  import opened Classifier
  import opened TapeFormat

  // ---------------------------------------------------------------- statistics

  /** One entry of the scan results (`BleScanRecord`). */
  datatype BleScanRecord = BleScanRecord(rssi: int, totalRssi: int, avgRssi: int, seenCount: int, deviceType: DeviceType)

  /**
   * `checkAndUpdateBleStats` on the map: a new address starts with one
   * sighting, a known one adds the sample and recomputes the average with C's
   * truncating division; no other entry changes.
   */
  function StatsUpdate(scanResult: map<string, BleScanRecord>, mac: string, tapeRssi: int8, deviceType: DeviceType)
    : (m: map<string, BleScanRecord>)
    requires mac in scanResult ==> scanResult[mac].seenCount >= 0
    ensures m.Keys == scanResult.Keys + {mac}
    ensures forall k :: k in scanResult && k != mac ==> m[k] == scanResult[k]
    ensures mac !in scanResult ==> m[mac] == BleScanRecord(tapeRssi, tapeRssi, tapeRssi, 1, deviceType)
    ensures mac in scanResult ==>
      var r := scanResult[mac];
      m[mac] == BleScanRecord(tapeRssi, r.totalRssi + tapeRssi, CDiv(r.totalRssi + tapeRssi, r.seenCount + 1),
                              r.seenCount + 1, r.deviceType)
  {
    if mac in scanResult then
      var r := scanResult[mac];
      var seen := r.seenCount + 1;
      var total := r.totalRssi + tapeRssi;
      scanResult[mac := r.(rssi := tapeRssi, seenCount := seen, totalRssi := total, avgRssi := CDiv(total, seen))]
    else
      scanResult[mac := BleScanRecord(tapeRssi, tapeRssi, tapeRssi, 1, deviceType)]
  }

  /**
   * What every entry satisfies: at least one sighting, every sample a signed
   * byte, and the average the truncated quotient of the total.
   */
  predicate Consistent(r: BleScanRecord) {
    r.seenCount >= 1 &&
    -128 <= r.rssi <= 127 &&
    -128 * r.seenCount <= r.totalRssi <= 127 * r.seenCount &&
    r.avgRssi == CDiv(r.totalRssi, r.seenCount)
  }

  predicate AllConsistent(scanResult: map<string, BleScanRecord>) {
    forall k :: k in scanResult ==> Consistent(scanResult[k])
  }

  /** An update keeps every entry consistent. */
  lemma StatsUpdatePreservesConsistency(scanResult: map<string, BleScanRecord>, mac: string, tapeRssi: int8, deviceType: DeviceType)
    requires AllConsistent(scanResult)
    ensures AllConsistent(StatsUpdate(scanResult, mac, tapeRssi, deviceType))
  {
    var m := StatsUpdate(scanResult, mac, tapeRssi, deviceType);
    if mac in scanResult {
      var r := scanResult[mac];
      assert -128 * (r.seenCount + 1) == -128 * r.seenCount - 128;
      assert 127 * (r.seenCount + 1) == 127 * r.seenCount + 127;
      assert Consistent(m[mac]);
    }
  }

  /** The average of a consistent entry is itself a signed byte, between the extremes a sample can take. */
  lemma {:induction false} AverageInRange(r: BleScanRecord)
    requires Consistent(r)
    ensures -128 <= r.avgRssi <= 127
  {
    var n := r.seenCount;
    if r.totalRssi >= 0 {
      DivBelow(r.totalRssi, n, 127);
    } else {
      DivBelow(-r.totalRssi, n, 128);
    }
  }

  lemma DivBelow(a: nat, n: int, c: nat)
    requires n >= 1 && a <= c * n
    ensures a / n <= c
  {
  }

  function Sum(samples: seq<int8>): int
    decreases |samples|
  {
    if samples == [] then 0 else Sum(samples[..|samples| - 1]) + samples[|samples| - 1]
  }

  /** The map after the samples of one address are recorded in order. */
  function RecordAll(scanResult: map<string, BleScanRecord>, mac: string, samples: seq<int8>, deviceType: DeviceType)
    : (m: map<string, BleScanRecord>)
    requires mac in scanResult ==> scanResult[mac].seenCount >= 0
    ensures mac in m ==> m[mac].seenCount >= 0
    decreases |samples|
  {
    if samples == [] then scanResult
    else StatsUpdate(RecordAll(scanResult, mac, samples[..|samples| - 1], deviceType), mac, samples[|samples| - 1], deviceType)
  }

  /**
   * Starting from an unseen address, `n` samples leave it seen `n` times with
   * their sum as total, their truncated mean as average, the last sample as
   * the current RSSI and the first call's device type; other entries stay.
   */
  lemma {:induction false} RecordAllFromUnseen(scanResult: map<string, BleScanRecord>, mac: string, samples: seq<int8>, deviceType: DeviceType)
    requires mac !in scanResult && samples != []
    ensures var m := RecordAll(scanResult, mac, samples, deviceType);
      m.Keys == scanResult.Keys + {mac} &&
      (forall k :: k in scanResult ==> m[k] == scanResult[k]) &&
      m[mac] == BleScanRecord(samples[|samples| - 1], Sum(samples), CDiv(Sum(samples), |samples|), |samples|, deviceType)
    decreases |samples|
  {
    var front := samples[..|samples| - 1];
    if front != [] {
      RecordAllFromUnseen(scanResult, mac, front, deviceType);
    } else {
      assert Sum(samples) == samples[0];
    }
  }

  /** The scan results of the scan thread: one entry per address, updated in place. */
  class ScanResults {
    var records: map<string, BleScanRecord>

    ghost predicate Valid()
      reads this
    {
      AllConsistent(records)
    }

    constructor ()
      ensures records == map[] && Valid()
    {
      records := map[];
    }

    /** `checkAndUpdateBleStats`: the address is the stack's text without colons, the sample the RSSI byte. */
    method CheckAndUpdateBleStats(info: AdvInfo, deviceType: DeviceType)
      requires WellFormed(info) && Valid()
      modifies this
      ensures Valid()
      ensures records == StatsUpdate(old(records), TapeMacAddr(info), GetTapeRssi(info), deviceType)
    {
      var macAddr := TapeMacAddr(info);
      var tapeRssi := GetTapeRssi(info);
      StatsUpdatePreservesConsistency(records, macAddr, tapeRssi, deviceType);
      if macAddr in records {
        var record := records[macAddr];
        record := record.(rssi := tapeRssi);
        record := record.(seenCount := record.seenCount + 1);
        record := record.(totalRssi := record.totalRssi + tapeRssi);
        record := record.(avgRssi := CDiv(record.totalRssi, record.seenCount));
        records := records[macAddr := record];
      } else {
        records := records[macAddr := BleScanRecord(tapeRssi, tapeRssi, tapeRssi, 1, deviceType)];
      }
    }
  }

  // ---------------------------------------------------------------- scan state

  datatype BleScanState = BleScanStateIdle | BleScanStateScanning

  /** `BleScanOptions` without its callback, which no caller sets. */
  datatype BleScanOptions = BleScanOptions(continuous: bool, scanDurationSec: uint32, sleepDurationSec: uint32)

  /** A default-initialised `BleScanOptions`. */
  const DefaultScanOptions := BleScanOptions(false, 0, 0)

  /** The three globals the start / stop pair works on. */
  datatype ScanControl = ScanControl(bleScanState: BleScanState, scanStopRequested: bool, scanOptions: BleScanOptions)

  /** `startBleScan`: refused unless idle; otherwise the options are taken, a stop request cleared and scanning begins. */
  function StartTransition(c: ScanControl, options: BleScanOptions): (r: (bool, ScanControl))
    ensures r.0 <==> c.bleScanState == BleScanStateIdle
    ensures !r.0 ==> r.1 == c
    ensures r.0 ==> r.1 == ScanControl(BleScanStateScanning, false, options)
  {
    if c.bleScanState != BleScanStateIdle then (false, c)
    else (true, ScanControl(BleScanStateScanning, false, options))
  }

  /** `stopBleScan`: always true; only a scanning state changes, to idle with a stop request. */
  function StopTransition(c: ScanControl): (r: (bool, ScanControl))
    ensures r.0
    ensures c.bleScanState != BleScanStateScanning ==> r.1 == c
    ensures c.bleScanState == BleScanStateScanning ==>
      r.1 == c.(bleScanState := BleScanStateIdle, scanStopRequested := true)
  {
    if c.bleScanState != BleScanStateScanning then (true, c)
    else (true, c.(bleScanState := BleScanStateIdle, scanStopRequested := true))
  }

  /** While scanning no stop is pending: both transitions keep this. */
  predicate ScanControlInvariant(c: ScanControl) {
    c.bleScanState == BleScanStateScanning ==> !c.scanStopRequested
  }

  lemma TransitionsPreserveInvariant(c: ScanControl, options: BleScanOptions)
    requires ScanControlInvariant(c)
    ensures ScanControlInvariant(StartTransition(c, options).1)
    ensures ScanControlInvariant(StopTransition(c).1)
  {
  }

  /** A start succeeds at most once until the next stop; the second is refused and changes nothing. */
  lemma SecondStartRefused(c: ScanControl, first: BleScanOptions, second: BleScanOptions)
    ensures var c1 := StartTransition(c, first).1;
      !StartTransition(c1, second).0 && StartTransition(c1, second).1 == c1
  {
  }

  /** Stopping is idempotent, and a stop after a start returns to idle with the options kept. */
  lemma StopAfterStart(c: ScanControl, options: BleScanOptions)
    ensures StopTransition(StopTransition(c).1) == StopTransition(c)
    ensures c.bleScanState == BleScanStateIdle ==>
      StopTransition(StartTransition(c, options).1).1 == ScanControl(BleScanStateIdle, true, options)
  {
  }

  /** `startOneShotScan`'s options: not continuous, no sleep. */
  function OneShotOptions(scanDurationSec: uint32): (o: BleScanOptions)
    ensures !o.continuous && o.scanDurationSec == scanDurationSec && o.sleepDurationSec == 0
  {
    DefaultScanOptions.(scanDurationSec := scanDurationSec)
  }

  /** `startContinuousScan`'s options. */
  function ContinuousOptions(scanDurationSec: uint32, sleepDurationSec: uint32): (o: BleScanOptions)
    ensures o.continuous && o.scanDurationSec == scanDurationSec && o.sleepDurationSec == sleepDurationSec
  {
    BleScanOptions(true, scanDurationSec, sleepDurationSec)
  }

  /** The scan globals `bleScanState`, `scanStopRequested` and `scanOptions`. */
  class BleScanControl {
    var bleScanState: BleScanState
    var scanStopRequested: bool
    var scanOptions: BleScanOptions

    function Snapshot(): ScanControl
      reads this
    {
      ScanControl(bleScanState, scanStopRequested, scanOptions)
    }

    constructor ()
      ensures Snapshot() == ScanControl(BleScanStateIdle, false, DefaultScanOptions)
    {
      bleScanState := BleScanStateIdle;
      scanStopRequested := false;
      scanOptions := DefaultScanOptions;
    }

    method StartBleScan(options: BleScanOptions) returns (started: bool)
      modifies this
      ensures (started, Snapshot()) == StartTransition(old(Snapshot()), options)
    {
      if bleScanState != BleScanStateIdle {
        return false;
      }
      scanOptions := options;
      scanStopRequested := false;
      bleScanState := BleScanStateScanning;
      return true;
    }

    method StopBleScan() returns (stopped: bool)
      modifies this
      ensures (stopped, Snapshot()) == StopTransition(old(Snapshot()))
    {
      if bleScanState != BleScanStateScanning {
        return true;
      }
      scanStopRequested := true;
      bleScanState := BleScanStateIdle;
      return true;
    }

    /** `startOneShotScan`: the start's result is dropped. */
    method StartOneShotScan(scanDurationSec: uint32)
      modifies this
      ensures Snapshot() == StartTransition(old(Snapshot()), OneShotOptions(scanDurationSec)).1
    {
      var _ := StartBleScan(OneShotOptions(scanDurationSec));
    }

    /** `startContinuousScan`: the start's result is dropped. */
    method StartContinuousScan(scanDurationSec: uint32, sleepDurationSec: uint32)
      modifies this
      ensures Snapshot() == StartTransition(old(Snapshot()), ContinuousOptions(scanDurationSec, sleepDurationSec)).1
    {
      var _ := StartBleScan(ContinuousOptions(scanDurationSec, sleepDurationSec));
    }
  }

  // ---------------------------------------------------------------- delivery queue

  /** `bleDataQueue`: packets enter at the back and leave from the front. */
  class BleDataQueue {
    var items: seq<BleDataPacket>

    constructor ()
      ensures items == []
    {
      items := [];
    }

    /** `sendBleDataPacket`. */
    method SendBleDataPacket(bleDataPkt: BleDataPacket)
      modifies this
      ensures items == old(items) + [bleDataPkt]
    {
      items := items + [bleDataPkt];
    }

    /** `front`: the oldest packet. */
    method Front() returns (blePkt: BleDataPacket)
      requires items != []
      ensures blePkt == items[0]
    {
      blePkt := items[0];
    }

    /** `pop`: the oldest packet leaves. */
    method Pop()
      requires items != []
      modifies this
      ensures items == old(items)[1..]
    {
      items := items[1..];
    }

    /** The consumer's inner loop: every queued packet is taken, oldest first, until the queue is empty. */
    method Drain() returns (delivered: seq<BleDataPacket>)
      modifies this
      ensures delivered == old(items) && items == []
    {
      delivered := [];
      while items != []
        invariant delivered + items == old(items)
        decreases |items|
      {
        var blePkt := Front();
        Pop();
        delivered := delivered + [blePkt];
      }
    }
  }

  /** The queue after pushing `pkts` one by one. */
  function PushAll(items: seq<BleDataPacket>, pkts: seq<BleDataPacket>): seq<BleDataPacket>
    decreases |pkts|
  {
    if pkts == [] then items else PushAll(items + [pkts[0]], pkts[1..])
  }

  /** FIFO: packets pushed one by one are delivered after what was queued, in the order they were pushed. */
  lemma {:induction false} PushAllAppends(items: seq<BleDataPacket>, pkts: seq<BleDataPacket>)
    ensures PushAll(items, pkts) == items + pkts
    decreases |pkts|
  {
    if pkts != [] {
      PushAllAppends(items + [pkts[0]], pkts[1..]);
      assert items + [pkts[0]] + pkts[1..] == items + pkts;
    }
  }

  // ---------------------------------------------------------------- per-report step

  /** The one tape whose packets are forwarded. */
  const FORWARDED_TAPE_MAC: string := "E897D628F980"

  /**
   * The forward filter of the per-report step: an advertising report from a
   * white tape above the RSSI floor is decoded into the caller's storage
   * (`prior`) and forwarded when the address read through the TMP117 member
   * is the forwarded tape's.
   */
  function ForwardDecision(subevent: byte, info: AdvInfo, prior: BleDataPacketStruct): (r: Option<BleDataPacket>)
    requires WellFormed(info)
    ensures r.Some? ==> subevent == EVT_LE_ADVERTISING_REPORT && IsValidWhiteTapeBleSource(info).0
    ensures r.Some? ==> HasTapePayload(info) && r.value == ParseBleDataPacket(info, prior) &&
                        ViewMacAddr(r.value.blePktStrct) == FORWARDED_TAPE_MAC
  {
    if subevent != EVT_LE_ADVERTISING_REPORT then None
    else if !IsValidWhiteTapeBleSource(info).0 then None
    else
      var blePacketData := ParseBleDataPacket(info, prior);
      if ViewMacAddr(blePacketData.blePktStrct) == FORWARDED_TAPE_MAC then Some(blePacketData) else None
  }

  /** Only full-size direct white-tape reports at or above -80 dBm are ever forwarded. */
  lemma ForwardedReportIsStrongWhiteTape(subevent: byte, info: AdvInfo, prior: BleDataPacketStruct)
    requires WellFormed(info) && ForwardDecision(subevent, info, prior).Some?
    ensures info.length >= 30 && DirectWhiteSignature(info) && !ProxySignature(info)
    ensures GetTapeRssi(info) >= -80
  {
  }

  /** For a known format the decision is exactly whether the report's own address is the forwarded tape's. */
  lemma ForwardDecisionKnownFormat(subevent: byte, info: AdvInfo, prior: BleDataPacketStruct)
    requires WellFormed(info) && subevent == EVT_LE_ADVERTISING_REPORT && IsValidWhiteTapeBleSource(info).0
    requires GetBlePacketType(info) != QuartzSensorUnknown
    ensures ForwardDecision(subevent, info, prior).Some? <==> RemoveChar(info.bdaddrText, ':') == FORWARDED_TAPE_MAC
  {
  }

  /**
   * For an unknown format nothing is decoded, so the decision rests on
   * whatever address the storage held before, not on the report.
   */
  lemma ForwardDecisionUnknownFormat(subevent: byte, info: AdvInfo, prior: BleDataPacketStruct)
    requires WellFormed(info) && subevent == EVT_LE_ADVERTISING_REPORT && IsValidWhiteTapeBleSource(info).0
    requires GetBlePacketType(info) == QuartzSensorUnknown
    ensures ForwardDecision(subevent, info, prior).Some? <==> ViewMacAddr(prior) == FORWARDED_TAPE_MAC
    ensures ForwardDecision(subevent, info, prior).Some? ==>
      ForwardDecision(subevent, info, prior).value == BleDataPacket(prior, QuartzSensorUnknown)
  {
  }

  /**
   * One report of the scan thread's read loop (src/main.cpp:633-666): a
   * report that passes the classifier is counted in the statistics, and the
   * forward filter's packet, if any, is queued.
   */
  method ProcessScanEvent(subevent: byte, info: AdvInfo, prior: BleDataPacketStruct,
                          scanResults: ScanResults, bleDataQueue: BleDataQueue)
    requires WellFormed(info) && scanResults.Valid()
    modifies scanResults, bleDataQueue
    ensures scanResults.Valid()
    ensures scanResults.records ==
      if subevent == EVT_LE_ADVERTISING_REPORT && IsValidWhiteTapeBleSource(info).0
      then StatsUpdate(old(scanResults.records), TapeMacAddr(info), GetTapeRssi(info), DeviceTypeWhite)
      else old(scanResults.records)
    ensures bleDataQueue.items ==
      old(bleDataQueue.items) + match ForwardDecision(subevent, info, prior) case Some(p) => [p] case None => []
  {
    if subevent != EVT_LE_ADVERTISING_REPORT {
      return;
    }
    var (valid, deviceType) := IsValidWhiteTapeBleSource(info);
    if !valid {
      return;
    }
    scanResults.CheckAndUpdateBleStats(info, deviceType);
    var blePacketData := ParseBleDataPacket(info, prior);
    if ViewMacAddr(blePacketData.blePktStrct) == FORWARDED_TAPE_MAC {
      bleDataQueue.SendBleDataPacket(blePacketData);
    }
  }
}
