/**
 * The connectable-tape side of src/ble.cpp: the colon strip of an address,
 * the eligibility check the scan side runs, the retry / backoff bookkeeping,
 * and one sequential pass of the connect worker.
 *
 * The clock (`time(nullptr)`) and the connection attempt are parameters:
 * `now` for one call, and per-address oracles for the worker pass, since each
 * entry is visited once per pass whatever order the map is walked in.
 */
module Ble {
  import opened Common
  import opened CString
  import opened Config

  const BACKOFF_STEP_SECS: int := 5
  const BACKOFF_CAP_SECS: int := 60

  /**
   * `convertBdAddrToStr`: copies the address text into `output` without its
   * colons and terminates it; no other cell of `output` is written.
   */
  method ConvertBdAddrToStr(input: string, output: array<char>)
    requires NoNul(input)
    requires |RemoveChar(input, ':')| < output.Length
    modifies output
    ensures var r := RemoveChar(input, ':');
      output[..|r|] == r && output[|r|] == '\0' &&
      output[|r| + 1..] == old(output[..])[|r| + 1..]
  {
    var len := |input|;
    var i, j := 0, 0;
    while i < len
      invariant 0 <= i <= len
      invariant j == |RemoveChar(input[..i], ':')| <= |RemoveChar(input, ':')|
      invariant output[..j] == RemoveChar(input[..i], ':')
      invariant output[j..] == old(output[..])[j..]
    {
      assert input[..i + 1][..i] == input[..i];
      assert input[..i + 1] + input[i + 1..] == input;
      RemoveCharAppend(input[..i + 1], input[i + 1..], ':');
      if input[i] != ':' {
        output[j] := input[i];
        j := j + 1;
      }
      i := i + 1;
    }
    assert input[..i] == input;
    output[j] := '\0';
  }

  /** The cooldown test of `checkIfConnectableTape`: both the backoff and the re-read delay have passed. */
  predicate Eligible(t: TapeState, now: int, readTapeAgainDelaySecs: int): (ok: bool)
    ensures ok <==> now >= t.lastSentTimeSecs + Max(t.backOffSecs, readTapeAgainDelaySecs)
  {
    now - t.lastSentTimeSecs >= t.backOffSecs && now - t.lastSentTimeSecs >= readTapeAgainDelaySecs
  }

  function Min(a: int, b: int): int {
    if a <= b then a else b
  }

  function Max(a: int, b: int): int {
    if a >= b then a else b
  }

  /**
   * `updateTapeConnectionStatus`: the send time is stamped (truncated to 32
   * bits); a success clears the retry state, a failure counts one more retry
   * and backs off linearly, capped at a minute.
   */
  function UpdatedStatus(t: TapeState, success: bool, now: int): (u: TapeState)
    ensures u.macAddr == t.macAddr && u.tapeFound == t.tapeFound
    ensures u.lastSentTimeSecs == ToUint32(now)
    ensures success ==> u.tapeConnected && u.retryCount == 0 && u.backOffSecs == 0
    ensures !success ==> !u.tapeConnected && u.retryCount == t.retryCount + 1 &&
                         u.backOffSecs == Min(BACKOFF_CAP_SECS, 5 * u.retryCount)
    ensures !success && t.retryCount >= 0 ==> 5 <= u.backOffSecs <= BACKOFF_CAP_SECS
  {
    var stamped := t.(lastSentTimeSecs := ToUint32(now));
    if success then
      stamped.(tapeConnected := true, retryCount := 0, backOffSecs := 0)
    else
      var retries := t.retryCount + 1;
      stamped.(tapeConnected := false, retryCount := retries, backOffSecs := Min(BACKOFF_CAP_SECS, retries * BACKOFF_STEP_SECS))
  }

  /** `k` consecutive failed attempts, each stamped at `now`. */
  function AfterFailures(t: TapeState, k: nat, now: int): TapeState
    decreases k
  {
    if k == 0 then t else UpdatedStatus(AfterFailures(t, k - 1, now), false, now)
  }

  /** From a clean entry, `k` failures leave `k` retries and a backoff of min(60, 5k), never more than a minute. */
  lemma {:induction false} BackoffAfterFailures(t: TapeState, k: nat, now: int)
    requires t.retryCount == 0 && t.backOffSecs == 0
    ensures AfterFailures(t, k, now).retryCount == k
    ensures AfterFailures(t, k, now).backOffSecs == Min(60, 5 * k) <= 60
    ensures k > 0 ==> !AfterFailures(t, k, now).tapeConnected
    decreases k
  {
    if k > 0 {
      BackoffAfterFailures(t, k - 1, now);
    }
  }

  /**
   * After a failure stamped at `now` (a time that fits in 32 bits), the tape
   * is not eligible again until its backoff has passed.
   */
  lemma NoRetryDuringBackoff(t: TapeState, now: int, later: int, readTapeAgainDelaySecs: int)
    requires 0 <= now < 0x1_0000_0000 && t.retryCount >= 0
    requires later - now < UpdatedStatus(t, false, now).backOffSecs
    ensures !Eligible(UpdatedStatus(t, false, now), later, readTapeAgainDelaySecs)
  {
  }

  /** After a success stamped at `now`, the tape is eligible exactly once the re-read delay (and no backoff) has passed. */
  lemma EligibleAfterSuccess(t: TapeState, now: int, later: int, readTapeAgainDelaySecs: int)
    requires 0 <= now < 0x1_0000_0000
    ensures Eligible(UpdatedStatus(t, true, now), later, readTapeAgainDelaySecs) <==>
            later - now >= 0 && later - now >= readTapeAgainDelaySecs
  {
  }

  /**
   * The conversion at src/ble.cpp:252 as written: `bool` of the returned
   * descriptor, true for every nonzero value, including the -1 of a failure.
   */
  function ConnectSucceededAsWritten(ret: int): (success: bool)
    ensures success <==> ret != 0
  {
    ret != 0
  }

  /** The intended conversion: `connectToBleTape` returns a descriptor (>= 0) or -1. */
  function ConnectSucceeded(ret: int): (success: bool)
    ensures ret == -1 ==> !success
    ensures ret >= 0 ==> success
  {
    ret >= 0
  }

  /**
   * What one worker pass does to one entry, as src/ble.cpp:244-256 is
   * written: a found entry is cleared and updated with `bool` of the
   * attempt's return value.
   */
  function WorkerStep(t: TapeState, ret: int, now: int): (u: TapeState)
    ensures !u.tapeFound
    ensures !t.tapeFound ==> u == t
    ensures t.tapeFound ==> u.macAddr == t.macAddr && u.lastSentTimeSecs == ToUint32(now)
    ensures t.tapeFound && ret != 0 ==> u.tapeConnected && u.retryCount == 0 && u.backOffSecs == 0
    ensures t.tapeFound && ret == 0 ==> !u.tapeConnected && u.retryCount == t.retryCount + 1
  {
    if !t.tapeFound then t else UpdatedStatus(t.(tapeFound := false), ConnectSucceededAsWritten(ret), now)
  }

  /** The same step with the intended conversion: only a descriptor counts as a connection. */
  function CorrectedWorkerStep(t: TapeState, ret: int, now: int): (u: TapeState)
    ensures !u.tapeFound
    ensures !t.tapeFound ==> u == t
    ensures t.tapeFound ==> u.macAddr == t.macAddr && u.lastSentTimeSecs == ToUint32(now)
    ensures t.tapeFound && ret >= 0 ==> u.tapeConnected && u.retryCount == 0 && u.backOffSecs == 0
    ensures t.tapeFound && ret < 0 ==> !u.tapeConnected && u.retryCount == t.retryCount + 1
  {
    if !t.tapeFound then t else UpdatedStatus(t.(tapeFound := false), ConnectSucceeded(ret), now)
  }

  /**
   * With the conversion as written, the -1 every failure path of
   * `connectToBleTape` returns is booked as a connection, and a 0 (a valid
   * descriptor) as a failure.
   */
  lemma FailedConnectRecordedAsSuccess(t: TapeState, now: int)
    requires t.tapeFound
    ensures ConnectSucceededAsWritten(-1) && !ConnectSucceededAsWritten(0)
    ensures var u := WorkerStep(t, -1, now);
      u.tapeConnected && u.retryCount == 0 && u.backOffSecs == 0
    ensures var u := WorkerStep(t, 0, now);
      !u.tapeConnected && u.retryCount == t.retryCount + 1
  {
  }

  /** With the intended conversion, a failed attempt counts as a retry and a descriptor 0 as a connection. */
  lemma FailedConnectRecordedAsFailure(t: TapeState, now: int)
    requires t.tapeFound
    ensures var u := CorrectedWorkerStep(t, -1, now);
      !u.tapeConnected && u.retryCount == t.retryCount + 1
    ensures CorrectedWorkerStep(t, 0, now).tapeConnected
  {
  }

  /** The two conversions agree on every positive descriptor; they part only at 0 and at negative returns. */
  lemma WorkerStepsAgreeOnPositive(t: TapeState, ret: int, now: int)
    requires ret > 0
    ensures WorkerStep(t, ret, now) == CorrectedWorkerStep(t, ret, now)
  {
  }

  /**
   * `checkIfConnectableTape`: the scanned address is normalised and looked
   * up; a listed tape whose cooldown has passed is marked found.  Nothing
   * else changes.
   */
  method CheckIfConnectableTape(cfg: BleConnectConfig, bdaddrText: string, now: int) returns (found: bool)
    requires cfg.Valid()
    modifies cfg.tapeList.Values
    ensures cfg.Valid()
    ensures var key := NormalizeMac(bdaddrText);
      found <==> key in cfg.tapeList && Eligible(old(cfg.tapeList[key].State()), now, cfg.readTapeAgainDelaySecs)
    ensures var key := NormalizeMac(bdaddrText);
      forall k :: k in cfg.tapeList ==>
        cfg.tapeList[k].State() == if found && k == key then old(cfg.tapeList[k].State()).(tapeFound := true)
                                   else old(cfg.tapeList[k].State())
  {
    var scannedMacAddress := FormatMacAddrStr(bdaddrText);
    if scannedMacAddress in cfg.tapeList {
      var tape := cfg.tapeList[scannedMacAddress];
      if now - tape.lastSentTimeSecs >= tape.backOffSecs &&
         now - tape.lastSentTimeSecs >= cfg.readTapeAgainDelaySecs
      {
        tape.tapeFound := true;
        return true;
      }
    }
    return false;
  }

  /** `updateTapeConnectionStatus` on the entry itself. */
  method UpdateTapeConnectionStatus(tape: TapeConfig, success: bool, now: int)
    modifies tape
    ensures tape.State() == UpdatedStatus(old(tape.State()), success, now)
  {
    tape.lastSentTimeSecs := ToUint32(now);
    if success {
      tape.tapeConnected := true;
      tape.retryCount := 0;
      tape.backOffSecs := 0;
    } else {
      tape.tapeConnected := false;
      tape.retryCount := tape.retryCount + 1;
      tape.backOffSecs := Min(BACKOFF_CAP_SECS, tape.retryCount * BACKOFF_STEP_SECS);
    }
  }

  /** The worker's wait predicate: some entry is marked found. */
  method TapeFoundInList(cfg: BleConnectConfig) returns (anyFound: bool)
    ensures anyFound <==> exists k :: k in cfg.tapeList && cfg.tapeList[k].tapeFound
  {
    var remaining := cfg.tapeList.Keys;
    while remaining != {}
      invariant remaining <= cfg.tapeList.Keys
      invariant forall k :: k in cfg.tapeList && k !in remaining ==> !cfg.tapeList[k].tapeFound
      decreases |remaining|
    {
      var k :| k in remaining;
      if cfg.tapeList[k].tapeFound {
        return true;
      }
      remaining := remaining - {k};
    }
    return false;
  }

  /**
   * The loop body of the worker for the entry under `key`: that entry takes
   * one worker step, every other entry is left as it was.
   */
  method VisitTape(cfg: BleConnectConfig, key: string, ret: int, now: int)
    requires cfg.Valid() && key in cfg.tapeList
    modifies cfg.tapeList[key]
    ensures cfg.Valid()
    ensures cfg.tapeList[key].State() == WorkerStep(old(cfg.tapeList[key].State()), ret, now)
    ensures forall k :: k in cfg.tapeList && k != key ==> cfg.tapeList[k].State() == old(cfg.tapeList[k].State())
  {
    var tapeCfg := cfg.tapeList[key];
    if tapeCfg.tapeFound {
      tapeCfg.tapeFound := false;
      var isTapeConnected := ConnectSucceededAsWritten(ret);
      UpdateTapeConnectionStatus(tapeCfg, isTapeConnected, now);
    }
  }

  /**
   * One pass of `bleConnectThreadFunc`'s loop over the registry: every found
   * entry is cleared and updated once with the outcome of its own attempt
   * (`attempt(k)`, stamped at `clock(k)`); the others stay as they were.
   */
  method ConnectWorkerPass(cfg: BleConnectConfig, attempt: string -> int, clock: string -> int)
    requires cfg.Valid()
    modifies cfg.tapeList.Values
    ensures cfg.Valid()
    ensures forall k :: k in cfg.tapeList ==>
      cfg.tapeList[k].State() == WorkerStep(old(cfg.tapeList[k].State()), attempt(k), clock(k))
    ensures forall k :: k in cfg.tapeList ==> !cfg.tapeList[k].tapeFound
    ensures forall k :: k in cfg.tapeList && old(cfg.tapeList[k].tapeFound) && attempt(k) == -1 ==>
      cfg.tapeList[k].tapeConnected && cfg.tapeList[k].retryCount == 0 && cfg.tapeList[k].backOffSecs == 0
  {
    var remaining := cfg.tapeList.Keys;
    while remaining != {}
      invariant remaining <= cfg.tapeList.Keys
      invariant cfg.Valid()
      invariant forall k :: k in cfg.tapeList && k !in remaining ==>
        cfg.tapeList[k].State() == WorkerStep(old(cfg.tapeList[k].State()), attempt(k), clock(k))
      invariant forall k :: k in remaining ==> cfg.tapeList[k].State() == old(cfg.tapeList[k].State())
      decreases |remaining|
    {
      var tapeMacAddr :| tapeMacAddr in remaining;
      VisitTape(cfg, tapeMacAddr, attempt(tapeMacAddr), clock(tapeMacAddr));
      remaining := remaining - {tapeMacAddr};
    }
  }
}
