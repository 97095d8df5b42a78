/**
 * MAC-address text handling and the connectable-tape registry
 * (inc/config.h, src/config.cpp).
 */
module Config {
  import opened Common
  import opened CString

  /** `isxdigit` in the C locale. */
  predicate IsHexDigit(c: char) {
    '0' <= c <= '9' || 'a' <= c <= 'f' || 'A' <= c <= 'F'
  }

  /** `toupper` in the C locale. */
  function ToUpper(c: char): (u: char)
    ensures 'a' <= c <= 'z' ==> u as int == c as int - 32
    ensures !('a' <= c <= 'z') ==> u == c
    ensures IsHexDigit(u) <==> IsHexDigit(c)
    ensures !('a' <= u <= 'f')
  {
    if 'a' <= c <= 'z' then (c as int - 32) as char else c
  }

  /* ---------------- Validators (inc/config.h) ---------------- */

  /** Position `i` of a colon-formatted address: a colon every third character, hex digits elsewhere. */
  predicate FormattedCharAt(mac: string, i: nat)
    requires i < |mac|
  {
    if i % 3 == 2 then mac[i] == ':' else IsHexDigit(mac[i])
  }

  /** The validation loop of `isFormattedMacAddr` from position `i` on; it stops at the first bad character. */
  function FormattedFrom(mac: string, i: nat): (ok: bool)
    requires i <= |mac|
    ensures ok <==> forall j :: i <= j < |mac| ==> FormattedCharAt(mac, j)
    decreases |mac| - i
  {
    i == |mac| || (FormattedCharAt(mac, i) && FormattedFrom(mac, i + 1))
  }

  /** `isFormattedMacAddr`: "XX:XX:XX:XX:XX:XX" with hex digits of either case. */
  function IsFormattedMacAddr(mac: string): (ok: bool)
    ensures ok <==> |mac| == 17 && forall i :: 0 <= i < 17 ==> FormattedCharAt(mac, i)
  {
    |mac| == 17 && FormattedFrom(mac, 0)
  }

  /** The loop of `isRawMacAddress` from position `i` on. */
  function HexFrom(mac: string, i: nat): (ok: bool)
    requires i <= |mac|
    ensures ok <==> forall j :: i <= j < |mac| ==> IsHexDigit(mac[j])
    decreases |mac| - i
  {
    i == |mac| || (IsHexDigit(mac[i]) && HexFrom(mac, i + 1))
  }

  /** `isRawMacAddress`: exactly twelve hex digits. */
  function IsRawMacAddress(mac: string): (ok: bool)
    ensures ok <==> |mac| == 12 && forall i :: 0 <= i < 12 ==> IsHexDigit(mac[i])
  {
    |mac| == 12 && HexFrom(mac, 0)
  }

  /* ---------------- Normaliser (inc/config.h) ---------------- */

  /**
   * The text the formatting loop has built after `p` rounds: pairs 0 to
   * p - 1 of `s`, each of the first five followed by a colon.
   */
  function PairsWithColons(s: string, p: nat): string
    requires 2 * p <= |s| && p <= 6
  {
    if p == 0 then ""
    else PairsWithColons(s, p - 1) + s[2 * (p - 1)..2 * p] + (if p - 1 < 5 then ":" else "")
  }

  /** Every character of the built text, by position: a colon every third place, else the matching digit. */
  lemma {:induction false} PairsWithColonsShape(s: string, p: nat)
    requires 2 * p <= |s| && p <= 6
    ensures |PairsWithColons(s, p)| == if p == 6 then 17 else 3 * p
    ensures forall j :: 0 <= j < |PairsWithColons(s, p)| ==>
      PairsWithColons(s, p)[j] == if j % 3 == 2 then ':' else s[2 * (j / 3) + j % 3]
  {
    if p > 0 {
      PairsWithColonsShape(s, p - 1);
      var prev := PairsWithColons(s, p - 1);
      var r := PairsWithColons(s, p);
      var b := 3 * (p - 1);
      assert r == prev + s[2 * (p - 1)..2 * p] + (if p - 1 < 5 then ":" else "");
      forall j | 0 <= j < |r|
        ensures r[j] == if j % 3 == 2 then ':' else s[2 * (j / 3) + j % 3]
      {
        if j >= b {
          var t := j - b;
          assert j / 3 == p - 1 && j % 3 == t;
        }
      }
    }
  }

  /** One formatting round adds a colon-free pair and perhaps a colon; stripping keeps just the pair. */
  lemma StripRound(prev: string, pair: string, tail: string)
    requires ':' !in pair
    requires tail == "" || tail == ":"
    ensures RemoveChar(prev + pair + tail, ':') == RemoveChar(prev, ':') + pair
  {
    RemoveCharAppend(prev + pair, tail, ':');
    RemoveCharAppend(prev, pair, ':');
    RemoveCharAbsent(pair, ':');
    assert RemoveChar(tail, ':') == [] by {
      if tail != [] {
        assert tail[..|tail| - 1] == [];
      }
    }
  }

  /** Stripping the colons from the built text gives back the digits consumed so far. */
  lemma {:induction false} PairsWithColonsStrip(s: string, p: nat)
    requires 2 * p <= |s| && p <= 6
    requires ':' !in s
    ensures RemoveChar(PairsWithColons(s, p), ':') == s[..2 * p]
  {
    if p > 0 {
      var pair := s[2 * (p - 1)..2 * p];
      PairsWithColonsStrip(s, p - 1);
      assert ':' !in pair by {
        forall i | 0 <= i < |pair|
          ensures pair[i] != ':'
        {
          assert pair[i] == s[2 * (p - 1) + i];
        }
      }
      StripRound(PairsWithColons(s, p - 1), pair, if p - 1 < 5 then ":" else "");
      assert s[..2 * p] == s[..2 * (p - 1)] + pair;
    }
  }

  /** What `formatMacAddrStr` leaves in its argument. */
  function NormalizeMac(s: string): string {
    if IsFormattedMacAddr(s) then s
    else if IsRawMacAddress(s) then PairsWithColons(s, 6)
    else ""
  }

  /** A raw address becomes its six pairs joined by colons: formatted, case kept, and the colons strip back off. */
  lemma NormalizeMacRaw(s: string)
    requires IsRawMacAddress(s)
    ensures IsFormattedMacAddr(NormalizeMac(s))
    ensures forall j :: 0 <= j < 17 && j % 3 != 2 ==> NormalizeMac(s)[j] == s[2 * (j / 3) + j % 3]
    ensures RemoveChar(NormalizeMac(s), ':') == s
  {
    PairsWithColonsShape(s, 6);
    var r := PairsWithColons(s, 6);
    assert !IsFormattedMacAddr(s);
    forall i | 0 <= i < 17
      ensures FormattedCharAt(r, i)
    {
      if i % 3 != 2 {
        assert IsHexDigit(s[2 * (i / 3) + i % 3]);
      }
    }
    assert ':' !in s by { assert forall i :: 0 <= i < |s| ==> IsHexDigit(s[i]); }
    PairsWithColonsStrip(s, 6);
    assert s[..12] == s;
  }

  /** The normaliser yields a formatted address or nothing. */
  lemma NormalizeMacResult(s: string)
    ensures IsFormattedMacAddr(NormalizeMac(s)) || NormalizeMac(s) == ""
    ensures IsFormattedMacAddr(s) ==> NormalizeMac(s) == s
  {
    if !IsFormattedMacAddr(s) && IsRawMacAddress(s) {
      NormalizeMacRaw(s);
    }
  }

  lemma NormalizeMacIdempotent(s: string)
    ensures NormalizeMac(NormalizeMac(s)) == NormalizeMac(s)
  {
    NormalizeMacResult(s);
  }

  /**
   * `formatMacAddrStr`: keeps a formatted address, joins the pairs of a raw
   * one with colons, and clears anything else.
   */
  method FormatMacAddrStr(macStr: string) returns (formattedStr: string)
    ensures formattedStr == NormalizeMac(macStr)
  {
    if IsFormattedMacAddr(macStr) {
      return macStr;
    }
    if IsRawMacAddress(macStr) {
      var formatted := "";
      var i := 0;
      while i < 12
        invariant 0 <= i <= 12 && i % 2 == 0
        invariant formatted == PairsWithColons(macStr, i / 2)
      {
        formatted := formatted + macStr[i..i + 2];
        if i < 10 {
          formatted := formatted + ":";
        }
        i := i + 2;
      }
      return formatted;
    }
    return "";
  }

  /* ---------------- formatMacAddress (src/config.cpp) ---------------- */

  /** The character at `k` of a C string held in a buffer: its terminator, and beyond, read as NUL. */
  function CharAt(mac: string, k: nat): char {
    if k < |mac| then mac[k] else '\0'
  }

  /** The first twelve characters, uppercased. */
  function UpperFirst12(mac: string): (u: string)
    ensures |u| == 12
    ensures forall k :: 0 <= k < 12 ==> u[k] == ToUpper(CharAt(mac, k))
  {
    seq(12, k requires 0 <= k < 12 => ToUpper(CharAt(mac, k)))
  }

  /**
   * `formatMacAddress`: uppercases twelve hex digits into six colon-joined
   * pairs; a non-hex character among the first twelve (a short string
   * reaches its terminator first) is the fatal `exit(EXIT_FAILURE)`, here
   * `None`.
   */
  method FormatMacAddress(mac: string) returns (r: Option<string>)
    ensures r.Some? <==> |mac| >= 12 && forall k :: 0 <= k < 12 ==> IsHexDigit(mac[k])
    ensures r.Some? ==> r.value == PairsWithColons(UpperFirst12(mac), 6)
  {
    var formattedMac := "";
    var i := 0;
    while i < 12
      invariant 0 <= i <= 12 && i % 2 == 0
      invariant forall k :: 0 <= k < i ==> IsHexDigit(CharAt(mac, k))
      invariant formattedMac == PairsWithColons(UpperFirst12(mac), i / 2)
    {
      var byte0 := ToUpper(CharAt(mac, i));
      var byte1 := ToUpper(CharAt(mac, i + 1));
      if IsHexDigit(byte0) && IsHexDigit(byte1) {
        assert [byte0, byte1] == UpperFirst12(mac)[i..i + 2];
        formattedMac := formattedMac + [byte0, byte1];
      } else {
        assert !IsHexDigit(CharAt(mac, i)) || !IsHexDigit(CharAt(mac, i + 1));
        return None;
      }
      if i < 10 {
        formattedMac := formattedMac + ":";
      }
      i := i + 2;
    }
    assert |mac| >= 12 by {
      assert !IsHexDigit(CharAt(mac, |mac|));
    }
    assert forall k :: 0 <= k < 12 ==> CharAt(mac, k) == mac[k];
    return Some(formattedMac);
  }

  /** The successful result is a formatted, uppercase address whose digits are the uppercased input. */
  lemma FormatMacAddressShape(mac: string)
    requires |mac| >= 12 && forall k :: 0 <= k < 12 ==> IsHexDigit(mac[k])
    ensures var r := PairsWithColons(UpperFirst12(mac), 6);
      IsFormattedMacAddr(r) &&
      (forall j :: 0 <= j < 17 ==> !('a' <= r[j] <= 'f')) &&
      RemoveChar(r, ':') == UpperFirst12(mac)
  {
    var u := UpperFirst12(mac);
    assert IsRawMacAddress(u);
    NormalizeMacRaw(u);
    assert !IsFormattedMacAddr(u);
    PairsWithColonsShape(u, 6);
  }

  /* ---------------- The registry (inc/config.h, src/config.cpp) ---------------- */

  /** The fields of one registry entry, as a value. */
  datatype TapeState = TapeState(
    macAddr: string, lastSentTimeSecs: uint32, tapeFound: bool,
    tapeConnected: bool, retryCount: int, backOffSecs: int)

  /** `tapeConfig`: one connectable tape and its connection bookkeeping. */
  class TapeConfig {
    var macAddr: string
    var lastSentTimeSecs: uint32
    var tapeFound: bool
    var tapeConnected: bool
    var retryCount: int
    var backOffSecs: int

    function State(): TapeState
      reads this
    {
      TapeState(macAddr, lastSentTimeSecs, tapeFound, tapeConnected, retryCount, backOffSecs)
    }

    /** The default constructor: every member at its initialiser. */
    constructor Default()
      ensures State() == TapeState("", 0, false, false, 0, 0)
    {
      macAddr := "";
      lastSentTimeSecs := 0;
      tapeFound := false;
      tapeConnected := false;
      retryCount := 0;
      backOffSecs := 0;
    }

    /** The parameterised constructor stores its six arguments. */
    constructor (addr: string, time: uint32, found: bool, connected: bool, rCount: int, bSecs: int)
      ensures State() == TapeState(addr, time, found, connected, rCount, bSecs)
    {
      macAddr := addr;
      lastSentTimeSecs := time;
      tapeFound := found;
      tapeConnected := connected;
      retryCount := rCount;
      backOffSecs := bSecs;
    }
  }

  /** The key an allow-list element contributes: its normalised text, unless that is empty. */
  function KeyOf(elem: Option<string>): set<string> {
    match elem
    case None => {}
    case Some(s) => if NormalizeMac(s) == "" then {} else {NormalizeMac(s)}
  }

  /** The keys the registry build stores for an allow-list. */
  function NormalizedKeys(allowList: seq<Option<string>>): set<string>
    decreases |allowList|
  {
    if allowList == [] then {}
    else NormalizedKeys(allowList[..|allowList| - 1]) + KeyOf(allowList[|allowList| - 1])
  }

  lemma NormalizedKeysStep(allowList: seq<Option<string>>, i: nat)
    requires i < |allowList|
    ensures NormalizedKeys(allowList[..i + 1]) == NormalizedKeys(allowList[..i]) + KeyOf(allowList[i])
  {
    assert allowList[..i + 1][..i] == allowList[..i];
  }

  /** Every stored key is a formatted address, and duplicates collapse: no more keys than elements. */
  lemma {:induction false} NormalizedKeysProperties(allowList: seq<Option<string>>)
    ensures forall k :: k in NormalizedKeys(allowList) ==> IsFormattedMacAddr(k)
    ensures |NormalizedKeys(allowList)| <= |allowList|
    decreases |allowList|
  {
    if allowList != [] {
      var init := allowList[..|allowList| - 1];
      NormalizedKeysProperties(init);
      var last := allowList[|allowList| - 1];
      if last.Some? {
        NormalizeMacResult(last.value);
      }
      assert |KeyOf(last)| <= 1;
    }
  }

  /** `bleConnectConfig`: the registry of connectable tapes, keyed by formatted address. */
  class BleConnectConfig {
    var totalConnectableTapes: int
    var readTapeAgainDelaySecs: int
    var gwBleMacId: string
    var tapeList: map<string, TapeConfig>

    /** Each entry is stored under its own formatted address and owns its record. */
    ghost predicate Valid()
      reads this, tapeList.Values
    {
      (forall k :: k in tapeList ==> tapeList[k].macAddr == k && IsFormattedMacAddr(k)) &&
      (forall k1, k2 :: k1 in tapeList && k2 in tapeList && k1 != k2 ==> tapeList[k1] != tapeList[k2])
    }

    constructor ()
      ensures Valid() && tapeList == map[]
      ensures totalConnectableTapes == 0 && readTapeAgainDelaySecs == 0 && gwBleMacId == ""
    {
      totalConnectableTapes := 0;
      readTapeAgainDelaySecs := 0;
      gwBleMacId := "";
      tapeList := map[];
    }

    /** `tapeList[macAddr] = make_unique<tapeConfig>(macAddr, 0, false, false, 0, 0)`. */
    method StoreTape(macAddr: string)
      requires Valid() && IsFormattedMacAddr(macAddr)
      modifies this
      ensures Valid()
      ensures totalConnectableTapes == old(totalConnectableTapes)
      ensures readTapeAgainDelaySecs == old(readTapeAgainDelaySecs) && gwBleMacId == old(gwBleMacId)
      ensures macAddr in tapeList && fresh(tapeList[macAddr])
      ensures tapeList == old(tapeList)[macAddr := tapeList[macAddr]]
      ensures tapeList[macAddr].State() == TapeState(macAddr, 0, false, false, 0, 0)
    {
      var entry := new TapeConfig(macAddr, 0, false, false, 0, 0);
      tapeList := tapeList[macAddr := entry];
    }

    /**
     * One element of the allow-list loop of `readSysConfigFile`: a string is
     * normalised and, unless that leaves it empty, stored; anything else is
     * skipped.
     */
    method AddAllowListEntry(connectableMac: Option<string>)
      requires Valid()
      modifies this
      ensures Valid()
      ensures totalConnectableTapes == old(totalConnectableTapes)
      ensures readTapeAgainDelaySecs == old(readTapeAgainDelaySecs) && gwBleMacId == old(gwBleMacId)
      ensures tapeList.Keys == old(tapeList).Keys + KeyOf(connectableMac)
      ensures forall k :: k in KeyOf(connectableMac) ==>
        fresh(tapeList[k]) && tapeList[k].State() == TapeState(k, 0, false, false, 0, 0)
      ensures forall k :: k in tapeList && k !in KeyOf(connectableMac) ==> tapeList[k] == old(tapeList)[k]
    {
      if connectableMac.Some? {
        var macAddr := FormatMacAddrStr(connectableMac.value);
        if macAddr != "" {
          NormalizeMacResult(connectableMac.value);
          StoreTape(macAddr);
        }
      }
    }

    /**
     * The allow-list loop of `readSysConfigFile`: each string element is
     * normalised; an empty result is skipped, any other gets a fresh entry
     * with every counter zero and every flag false.  A non-string element
     * (`None`) is skipped.
     */
    method BuildTapeList(allowList: seq<Option<string>>)
      requires Valid()
      modifies this
      ensures Valid()
      ensures totalConnectableTapes == |allowList|
      ensures readTapeAgainDelaySecs == old(readTapeAgainDelaySecs) && gwBleMacId == old(gwBleMacId)
      ensures tapeList.Keys == old(tapeList).Keys + NormalizedKeys(allowList)
      ensures forall k :: k in NormalizedKeys(allowList) ==>
        fresh(tapeList[k]) && tapeList[k].State() == TapeState(k, 0, false, false, 0, 0)
      ensures forall k :: k in tapeList && k !in NormalizedKeys(allowList) ==> tapeList[k] == old(tapeList)[k]
    {
      totalConnectableTapes := |allowList|;
      var i := 0;
      while i < |allowList|
        invariant 0 <= i <= |allowList|
        invariant Valid()
        invariant totalConnectableTapes == |allowList|
        invariant readTapeAgainDelaySecs == old(readTapeAgainDelaySecs) && gwBleMacId == old(gwBleMacId)
        invariant tapeList.Keys == old(tapeList).Keys + NormalizedKeys(allowList[..i])
        invariant forall k :: k in NormalizedKeys(allowList[..i]) ==>
          fresh(tapeList[k]) && tapeList[k].State() == TapeState(k, 0, false, false, 0, 0)
        invariant forall k :: k in tapeList && k !in NormalizedKeys(allowList[..i]) ==> tapeList[k] == old(tapeList)[k]
      {
        NormalizedKeysStep(allowList, i);
        AddAllowListEntry(allowList[i]);
        i := i + 1;
      }
      assert allowList[..i] == allowList;
    }
  }
}
