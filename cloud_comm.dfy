/**
 * Length-checked URL assembly in a caller's character buffer
 * (src/cloudComm.cpp).  A buffer is an `array<char>` holding a C string;
 * `urlBuffLen` is the length the caller declares for it.  A null pointer is
 * `null` for the buffer and `None` for a string argument.
 */
module CloudComm {
  import opened Common
  import opened CString

  const MAX_URL_LEN: nat := 512
  const FACTORY_INSTANCE: string := "https://trksbxmanuf.azure-api.net/internal"
  const TURQUOISE_GW_ID: string := "124678807272"
  const URL_ALIVE: string := "/heartbeat"

  /** `buf` with `s` written from position `at` on, every other cell as it was. */
  function Splice(buf: seq<char>, at: nat, s: seq<char>): (r: seq<char>)
    requires at + |s| <= |buf|
    ensures |r| == |buf|
  {
    buf[..at] + s + buf[at + |s|..]
  }

  /** A buffer whose first NUL is at `n` holds the C string of length `n`. */
  lemma {:induction false} StrLenAt(a: seq<char>, n: nat)
    requires n < |a| && a[n] == '\0' && NoNul(a[..n])
    ensures '\0' in a && StrLen(a) == n
    decreases n
  {
    if n > 0 {
      assert a[0] == a[..n][0];
      assert a[1..][..n - 1] == a[..n][1..];
      StrLenAt(a[1..], n - 1);
    }
  }

  /** Writing a C string and its terminator at the start of a buffer makes it the buffer's C string. */
  lemma BaseUrlIsConcatenation(buf: seq<char>, instance: string, pageUrl: string)
    requires NoNul(instance) && NoNul(pageUrl)
    requires |instance| + |pageUrl| + 1 <= |buf|
    ensures var r := Splice(buf, 0, instance + pageUrl + ['\0']);
      '\0' in r && CStr(r) == instance + pageUrl && StrLen(r) < |buf|
  {
    TerminatedPrefix(buf, 0, instance + pageUrl);
  }

  /** Appending a C string at the terminator extends the buffer's C string by exactly it. */
  lemma AppendExtendsCStr(buf: seq<char>, d: string)
    requires '\0' in buf && NoNul(d)
    requires StrLen(buf) + |d| + 1 <= |buf|
    ensures var r := Splice(buf, StrLen(buf), d + ['\0']);
      '\0' in r && CStr(r) == CStr(buf) + d && StrLen(r) < |buf|
  {
    TerminatedPrefix(buf, StrLen(buf), d);
  }

  /**
   * Writing `s` and a terminator at `at`, after a NUL-free prefix, makes the
   * prefix followed by `s` the buffer's C string.
   */
  lemma TerminatedPrefix(buf: seq<char>, at: nat, s: string)
    requires at + |s| + 1 <= |buf| && NoNul(buf[..at]) && NoNul(s)
    ensures var r := Splice(buf, at, s + ['\0']);
      '\0' in r && CStr(r) == buf[..at] + s && StrLen(r) == at + |s|
  {
    var p := buf[..at] + s;
    var r := Splice(buf, at, s + ['\0']);
    assert r == p + ['\0'] + buf[at + |s| + 1..];
    assert r[..|p|] == p;
    StrLenAt(r, |p|);
  }

  /** Writes `s` into `buf` from position `at` on. */
  method CopyInto(buf: array<char>, at: nat, s: seq<char>)
    requires at + |s| <= buf.Length
    modifies buf
    ensures buf[..] == Splice(old(buf[..]), at, s)
  {
    var i := 0;
    while i < |s|
      invariant 0 <= i <= |s|
      invariant buf[..] == Splice(old(buf[..]), at, s[..i])
    {
      buf[at + i] := s[i];
      i := i + 1;
      assert s[..i] == s[..i - 1] + [s[i - 1]];
    }
    assert s[..i] == s;
  }

  /**
   * `createBaseUrlLink`: -1, with the buffer untouched, for a null argument
   * or when the two strings and a terminator do not fit; otherwise the
   * buffer holds `instance` followed by `pageUrl` and the result is 0.
   */
  method CreateBaseUrlLink(urlBuff: array?<char>, urlBuffLen: nat, instance: Option<string>, pageUrl: Option<string>)
    returns (ret: int)
    requires urlBuff != null ==> urlBuffLen <= urlBuff.Length
    requires instance.Some? ==> NoNul(instance.value)
    requires pageUrl.Some? ==> NoNul(pageUrl.value)
    modifies urlBuff
    ensures ret == 0 || ret == -1
    ensures ret == -1 <==> urlBuff == null || instance.None? || pageUrl.None? ||
                           |instance.value| + |pageUrl.value| + 1 > urlBuffLen
    ensures ret == -1 && urlBuff != null ==> urlBuff[..] == old(urlBuff[..])
    ensures ret == 0 ==>
      urlBuff[..] == Splice(old(urlBuff[..]), 0, instance.value + pageUrl.value + ['\0'])
  {
    if instance.None? || pageUrl.None? || urlBuff == null {
      return -1;
    }
    var len1 := |instance.value|;
    var len2 := |pageUrl.value|;
    if len1 + len2 + 1 > urlBuffLen {
      return -1;
    }
    CopyInto(urlBuff, 0, instance.value + ['\0']);
    CopyInto(urlBuff, len1, pageUrl.value + ['\0']);
    assert urlBuff[..] == Splice(old(urlBuff[..]), 0, instance.value + pageUrl.value + ['\0']);
    return 0;
  }

  /**
   * `addBleDataToBaseUrl`: -1, with the buffer untouched, for a null
   * argument or when the current string, `dataBuffLen` more characters and a
   * terminator do not fit; otherwise `strncat` appends the data, stopping
   * after `dataBuffLen` characters or at the data's own terminator.
   */
  method AddBleDataToBaseUrl(urlBuff: array?<char>, urlBuffLen: nat, dataBuff: Option<seq<char>>, dataBuffLen: nat)
    returns (ret: int)
    requires urlBuff != null ==> urlBuffLen <= urlBuff.Length && '\0' in urlBuff[..]
    modifies urlBuff
    ensures ret == 0 || ret == -1
    ensures ret == -1 <==> urlBuff == null || dataBuff.None? ||
                           StrLen(old(urlBuff[..])) + dataBuffLen + 1 > urlBuffLen
    ensures ret == -1 && urlBuff != null ==> urlBuff[..] == old(urlBuff[..])
    ensures ret == 0 ==>
      urlBuff[..] == Splice(old(urlBuff[..]), StrLen(old(urlBuff[..])), NCStr(dataBuff.value, dataBuffLen) + ['\0'])
  {
    if urlBuff == null || dataBuff.None? {
      return -1;
    }
    var len1 := StrLen(urlBuff[..]);
    if len1 + dataBuffLen + 1 > urlBuffLen {
      return -1;
    }
    CopyInto(urlBuff, len1, NCStr(dataBuff.value, dataBuffLen) + ['\0']);
    return 0;
  }

  /**
   * `createCloudDataUrl`: nothing happens for null or empty data; otherwise
   * the base URL is built and, if that worked, the data appended.
   */
  method CreateCloudDataUrl(urlBuff: array?<char>, urlBuffLen: nat, instance: Option<string>, pageUrl: Option<string>,
                            dataBuff: Option<seq<char>>, dataBuffLen: nat)
    requires urlBuff != null ==> urlBuffLen <= urlBuff.Length
    requires instance.Some? ==> NoNul(instance.value)
    requires pageUrl.Some? ==> NoNul(pageUrl.value)
    modifies urlBuff
    ensures dataBuff.None? || dataBuffLen == 0 || urlBuff == null || instance.None? || pageUrl.None? ||
            |instance.value| + |pageUrl.value| + 1 > urlBuffLen ==>
      urlBuff == null || urlBuff[..] == old(urlBuff[..])
    ensures dataBuff.Some? && dataBuffLen > 0 && urlBuff != null && instance.Some? && pageUrl.Some? &&
            |instance.value| + |pageUrl.value| + 1 <= urlBuffLen ==>
      var base := Splice(old(urlBuff[..]), 0, instance.value + pageUrl.value + ['\0']);
      var baseLen := |instance.value| + |pageUrl.value|;
      if baseLen + dataBuffLen + 1 > urlBuffLen then urlBuff[..] == base
      else urlBuff[..] == Splice(base, baseLen, NCStr(dataBuff.value, dataBuffLen) + ['\0'])
  {
    if dataBuff.None? || dataBuffLen == 0 {
      return;
    }
    var ret := CreateBaseUrlLink(urlBuff, urlBuffLen, instance, pageUrl);
    if ret != 0 {
      return;
    }
    BaseUrlIsConcatenation(old(urlBuff[..]), instance.value, pageUrl.value);
    ret := AddBleDataToBaseUrl(urlBuff, urlBuffLen, dataBuff, dataBuffLen);
  }

  /** The URL `sendDataUrlToCloud` builds for its data: the heartbeat link, then the data if it fits. */
  function CloudDataUrl(packetDataBuff: seq<char>, packetDataLen: nat): (url: string)
    ensures FACTORY_INSTANCE + URL_ALIVE <= url
    ensures |url| < MAX_URL_LEN
  {
    var base := FACTORY_INSTANCE + URL_ALIVE;
    if |base| + packetDataLen + 1 > MAX_URL_LEN then base else base + NCStr(packetDataBuff, packetDataLen)
  }

  /**
   * A C string of data whose declared length covers it (the caller passes
   * `strlen + 1`) is appended whole while the URL stays within 512
   * characters; a larger declared length drops the data altogether.
   */
  lemma CloudDataUrlCases(data: string, packetDataLen: nat)
    requires NoNul(data)
    ensures |data| <= packetDataLen <= MAX_URL_LEN - |FACTORY_INSTANCE + URL_ALIVE| - 1 ==>
      CloudDataUrl(data, packetDataLen) == FACTORY_INSTANCE + URL_ALIVE + data
    ensures packetDataLen > MAX_URL_LEN - |FACTORY_INSTANCE + URL_ALIVE| - 1 ==>
      CloudDataUrl(data, packetDataLen) == FACTORY_INSTANCE + URL_ALIVE
  {
  }

  /**
   * `sendDataUrlToCloud` up to its early return: -1 for null or empty
   * input; otherwise the URL is built in a zeroed 512-character buffer and
   * the result is 0 (the transfer after the early return is never reached).
   * `url` is the string the buffer holds.
   */
  method SendDataUrlToCloud(packetDataBuff: Option<seq<char>>, packetDataLen: nat) returns (ret: int, url: string)
    ensures packetDataBuff.None? || packetDataLen == 0 ==> ret == -1 && url == ""
    ensures packetDataBuff.Some? && packetDataLen > 0 ==>
      ret == 0 && url == CloudDataUrl(packetDataBuff.value, packetDataLen)
  {
    if packetDataBuff.None? || packetDataLen == 0 {
      return -1, "";
    }
    var urlBuff := new char[MAX_URL_LEN](_ => '\0');
    ghost var zeroed := urlBuff[..];
    CreateCloudDataUrl(urlBuff, MAX_URL_LEN, Some(FACTORY_INSTANCE), Some(URL_ALIVE), packetDataBuff, packetDataLen);
    var base := FACTORY_INSTANCE + URL_ALIVE;
    BaseUrlIsConcatenation(zeroed, FACTORY_INSTANCE, URL_ALIVE);
    var baseBuf := Splice(zeroed, 0, base + ['\0']);
    assert StrLen(baseBuf) == |base|;
    if |base| + packetDataLen + 1 <= MAX_URL_LEN {
      AppendExtendsCStr(baseBuf, NCStr(packetDataBuff.value, packetDataLen));
    }
    url := CStr(urlBuff[..]);
    return 0, url;
  }

  /** `getGwId`: the gateway's fixed twelve-digit identifier. */
  function GetGwId(): (gwId: string)
    ensures gwId == "124678807272"
    ensures |gwId| == 12 && forall i :: 0 <= i < 12 ==> '0' <= gwId[i] <= '9'
  {
    TURQUOISE_GW_ID
  }
}
