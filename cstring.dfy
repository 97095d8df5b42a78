/**
 * NUL-terminated character buffers and the character-removal helper that the
 * scan loop and the decoder both use to turn "E8:97:D6:28:F9:80" into
 * "E897D628F980".
 */
module CString {

  /** A C string's contents: no terminator inside. */
  predicate NoNul(s: string) {
    forall i :: 0 <= i < |s| ==> s[i] != '\0'
  }

  /** `strlen`: the index of the first NUL. */
  function StrLen(a: seq<char>): (n: nat)
    requires '\0' in a
    ensures n < |a| && a[n] == '\0'
    ensures forall i :: 0 <= i < n ==> a[i] != '\0'
  {
    if a[0] == '\0' then 0 else 1 + StrLen(a[1..])
  }

  /** The C string held by a buffer: everything before the first NUL. */
  function CStr(a: seq<char>): (s: string)
    requires '\0' in a
    ensures NoNul(s) && s == a[..StrLen(a)]
  {
    a[..StrLen(a)]
  }

  /** What `strncat` copies from `src`: at most `n` characters, stopping at a NUL. */
  function NCStr(src: seq<char>, n: nat): (s: string)
    ensures NoNul(s) && |s| <= n && |s| <= |src|
    ensures s == src[..|s|]
    ensures |s| < n && |s| < |src| ==> src[|s|] == '\0'
  {
    if n == 0 || src == [] || src[0] == '\0' then [] else [src[0]] + NCStr(src[1..], n - 1)
  }

  /** Reference definition of the result of `removeChar`: every `c` dropped, the rest kept in order. */
  function RemoveChar(s: string, c: char): (r: string)
    ensures |r| <= |s|
    decreases |s|
  {
    if s == [] then []
    else RemoveChar(s[..|s| - 1], c) + (if s[|s| - 1] == c then [] else [s[|s| - 1]])
  }

  lemma {:induction false} RemoveCharAppend(a: string, b: string, c: char)
    ensures RemoveChar(a + b, c) == RemoveChar(a, c) + RemoveChar(b, c)
    decreases |b|
  {
    if b == [] {
      assert a + b == a;
    } else {
      var b' := b[..|b| - 1];
      assert (a + b)[..|a + b| - 1] == a + b';
      assert (a + b)[|a + b| - 1] == b[|b| - 1];
      RemoveCharAppend(a, b', c);
    }
  }

  /** Nothing but `c` is lost: every other character keeps its multiplicity, and `c` is gone. */
  lemma {:induction false} RemoveCharCounts(s: string, c: char)
    ensures c !in RemoveChar(s, c)
    ensures forall x :: x != c ==> multiset(RemoveChar(s, c))[x] == multiset(s)[x]
    decreases |s|
  {
    if s != [] {
      var s' := s[..|s| - 1];
      RemoveCharCounts(s', c);
      assert s == s' + [s[|s| - 1]];
      assert multiset(s) == multiset(s') + multiset{s[|s| - 1]};
    }
  }

  /** A string without `c` is left as it is. */
  lemma {:induction false} RemoveCharAbsent(s: string, c: char)
    requires c !in s
    ensures RemoveChar(s, c) == s
    decreases |s|
  {
    if s != [] {
      var s' := s[..|s| - 1];
      assert c !in s' by { assert forall i :: 0 <= i < |s'| ==> s'[i] == s[i]; }
      RemoveCharAbsent(s', c);
      assert s == s' + [s[|s| - 1]];
    }
  }

  lemma RemoveCharIdempotent(s: string, c: char)
    ensures RemoveChar(RemoveChar(s, c), c) == RemoveChar(s, c)
  {
    RemoveCharCounts(s, c);
    RemoveCharAbsent(RemoveChar(s, c), c);
  }

  lemma {:induction false} RemoveCharNoNul(s: string, c: char)
    requires NoNul(s)
    ensures NoNul(RemoveChar(s, c))
  {
    RemoveCharCounts(s, c);
    if c != '\0' {
      assert multiset(RemoveChar(s, c))['\0'] == multiset(s)['\0'];
      assert '\0' !in s;
    }
  }

  /**
   * `removeChar(str, target)`: the two-pointer loop that compacts the C string
   * in `str` in place.  Only the cells before the new terminator and the
   * terminator itself are written; every later cell keeps its old contents.
   */
  method RemoveCharInPlace(str: array<char>, target: char)
    requires '\0' in str[..]
    modifies str
    ensures var r := RemoveChar(CStr(old(str[..])), target);
      |r| < str.Length && str[..|r|] == r && str[|r|] == '\0' &&
      forall k :: |r| < k < str.Length ==> str[k] == old(str[k])
  {
    ghost var o := str[..];
    ghost var n := StrLen(o);
    ghost var s := o[..n];
    var src, dst := 0, 0;
    while str[src] != '\0'
      invariant 0 <= dst <= src <= n
      invariant forall k :: dst <= k < str.Length ==> str[k] == o[k]
      invariant str[..dst] == RemoveChar(s[..src], target)
      decreases n - src
    {
      var c := str[src];
      assert s[..src + 1][..src] == s[..src];
      assert s[..src + 1][src] == c;
      if c != target {
        str[dst] := c;
        dst := dst + 1;
      }
      src := src + 1;
    }
    assert s[..src] == s;
    str[dst] := '\0';
  }
}
