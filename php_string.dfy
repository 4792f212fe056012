/** The few PHP string built-ins that UrlScript relies on, stated over
    Dafny strings: the truthiness test behind `?:`, `strrpos` with a
    one-character needle, and `substr` with non-negative arguments. */
module PhpString {

  datatype Option<+T> = None | Some(value: T)

  function Min(a: int, b: int): int
  {
    if a <= b then a else b
  }

  /** PHP's boolean conversion of a string: only "" and "0" are falsy.
      Each `char` of a string stands for one byte of the PHP string. */
  predicate Truthy(s: string)
    ensures !Truthy(s) <==> |s| == 0 || (|s| == 1 && s[0] == '0')
  {
    s != "" && s != "0"
  }

  /** `strrpos(s, c)`: the index of the last occurrence of `c` in `s`,
      or None where PHP returns FALSE. */
  function StrRPos(s: string, c: char): (r: Option<nat>)
    ensures r.None? <==> c !in s
    ensures r.Some? ==> r.value < |s| && s[r.value] == c && c !in s[r.value + 1..]
  {
    if s == [] then None
    else if s[|s| - 1] == c then Some(|s| - 1)
    else
      var r := StrRPos(s[..|s| - 1], c);
      assert s == s[..|s| - 1] + [s[|s| - 1]];
      r
  }

  /** The last occurrence is the only index that holds `c` with no `c`
      after it, so any such index is the one `StrRPos` reports. */
  lemma StrRPosUnique(s: string, c: char, pos: nat)
    requires pos < |s| && s[pos] == c && c !in s[pos + 1..]
    ensures StrRPos(s, c) == Some(pos)
  {
  }

  /** `substr(s, start)` for `start >= 0`: the suffix of `s` from
      `start`, and "" once `start` reaches or passes the end. */
  function SubstrFrom(s: string, start: nat): (r: string)
    ensures start <= |s| ==> s[..start] + r == s
    ensures start >= |s| ==> r == ""
  {
    if start <= |s| then s[start..] else ""
  }

  /** `substr(s, 0, len)` for `len >= 0`: the first `len` characters of
      `s`, or all of `s` when it is shorter. */
  function SubstrPrefix(s: string, len: nat): (r: string)
    ensures r <= s
    ensures |r| == Min(len, |s|)
  {
    if len <= |s| then s[..len] else s
  }
}
