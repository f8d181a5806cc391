/** C strings and the order that `strcmp` puts on them. */
module CStrings {
  import opened Bytes

  /** The characters of a C string, without the terminating NUL. */
  type CStr = s: seq<byte> | 0 !in s

  /** The octet at the head of the string in memory: its first character, or the terminator. */
  function Head(s: CStr): (b: byte)
    ensures b == 0 <==> s == []
  {
    if s == [] then 0 else s[0]
  }

  function Tail(s: CStr): (r: CStr)
    requires s != []
    ensures s == [Head(s)] + r
  {
    s[1..]
  }

  /** `strcmp`: walk both strings while the octets agree and are not the terminator. */
  function StrCmp(s: CStr, t: CStr): (r: int)
    decreases |s|
  {
    if Head(s) < Head(t) then -1
    else if Head(s) > Head(t) then 1
    else if Head(s) == 0 then 0
    else StrCmp(Tail(s), Tail(t))
  }

  /** Equal to zero exactly on equal strings. */
  lemma {:induction false} StrCmpZero(s: CStr, t: CStr)
    ensures StrCmp(s, t) == 0 <==> s == t
    decreases |s|
  {
    if Head(s) == Head(t) != 0 {
      StrCmpZero(Tail(s), Tail(t));
      assert s == t <==> Tail(s) == Tail(t);
    }
  }

  lemma {:induction false} StrCmpAntisymmetric(s: CStr, t: CStr)
    ensures StrCmp(s, t) == -StrCmp(t, s)
    decreases |s|
  {
    if Head(s) == Head(t) != 0 {
      StrCmpAntisymmetric(Tail(s), Tail(t));
    }
  }

  lemma {:induction false} StrCmpTransitive(s: CStr, t: CStr, u: CStr)
    requires StrCmp(s, t) < 0 && StrCmp(t, u) < 0
    ensures StrCmp(s, u) < 0
    decreases |s|
  {
    if Head(s) == Head(t) == Head(u) != 0 {
      StrCmpTransitive(Tail(s), Tail(t), Tail(u));
    }
  }

  /** The first octets that differ decide, as numbers; a string comes before its extensions. */
  lemma {:induction false} FirstDifference(p: CStr, s: CStr, t: CStr)
    requires Head(s) != Head(t)
    ensures StrCmp(p + s, p + t) < 0 <==> s == [] || (t != [] && s[0] < t[0])
    ensures StrCmp(p + s, p + t) > 0 <==> t == [] || (s != [] && t[0] < s[0])
    decreases |p|
  {
    if p == [] {
      assert p + s == s && p + t == t;
    } else {
      FirstDifference(Tail(p), s, t);
      assert Tail(p + s) == Tail(p) + s && Tail(p + t) == Tail(p) + t;
    }
  }

  /** `s` sorts strictly before `t`. */
  predicate Below(s: CStr, t: CStr) {
    StrCmp(s, t) < 0
  }

  /** strcmp is a strict total order: for any two strings exactly one of "below", "equal" and "above"
      holds, "below" composes, and each of the three is what the sign of strcmp reports. */
  lemma {:induction false} StrCmpTotalOrder(s: CStr, t: CStr, u: CStr)
    ensures StrCmp(s, t) == 0 <==> s == t
    ensures StrCmp(s, t) > 0 <==> Below(t, s)
    ensures !(Below(s, t) && Below(t, s))
    ensures Below(s, t) || s == t || Below(t, s)
    ensures Below(s, t) && Below(t, u) ==> Below(s, u)
  {
    StrCmpZero(s, t);
    StrCmpAntisymmetric(s, t);
    if Below(s, t) && Below(t, u) {
      StrCmpTransitive(s, t, u);
    }
  }
}
