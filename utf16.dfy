/**
 Java strings as the detector sees them: sequences of UTF-16 code units.
 A character outside the Basic Multilingual Plane is held as a surrogate
 pair, two code units, and the edit distance counts each unit separately.
 */
module Utf16 {
  import opened Levenshtein

  /** A UTF-16 code unit, the element of a Java string. */
  newtype CodeUnit = c: int | 0 <= c < 0x1_0000

  /** Whether every character of `s` is a single code unit. */
  predicate InBmp(s: string) {
    forall i :: 0 <= i < |s| ==> s[i] as int < 0x1_0000
  }

  /**
   The code units of one character: itself when it lies in the Basic
   Multilingual Plane, otherwise its high and its low surrogate.
   */
  function UnitsOf(c: char): (u: seq<CodeUnit>)
    ensures 1 <= |u| <= 2
    ensures |u| == 1 <==> c as int < 0x1_0000
    ensures |u| == 1 ==> u[0] as int == c as int
    ensures |u| == 2 ==> 0xD800 <= u[0] as int < 0xDC00 <= u[1] as int < 0xE000
    ensures |u| == 2 ==> (u[0] as int - 0xD800) * 0x400 + (u[1] as int - 0xDC00) + 0x1_0000 == c as int
  {
    var n := c as int;
    if n < 0x1_0000 then [n as CodeUnit]
    else
      var m := n - 0x1_0000;
      [(0xD800 + m / 0x400) as CodeUnit, (0xDC00 + m % 0x400) as CodeUnit]
  }

  /** The UTF-16 encoding of `s`, character by character. */
  function Encode(s: string): (u: seq<CodeUnit>)
    ensures |s| <= |u| <= 2 * |s|
    ensures |u| == |s| <==> InBmp(s)
  {
    if s == [] then [] else UnitsOf(s[0]) + Encode(s[1..])
  }

  /** In the Basic Multilingual Plane each character is the code unit with its value. */
  lemma {:induction false} EncodeBmp(s: string)
    requires InBmp(s)
    ensures |Encode(s)| == |s|
    ensures forall i :: 0 <= i < |s| ==> Encode(s)[i] as int == s[i] as int
  {
    if s != [] {
      assert InBmp(s[1..]) by {
        forall i | 0 <= i < |s[1..]|
          ensures s[1..][i] as int < 0x1_0000
        {
          assert s[1..][i] == s[i + 1];
        }
      }
      EncodeBmp(s[1..]);
    }
  }

  /**
   On Basic Multilingual Plane text, counting code units and counting
   characters give the same distance.
   */
  lemma {:induction false} BmpDistance(s: string, t: string)
    requires InBmp(s) && InBmp(t)
    ensures Distance(Encode(s), Encode(t)) == Distance(s, t)
    decreases |s| + |t|
  {
    EncodeBmp(s);
    EncodeBmp(t);
    if |s| > 0 && |t| > 0 {
      assert InBmp(s[1..]) && InBmp(t[1..]) by {
        forall i | 0 <= i < |s[1..]|
          ensures s[1..][i] as int < 0x1_0000
        {
          assert s[1..][i] == s[i + 1];
        }
        forall i | 0 <= i < |t[1..]|
          ensures t[1..][i] as int < 0x1_0000
        {
          assert t[1..][i] == t[i + 1];
        }
      }
      BmpDistance(s[1..], t);
      BmpDistance(s, t[1..]);
      BmpDistance(s[1..], t[1..]);
      assert Encode(s)[1..] == Encode(s[1..]);
      assert Encode(t)[1..] == Encode(t[1..]);
      assert Cost(Encode(s)[0], Encode(t)[0]) == Cost(s[0], t[0]) by {
        assert Encode(s)[0] as int == s[0] as int;
        assert Encode(t)[0] as int == t[0] as int;
      }
    }
  }
}
