/** The string operations the market and holder code rely on. */
module Text {
  /** Unicode `White_Space`, the class that `str::trim` strips. */
  predicate IsWhitespace(c: char) {
    || '\U{0009}' <= c <= '\U{000D}'
    || c == '\U{0020}' || c == '\U{0085}' || c == '\U{00A0}' || c == '\U{1680}'
    || '\U{2000}' <= c <= '\U{200A}'
    || c == '\U{2028}' || c == '\U{2029}' || c == '\U{202F}' || c == '\U{205F}' || c == '\U{3000}'
  }

  function Trim(s: string): (r: string)
    decreases |s|
  {
    if s == "" then s
    else if IsWhitespace(s[0]) then Trim(s[1..])
    else if IsWhitespace(s[|s| - 1]) then Trim(s[..|s| - 1])
    else s
  }

  function LowerChar(c: char): (r: char) {
    if 'A' <= c <= 'Z' then (c as int + 32) as char else c
  }

  /** `to_ascii_lowercase`: only the 26 ASCII capitals move. */
  function AsciiLower(s: string): (r: string)
    ensures |r| == |s|
  {
    seq(|s|, i requires 0 <= i < |s| => LowerChar(s[i]))
  }

  predicate IsAsciiAlphanumeric(c: char) {
    'A' <= c <= 'Z' || 'a' <= c <= 'z' || '0' <= c <= '9'
  }

  /** What trimming keeps: everything but the white space around it. */
  lemma {:induction false} TrimKeeps(s: string) returns (i: nat, j: nat)
    ensures i <= j <= |s| && Trim(s) == s[i..j]
    ensures forall k :: 0 <= k < |s| && (k < i || k >= j) ==> IsWhitespace(s[k])
    ensures i < j ==> !IsWhitespace(s[i]) && !IsWhitespace(s[j - 1])
    decreases |s|
  {
    if s == "" {
      i, j := 0, 0;
    } else if IsWhitespace(s[0]) {
      i, j := TrimKeeps(s[1..]);
      assert s[1..][i..j] == s[i + 1..j + 1];
      assert forall k :: 1 <= k < |s| ==> s[k] == s[1..][k - 1];
      i, j := i + 1, j + 1;
    } else if IsWhitespace(s[|s| - 1]) {
      i, j := TrimKeeps(s[..|s| - 1]);
      assert s[..|s| - 1][i..j] == s[i..j];
      assert forall k :: 0 <= k < |s| - 1 ==> s[k] == s[..|s| - 1][k];
    } else {
      i, j := 0, |s|;
      assert s[0..|s|] == s;
    }
  }

  /** The same character, or one ASCII letter in two cases. */
  predicate SameLetter(x: char, y: char) {
    || x == y
    || ('A' <= x <= 'Z' && y as int == x as int + 32)
    || ('A' <= y <= 'Z' && x as int == y as int + 32)
  }

  lemma SameLowerChar(x: char, y: char)
    ensures LowerChar(x) == LowerChar(y) <==> SameLetter(x, y)
  {
    assert LowerChar(x) as int == if 'A' <= x <= 'Z' then x as int + 32 else x as int;
    assert LowerChar(y) as int == if 'A' <= y <= 'Z' then y as int + 32 else y as int;
  }

  /** Two strings lower to the same one exactly if they differ in the case of ASCII letters only. */
  lemma SameLowerIff(a: string, b: string)
    ensures AsciiLower(a) == AsciiLower(b) <==> |a| == |b| && forall i :: 0 <= i < |a| ==> SameLetter(a[i], b[i])
  {
    if |a| == |b| {
      forall i | 0 <= i < |a|
        ensures AsciiLower(a)[i] == AsciiLower(b)[i] <==> SameLetter(a[i], b[i])
      {
        SameLowerChar(a[i], b[i]);
      }
      if forall i :: 0 <= i < |a| ==> SameLetter(a[i], b[i]) {
        assert forall i :: 0 <= i < |a| ==> SameLetter(a[i], b[i]) && AsciiLower(a)[i] == AsciiLower(b)[i];
      }
    }
  }

  const CAPITALS: string := "ABCDEFGHIJKLMNOPQRSTUVWXYZ"
  const SMALLS: string := "abcdefghijklmnopqrstuvwxyz"
  const DIGITS: string := "0123456789"

  lemma CapitalAt(i: nat)
    requires i < 26
    ensures |CAPITALS| == 26 && CAPITALS[i] as int == 65 + i
  {
  }

  lemma SmallAt(i: nat)
    requires i < 26
    ensures |SMALLS| == 26 && SMALLS[i] as int == 97 + i
  {
  }

  lemma DigitAt(i: nat)
    requires i < 10
    ensures |DIGITS| == 10 && DIGITS[i] as int == 48 + i
  {
  }

  /** Letters and digits followed by `more`, by position. */
  lemma AlphanumericsAt(more: string, i: nat)
    requires i < 62 + |more|
    ensures var s := CAPITALS + SMALLS + DIGITS + more;
            && |s| == 62 + |more|
            && s[i] as int ==
               if i < 26 then 65 + i else if i < 52 then 71 + i else if i < 62 then i - 4 else more[i - 62] as int
  {
    if i < 26 {
      CapitalAt(i);
    } else if i < 52 {
      SmallAt(i - 26);
    } else if i < 62 {
      DigitAt(i - 52);
    }
  }
}
