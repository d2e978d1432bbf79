/**
 * The string primitives the front end relies on, as JavaScript defines them:
 * `String.prototype.trim`, `startsWith` and `toUpperCase` (restricted to ASCII).
 */
module Text {

  /** The WhiteSpace and LineTerminator code points that `trim` removes. */
  predicate IsWhitespace(c: char) {
    var n := c as int;
    || n == 0x09 || n == 0x0A || n == 0x0B || n == 0x0C || n == 0x0D || n == 0x20
    || n == 0xA0 || n == 0x1680 || (0x2000 <= n <= 0x200A)
    || n == 0x2028 || n == 0x2029 || n == 0x202F || n == 0x205F || n == 0x3000 || n == 0xFEFF
  }

  /** True when some character of `s` is not whitespace. */
  predicate HasNonWhitespace(s: string) {
    exists i :: 0 <= i < |s| && !IsWhitespace(s[i])
  }

  function TrimStart(s: string): (r: string)
    ensures |r| <= |s| && r == s[|s| - |r|..]
    ensures r != [] ==> !IsWhitespace(r[0])
    ensures forall i :: 0 <= i < |s| - |r| ==> IsWhitespace(s[i])
  {
    if s != [] && IsWhitespace(s[0]) then TrimStart(s[1..]) else s
  }

  function TrimEnd(s: string): (r: string)
    ensures |r| <= |s| && r == s[..|r|]
    ensures r != [] ==> !IsWhitespace(r[|r| - 1])
    ensures forall i :: |r| <= i < |s| ==> IsWhitespace(s[i])
  {
    if s != [] && IsWhitespace(s[|s| - 1]) then TrimEnd(s[..|s| - 1]) else s
  }

  /** `s.trim()`: leading and trailing whitespace removed. */
  function Trim(s: string): (r: string)
    ensures |r| <= |TrimStart(s)| <= |s| && r == s[|s| - |TrimStart(s)|..][..|r|]
    ensures r != [] ==> !IsWhitespace(r[0]) && !IsWhitespace(r[|r| - 1])
    ensures forall i :: 0 <= i < |s| - |TrimStart(s)| ==> IsWhitespace(s[i])
    ensures forall i :: |s| - |TrimStart(s)| + |r| <= i < |s| ==> IsWhitespace(s[i])
  {
    var t := TrimStart(s);
    var r := TrimEnd(t);
    assert r != [] ==> r[0] == t[0];
    r
  }

  /** A leading whitespace character does not decide whether a string has a non-whitespace one. */
  lemma NonWhitespaceAfterHead(s: string)
    requires s != [] && IsWhitespace(s[0])
    ensures HasNonWhitespace(s) <==> HasNonWhitespace(s[1..])
  {
    if HasNonWhitespace(s) {
      var i :| 0 <= i < |s| && !IsWhitespace(s[i]);
      assert s[1..][i - 1] == s[i];
    }
    if HasNonWhitespace(s[1..]) {
      var i :| 0 <= i < |s[1..]| && !IsWhitespace(s[1..][i]);
      assert s[i + 1] == s[1..][i];
    }
  }

  /** A trailing whitespace character does not decide whether a string has a non-whitespace one. */
  lemma NonWhitespaceBeforeLast(s: string)
    requires s != [] && IsWhitespace(s[|s| - 1])
    ensures HasNonWhitespace(s) <==> HasNonWhitespace(s[..|s| - 1])
  {
    var front := s[..|s| - 1];
    if HasNonWhitespace(s) {
      var i :| 0 <= i < |s| && !IsWhitespace(s[i]);
      assert front[i] == s[i];
    }
    if HasNonWhitespace(front) {
      var i :| 0 <= i < |front| && !IsWhitespace(front[i]);
      assert s[i] == front[i];
    }
  }

  lemma {:induction false} TrimStartEmpty(s: string)
    ensures TrimStart(s) == [] <==> !HasNonWhitespace(s)
  {
    if s != [] {
      if IsWhitespace(s[0]) {
        TrimStartEmpty(s[1..]);
        NonWhitespaceAfterHead(s);
      } else {
        assert !IsWhitespace(s[0]);
      }
    }
  }

  lemma {:induction false} TrimEndEmpty(s: string)
    ensures TrimEnd(s) == [] <==> !HasNonWhitespace(s)
  {
    if s != [] {
      if IsWhitespace(s[|s| - 1]) {
        TrimEndEmpty(s[..|s| - 1]);
        NonWhitespaceBeforeLast(s);
      } else {
        assert !IsWhitespace(s[|s| - 1]);
      }
    }
  }

  /** `s.trim()` is falsy (empty) exactly when `s` is made of whitespace only. */
  lemma TrimEmptyIff(s: string)
    ensures Trim(s) == [] <==> !HasNonWhitespace(s)
  {
    TrimStartEmpty(s);
    var t := TrimStart(s);
    TrimEndEmpty(t);
    if HasNonWhitespace(t) {
      var i :| 0 <= i < |t| && !IsWhitespace(t[i]);
      assert t[i] == s[|s| - |t| + i];
    }
    if HasNonWhitespace(s) {
      assert !IsWhitespace(t[0]);
    }
  }

  /** `s.startsWith(prefix)`. */
  function StartsWith(s: string, prefix: string): (starts: bool)
    ensures starts <==> |prefix| <= |s| && forall i :: 0 <= i < |prefix| ==> s[i] == prefix[i]
  {
    |prefix| <= |s| && s[..|prefix|] == prefix
  }

  predicate IsLowerAscii(c: char) {
    'a' <= c <= 'z'
  }

  /** `toUpperCase` on one character: ASCII letters only, everything else unchanged. */
  function UpperChar(c: char): (u: char)
    ensures !IsLowerAscii(u)
    ensures IsWhitespace(u) <==> IsWhitespace(c)
  {
    if IsLowerAscii(c) then (c as int - 32) as char else c
  }

  /** `s.toUpperCase()`, character by character. */
  function ToUpper(s: string): (r: string)
    ensures |r| == |s|
  {
    if s == [] then [] else [UpperChar(s[0])] + ToUpper(s[1..])
  }

  lemma {:induction false} ToUpperAt(s: string, i: int)
    requires 0 <= i < |s|
    ensures ToUpper(s)[i] == UpperChar(s[i])
  {
    if i > 0 {
      ToUpperAt(s[1..], i - 1);
    }
  }

  /** Upper-casing leaves no lower-case ASCII letter behind. */
  lemma NoLowerAfterToUpper(s: string)
    ensures forall i :: 0 <= i < |ToUpper(s)| ==> !IsLowerAscii(ToUpper(s)[i])
  {
    forall i | 0 <= i < |ToUpper(s)| ensures !IsLowerAscii(ToUpper(s)[i]) {
      ToUpperAt(s, i);
    }
  }

  /** Upper-casing twice is upper-casing once. */
  lemma {:induction false} ToUpperIdempotent(s: string)
    ensures ToUpper(ToUpper(s)) == ToUpper(s)
  {
    if s != [] {
      ToUpperIdempotent(s[1..]);
      assert ToUpper(s)[1..] == ToUpper(s[1..]);
    }
  }

  /** Upper-casing neither creates nor removes a non-whitespace character. */
  lemma ToUpperKeepsNonWhitespace(s: string)
    ensures HasNonWhitespace(ToUpper(s)) <==> HasNonWhitespace(s)
  {
    if HasNonWhitespace(s) {
      var i :| 0 <= i < |s| && !IsWhitespace(s[i]);
      ToUpperAt(s, i);
    }
    if HasNonWhitespace(ToUpper(s)) {
      var i :| 0 <= i < |ToUpper(s)| && !IsWhitespace(ToUpper(s)[i]);
      ToUpperAt(s, i);
    }
  }
}
