/** `String.prototype.trim` and the blank-text tests built on it. */
module Text {

  /** The characters `trim` strips that the model recognises: the ASCII
      white-space and line-terminator characters, the no-break space and the
      byte-order mark. */
  predicate IsWhitespace(c: char)
  {
    c == ' ' || c == '\t' || c == '\n' || c == '\r' || c == '\U{000B}' || c == '\U{000C}'
    || c == '\U{00A0}' || c == '\U{FEFF}'
  }

  /** Nothing but white space (the empty string included). */
  predicate IsBlank(s: string)
  {
    forall i :: 0 <= i < |s| ==> IsWhitespace(s[i])
  }

  /** `s` without its leading white space. */
  function TrimStart(s: string): (r: string)
    ensures |r| <= |s|
    ensures r != [] ==> !IsWhitespace(r[0])
  {
    if s == [] || !IsWhitespace(s[0]) then s else TrimStart(s[1..])
  }

  /** `s` without its trailing white space. */
  function TrimEnd(s: string): (r: string)
    ensures |r| <= |s|
    ensures r != [] ==> !IsWhitespace(r[|r| - 1])
  {
    if s == [] || !IsWhitespace(s[|s| - 1]) then s else TrimEnd(s[..|s| - 1])
  }

  /** `TrimStart` removes a blank prefix and keeps the rest as it was. */
  lemma {:induction false} TrimStartDropsBlankPrefix(s: string)
    ensures TrimStart(s) == s[|s| - |TrimStart(s)|..]
    ensures IsBlank(s[..|s| - |TrimStart(s)|])
  {
    if s != [] && IsWhitespace(s[0]) {
      var r := TrimStart(s[1..]);
      TrimStartDropsBlankPrefix(s[1..]);
      assert s[..|s| - |r|] == [s[0]] + s[1..][..|s| - 1 - |r|];
    }
  }

  /** `TrimEnd` removes a blank suffix and keeps the rest as it was. */
  lemma {:induction false} TrimEndDropsBlankSuffix(s: string)
    ensures TrimEnd(s) == s[..|TrimEnd(s)|]
    ensures IsBlank(s[|TrimEnd(s)|..])
  {
    if s != [] && IsWhitespace(s[|s| - 1]) {
      var r := TrimEnd(s[..|s| - 1]);
      TrimEndDropsBlankSuffix(s[..|s| - 1]);
      assert s[|r|..] == s[..|s| - 1][|r|..] + [s[|s| - 1]];
    }
  }

  /** `s.trim()`. */
  function Trim(s: string): (r: string)
    ensures |r| <= |s|
    ensures r != [] ==> !IsWhitespace(r[0]) && !IsWhitespace(r[|r| - 1])
  {
    var t := TrimStart(s);
    TrimEndDropsBlankSuffix(t);
    TrimEnd(t)
  }

  /** `s.trim() === ''` exactly when `s` is blank. */
  lemma TrimEmptyIffBlank(s: string)
    ensures Trim(s) == "" <==> IsBlank(s)
  {
    var t := TrimStart(s);
    TrimStartDropsBlankPrefix(s);
    TrimEndDropsBlankSuffix(t);
    if Trim(s) == "" {
      assert IsBlank(t) by {
        assert t[0..] == t;
      }
      assert s == s[..|s| - |t|] + t;
    }
  }

  /** Blank text around a non-blank core trims to that core's trimmed form. */
  lemma {:induction false} TrimAroundBlank(left: string, core: string, right: string)
    requires IsBlank(left) && IsBlank(right)
    requires core != [] && !IsWhitespace(core[0]) && !IsWhitespace(core[|core| - 1])
    ensures Trim(left + core + right) == core
  {
    var s := left + core + right;
    TrimStartBlankPrefix(left, core + right);
    assert s == left + (core + right);
    TrimEndBlankSuffix(core, right);
  }

  lemma {:induction false} TrimStartBlankPrefix(left: string, rest: string)
    requires IsBlank(left)
    requires rest != [] && !IsWhitespace(rest[0])
    ensures TrimStart(left + rest) == rest
  {
    if left != [] {
      assert (left + rest)[1..] == left[1..] + rest;
      TrimStartBlankPrefix(left[1..], rest);
    } else {
      assert left + rest == rest;
    }
  }

  lemma {:induction false} TrimEndBlankSuffix(rest: string, right: string)
    requires IsBlank(right)
    requires rest != [] && !IsWhitespace(rest[|rest| - 1])
    ensures TrimEnd(rest + right) == rest
  {
    if right != [] {
      var s := rest + right;
      assert s[..|s| - 1] == rest + right[..|right| - 1];
      TrimEndBlankSuffix(rest, right[..|right| - 1]);
    } else {
      assert rest + right == rest;
    }
  }
}
