/**
 * The slice of JavaScript string semantics the apology service relies on:
 * values that may be `undefined` or `null`, truthiness, template
 * interpolation, `String.prototype.trim` and `String.prototype.toLowerCase`.
 *
 * Strings are sequences of Unicode scalar values. Every character that
 * `trim` removes lies in the Basic Multilingual Plane, so trimming a
 * sequence of scalar values agrees with trimming the UTF-16 code units a
 * JavaScript engine stores.
 */
module JsString {

  /** A JavaScript value that is expected to be a string. */
  datatype Value = Undefined | Null | Str(s: string)

  /** `!!v`: the empty string, `undefined` and `null` are falsy. */
  predicate Truthy(v: Value)
    ensures Truthy(v) <==> v !in {Undefined, Null, Str("")}
  {
    v.Str? && v.s != ""
  }

  /** The text a template literal `${v}` produces for `v`. */
  function Interpolate(v: Value): (t: string)
    ensures v.Str? ==> t == v.s
    ensures v.Undefined? ==> t == "undefined"
    ensures v.Null? ==> t == "null"
  {
    match v
    case Undefined => "undefined"
    case Null => "null"
    case Str(s) => s
  }

  // ---------------------------------------------------------------------
  // Whitespace and trim
  // ---------------------------------------------------------------------

  /**
   * The characters `trim` removes: the ECMAScript WhiteSpace set (TAB, VT,
   * FF, ZWNBSP and the Unicode category Zs) and the LineTerminator set
   * (LF, CR, LINE SEPARATOR, PARAGRAPH SEPARATOR).
   */
  predicate IsSpace(c: char)
    ensures IsSpace(c) ==> !IsUpper(c)
  {
    || c == '\t' || c == '\n' || c == '\U{B}' || c == '\U{C}' || c == '\r'
    || c == ' ' || c == '\U{A0}' || c == '\U{1680}'
    || ('\U{2000}' <= c <= '\U{200A}')
    || c == '\U{2028}' || c == '\U{2029}' || c == '\U{202F}' || c == '\U{205F}'
    || c == '\U{3000}' || c == '\U{FEFF}'
  }

  /** The same 25 characters, listed one by one. */
  const TrimSet: set<char> := {
    '\t', '\n', '\U{B}', '\U{C}', '\r', ' ', '\U{A0}', '\U{1680}',
    '\U{2000}', '\U{2001}', '\U{2002}', '\U{2003}', '\U{2004}', '\U{2005}',
    '\U{2006}', '\U{2007}', '\U{2008}', '\U{2009}', '\U{200A}',
    '\U{2028}', '\U{2029}', '\U{202F}', '\U{205F}', '\U{3000}', '\U{FEFF}'
  }

  /** `IsSpace` holds of exactly the characters of `TrimSet`. */
  lemma IsSpaceListed(c: char)
    ensures IsSpace(c) <==> c in TrimSet
  {
  }

  ghost predicate AllSpace(s: string) {
    forall i :: 0 <= i < |s| ==> IsSpace(s[i])
  }

  /** Neither the first nor the last character is whitespace. */
  predicate NoEdgeSpace(s: string) {
    s == [] || (!IsSpace(s[0]) && !IsSpace(s[|s| - 1]))
  }

  /**
   * `t` is what is left of `s` once whitespace is removed from both ends:
   * `s` is some whitespace, then `t`, then some whitespace, and `t` itself
   * neither starts nor ends with whitespace.
   */
  ghost predicate IsTrimOf(s: string, t: string) {
    exists a :: 0 <= a <= |s| - |t| && IsTrimAt(s, t, a)
  }

  ghost predicate IsTrimAt(s: string, t: string, a: int)
    requires 0 <= a <= |s| - |t|
  {
    && s[a..a + |t|] == t
    && AllSpace(s[..a])
    && AllSpace(s[a + |t|..])
    && NoEdgeSpace(t)
  }

  /** `String.prototype.trimStart`: drops leading whitespace. */
  function TrimStart(s: string): (r: string)
    ensures |r| <= |s| && r == s[|s| - |r|..]
    ensures AllSpace(s[..|s| - |r|])
    ensures r == [] || !IsSpace(r[0])
  {
    if |s| > 0 && IsSpace(s[0]) then
      var r := TrimStart(s[1..]);
      assert s[1..][..|s| - 1 - |r|] == s[1..|s| - |r|];
      r
    else s
  }

  /** `String.prototype.trimEnd`: drops trailing whitespace. */
  function TrimEnd(s: string): (r: string)
    ensures |r| <= |s| && r == s[..|r|]
    ensures AllSpace(s[|r|..])
    ensures r == [] || !IsSpace(r[|r| - 1])
  {
    if |s| > 0 && IsSpace(s[|s| - 1]) then
      var r := TrimEnd(s[..|s| - 1]);
      assert s[..|s| - 1][|r|..] == s[|r|..|s| - 1];
      r
    else s
  }

  /** `String.prototype.trim`. */
  function Trim(s: string): (r: string)
    ensures NoEdgeSpace(r)
    ensures IsTrimOf(s, r)
  {
    var u := TrimStart(s);
    var r := TrimEnd(u);
    TrimParts(s, u, r);
    assert IsTrimAt(s, r, |s| - |u|);
    r
  }

  /** A whitespace-free start of a whitespace-free end of `s` is a trim of `s`. */
  lemma TrimParts(s: string, u: string, r: string)
    requires |u| <= |s| && u == s[|s| - |u|..] && AllSpace(s[..|s| - |u|]) && (u == [] || !IsSpace(u[0]))
    requires |r| <= |u| && r == u[..|r|] && AllSpace(u[|r|..]) && (r == [] || !IsSpace(r[|r| - 1]))
    ensures NoEdgeSpace(r) && IsTrimAt(s, r, |s| - |u|)
  {
    var a := |s| - |u|;
    assert u[..|r|] == r;
    assert s[a..a + |r|] == r;
    assert s[a + |r|..] == u[|r|..];
    if r != [] {
      assert r[0] == u[0];
    }
  }

  /** Once the first non-space character is at `a`, trimStart keeps `s[a..]`. */
  lemma {:induction false} TrimStartAt(s: string, a: nat)
    requires a <= |s| && AllSpace(s[..a])
    requires a == |s| || !IsSpace(s[a])
    ensures TrimStart(s) == s[a..]
  {
    if a > 0 {
      assert IsSpace(s[..a][0]);
      assert s[1..][..a - 1] == s[1..a];
      TrimStartAt(s[1..], a - 1);
      assert s[1..][a - 1..] == s[a..];
    }
  }

  /** Once the last non-space character is at `b - 1`, trimEnd keeps `s[..b]`. */
  lemma {:induction false} TrimEndAt(s: string, b: nat)
    requires b <= |s| && AllSpace(s[b..])
    requires b == 0 || !IsSpace(s[b - 1])
    ensures TrimEnd(s) == s[..b]
  {
    if b < |s| {
      assert IsSpace(s[b..][|s| - 1 - b]);
      assert s[..|s| - 1][b..] == s[b..|s| - 1];
      TrimEndAt(s[..|s| - 1], b);
      assert s[..|s| - 1][..b] == s[..b];
    }
  }

  /** The trim of a string is unique: `Trim` finds the only one there is. */
  lemma TrimIsUnique(s: string, t: string)
    requires IsTrimOf(s, t)
    ensures Trim(s) == t
  {
    var a :| 0 <= a <= |s| - |t| && IsTrimAt(s, t, a);
    if t == [] {
      assert AllSpace(s) by {
        forall i | 0 <= i < |s| ensures IsSpace(s[i]) {
          if i < a { assert s[..a][i] == s[i]; } else { assert s[a..][i - a] == s[i]; }
        }
      }
      TrimStartAt(s, |s|);
      TrimEndAt([], 0);
    } else {
      assert s[a] == t[0];
      TrimStartAt(s, a);
      var u := s[a..];
      assert u[..|t|] == t;
      assert u[|t|..] == s[a + |t|..];
      assert u[|t| - 1] == t[|t| - 1];
      TrimEndAt(u, |t|);
    }
  }

  /** `s.trim().trim() == s.trim()`. */
  lemma TrimIdempotent(s: string)
    ensures Trim(Trim(s)) == Trim(s)
  {
    var t := Trim(s);
    assert IsTrimAt(t, t, 0) by {
      assert t[..0] == [] && t[|t|..] == [];
    }
    TrimIsUnique(t, t);
  }

  // ---------------------------------------------------------------------
  // Lower case
  // ---------------------------------------------------------------------

  predicate IsUpper(c: char) {
    'A' <= c <= 'Z'
  }

  /** `toLowerCase` on one character, restricted to the ASCII letters. */
  function LowerChar(c: char): (d: char)
    ensures !IsUpper(d)
    ensures IsUpper(c) ==> d as int == c as int + 32
    ensures !IsUpper(c) ==> d == c
  {
    if IsUpper(c) then (c as int + 32) as char else c
  }

  /** No character of `s` is an upper-case letter. */
  ghost predicate IsLower(s: string) {
    forall i :: 0 <= i < |s| ==> !IsUpper(s[i])
  }

  /** `String.prototype.toLowerCase`, restricted to the ASCII letters. */
  function ToLower(s: string): (r: string)
    ensures |r| == |s| && IsLower(r)
    ensures forall i :: 0 <= i < |s| ==> r[i] == LowerChar(s[i])
  {
    seq(|s|, i requires 0 <= i < |s| => LowerChar(s[i]))
  }

  /** A lower-case string is its own lower case. */
  lemma ToLowerOfLower(s: string)
    requires IsLower(s)
    ensures ToLower(s) == s
  {
  }

  /** Lower-casing never creates or removes whitespace. */
  lemma LowerCharKeepsSpace(c: char)
    ensures IsSpace(LowerChar(c)) == IsSpace(c)
  {
  }

  /** Lower-casing a slice is slicing the lower-cased string. */
  lemma ToLowerSlice(s: string, i: nat, j: nat)
    requires i <= j <= |s|
    ensures ToLower(s)[i..j] == ToLower(s[i..j])
  {
  }

  /** A run of whitespace stays a run of whitespace when lower-cased. */
  lemma ToLowerAllSpace(s: string)
    requires AllSpace(s)
    ensures AllSpace(ToLower(s))
  {
    forall i | 0 <= i < |s| ensures IsSpace(ToLower(s)[i]) {
      LowerCharKeepsSpace(s[i]);
    }
  }

  /** Lower-casing keeps a trim in the same place. */
  lemma ToLowerKeepsTrim(s: string, t: string, a: nat)
    requires a <= |s| - |t| && IsTrimAt(s, t, a)
    ensures a <= |ToLower(s)| - |ToLower(t)| && IsTrimAt(ToLower(s), ToLower(t), a)
  {
    var ls, lt := ToLower(s), ToLower(t);
    var b := a + |t|;
    assert ls[a..b] == lt by {
      ToLowerSlice(s, a, b);
    }
    assert AllSpace(ls[..a]) by {
      ToLowerSlice(s, 0, a);
      assert s[0..a] == s[..a] && ls[0..a] == ls[..a];
      ToLowerAllSpace(s[..a]);
    }
    assert AllSpace(ls[b..]) by {
      ToLowerSlice(s, b, |s|);
      assert s[b..|s|] == s[b..] && ls[b..|s|] == ls[b..];
      ToLowerAllSpace(s[b..]);
    }
    assert NoEdgeSpace(lt) by {
      if lt != [] {
        LowerCharKeepsSpace(t[0]);
        LowerCharKeepsSpace(t[|t| - 1]);
      }
    }
  }

  /** Trimming and lower-casing commute. */
  lemma TrimToLowerCommute(s: string)
    ensures Trim(ToLower(s)) == ToLower(Trim(s))
  {
    var t := Trim(s);
    var a :| 0 <= a <= |s| - |t| && IsTrimAt(s, t, a);
    ToLowerKeepsTrim(s, t, a);
    TrimIsUnique(ToLower(s), ToLower(t));
  }
}
