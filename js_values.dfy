/**
 * The JavaScript values the task manager inspects, and the handful of string
 * operations it applies to them (`trim`, `toLowerCase`, `includes`).
 *
 * A field that is `undefined` in a request body or record is `None` of an
 * `Option<Value>`; JSON `null` is `Some(Null)`.
 */
module JsValues {

  datatype Option<+T> = None | Some(value: T)

  /** A JSON-decoded value. Numbers are integers here; `Obj` stands for any
      object or array, which JavaScript always treats as truthy. */
  datatype Value = Str(s: string) | Bool(b: bool) | Num(n: int) | Null | Obj

  /** JavaScript's `Boolean(v)`: the falsy values are `''`, `false`, `0`
      and `null` (and `undefined`, which is `None`). */
  predicate Truthy(v: Value)
    ensures !Truthy(v) <==> v == Str("") || v == Bool(false) || v == Num(0) || v == Null
  {
    match v
    case Str(s) => s != ""
    case Bool(b) => b
    case Num(n) => n != 0
    case Null => false
    case Obj => true
  }

  /** `v || fallback` for an optional value: `undefined` is falsy too. */
  function OrElse(v: Option<Value>, fallback: Value): (r: Value)
    ensures Truthy(fallback) ==> Truthy(r)
    ensures v.Some? && Truthy(v.value) ==> r == v.value
    ensures r != fallback ==> v.Some? && Truthy(v.value)
  {
    if v.Some? && Truthy(v.value) then v.value else fallback
  }

  /** The whitespace and line terminators that `String.prototype.trim` removes
      (the Latin-1 and line-separator subset). */
  predicate IsSpace(c: char)
    ensures c as int < 128 ==> (IsSpace(c) <==> c == ' ' || 9 <= c as int <= 13)
  {
    c == ' ' || c == '\t' || c == '\n' || c == '\r' || c == '\U{000B}' || c == '\U{000C}'
    || c == '\U{00A0}' || c == '\U{FEFF}' || c == '\U{2028}' || c == '\U{2029}'
  }

  /** Nothing but whitespace: what `s.trim()` turns into the empty string. */
  predicate IsBlank(s: string) {
    forall i :: 0 <= i < |s| ==> IsSpace(s[i])
  }

  function TrimStart(s: string): (r: string)
    ensures |r| <= |s| && r == s[|s| - |r|..]
    ensures r == [] || !IsSpace(r[0])
    ensures forall i :: 0 <= i < |s| - |r| ==> IsSpace(s[i])
  {
    if s != [] && IsSpace(s[0]) then TrimStart(s[1..]) else s
  }

  function TrimEnd(s: string): (r: string)
    ensures |r| <= |s| && r == s[..|r|]
    ensures r == [] || !IsSpace(r[|r| - 1])
    ensures forall i :: |r| <= i < |s| ==> IsSpace(s[i])
  {
    if s != [] && IsSpace(s[|s| - 1]) then TrimEnd(s[..|s| - 1]) else s
  }

  /** `s.trim()`: the longest slice of `s` that neither starts nor ends with
      whitespace, once the whitespace around it is cut off. */
  function Trim(s: string): (r: string)
    ensures |r| <= |s|
    ensures r == [] || (!IsSpace(r[0]) && !IsSpace(r[|r| - 1]))
    ensures var i := |s| - |TrimStart(s)|;
      && i + |r| <= |s| && r == s[i..i + |r|]
      && (forall k :: 0 <= k < i ==> IsSpace(s[k]))
      && (forall k :: i + |r| <= k < |s| ==> IsSpace(s[k]))
  {
    var t := TrimStart(s);
    var r := TrimEnd(t);
    PrefixOfSuffix(s, t, r);
    r
  }

  /** A prefix `r` of a suffix `t` of `s`, followed in `t` by whitespace
      only, is a slice of `s` followed by whitespace only. */
  lemma PrefixOfSuffix(s: string, t: string, r: string)
    requires |t| <= |s| && t == s[|s| - |t|..]
    requires |r| <= |t| && r == t[..|r|]
    requires forall k :: |r| <= k < |t| ==> IsSpace(t[k])
    ensures var i := |s| - |t|; r == s[i..i + |r|]
    ensures forall k :: |s| - |t| + |r| <= k < |s| ==> IsSpace(s[k])
  {
    var i := |s| - |t|;
    forall k | i + |r| <= k < |s|
      ensures IsSpace(s[k])
    {
      assert s[k] == t[k - i];
    }
  }

  /** A string trims to nothing exactly when it is blank. */
  lemma {:induction false} TrimEmptyIffBlank(s: string)
    ensures Trim(s) == [] <==> IsBlank(s)
  {
    var t := TrimStart(s);
    if t == [] {
      assert s[..|s|] == s;
    } else {
      assert !IsSpace(s[|s| - |t|]);
      assert IsSpace(t[0]) || |TrimEnd(t)| > 0;
    }
  }

  /** Trimming leaves a string alone exactly when it neither starts nor ends
      with whitespace. */
  lemma TrimFixedIff(s: string)
    ensures Trim(s) == s <==> s == [] || (!IsSpace(s[0]) && !IsSpace(s[|s| - 1]))
  {
    if s == [] || (!IsSpace(s[0]) && !IsSpace(s[|s| - 1])) {
      assert TrimStart(s) == s;
      assert TrimEnd(s) == s;
    }
  }

  /** Trimming twice is trimming once. */
  lemma {:induction false} TrimIdempotent(s: string)
    ensures Trim(Trim(s)) == Trim(s)
  {
    TrimFixedIff(Trim(s));
  }

  /** `s.length`: the number of UTF-16 code units, two for each character
      outside the Basic Multilingual Plane. */
  function JsLength(s: string): (n: nat)
    ensures |s| <= n <= 2 * |s|
  {
    if s == [] then 0 else (if s[0] as int >= 0x1_0000 then 2 else 1) + JsLength(s[1..])
  }

  /** Within the Basic Multilingual Plane a character is one code unit. */
  lemma {:induction false} JsLengthOfBmp(s: string)
    requires forall i :: 0 <= i < |s| ==> s[i] as int < 0x1_0000
    ensures JsLength(s) == |s|
  {
    if s != [] {
      JsLengthOfBmp(s[1..]);
    }
  }

  /** Outside it every character is a surrogate pair: two code units. */
  lemma {:induction false} JsLengthOfAstral(s: string)
    requires forall i :: 0 <= i < |s| ==> s[i] as int >= 0x1_0000
    ensures JsLength(s) == 2 * |s|
  {
    if s != [] {
      JsLengthOfAstral(s[1..]);
    }
  }

  /** A slice is never longer than the whole. */
  lemma {:induction false} JsLengthSlice(s: string, i: int, j: int)
    requires 0 <= i <= j <= |s|
    ensures JsLength(s[i..j]) <= JsLength(s)
    decreases |s|
  {
    if i == j {
      assert s[i..j] == [];
    } else if 0 < i {
      var tail := s[1..];
      assert |s[i..j]| == |tail[i - 1..j - 1]|;
      forall k | 0 <= k < j - i
        ensures s[i..j][k] == tail[i - 1..j - 1][k]
      {
        assert s[i..j][k] == s[i + k] == tail[i - 1 + k];
      }
      assert s[i..j] == tail[i - 1..j - 1];
      JsLengthSlice(tail, i - 1, j - 1);
    } else {
      var tail, slice := s[1..], s[..j];
      assert slice[0] == s[0];
      assert slice[1..] == tail[..j - 1];
      JsLengthSlice(tail, 0, j - 1);
      assert tail[0..j - 1] == tail[..j - 1];
    }
  }

  /** Trimming never makes a string longer, in code units. */
  lemma TrimJsLength(s: string)
    ensures JsLength(Trim(s)) <= JsLength(s)
  {
    var i := |s| - |TrimStart(s)|;
    JsLengthSlice(s, i, i + |Trim(s)|);
  }

  /** ASCII `toLowerCase`. */
  function LowerChar(c: char): (r: char)
    ensures 'A' <= c <= 'Z' ==> 'a' <= r <= 'z' && r as int == c as int + 32
    ensures !('A' <= c <= 'Z') ==> r == c
  {
    if 'A' <= c <= 'Z' then (c as int + 32) as char else c
  }

  function Lower(s: string): (r: string)
    ensures |r| == |s|
    ensures forall i :: 0 <= i < |s| ==> r[i] == LowerChar(s[i])
  {
    seq(|s|, i requires 0 <= i < |s| => LowerChar(s[i]))
  }

  /** Lowering twice is lowering once. */
  lemma LowerIdempotent(s: string)
    ensures Lower(Lower(s)) == Lower(s)
  {
  }

  /** `haystack.includes(needle)`: `needle` occurs as a contiguous slice. */
  predicate Contains(haystack: string, needle: string)
    ensures Contains(haystack, needle) ==> |needle| <= |haystack|
    ensures |needle| <= |haystack| && haystack[..|needle|] == needle ==> Contains(haystack, needle)
  {
    assert |needle| <= |haystack| && haystack[..|needle|] == needle ==> OccursAt(haystack, needle, 0);
    exists i :: 0 <= i <= |haystack| - |needle| && OccursAt(haystack, needle, i)
  }

  predicate OccursAt(haystack: string, needle: string, i: int)
    requires 0 <= i <= |haystack| - |needle|
  {
    haystack[i..i + |needle|] == needle
  }
}
