/** JavaScript values as the scan code sees them, and the built-in operations it relies on:
    truthiness, `typeof`, property reads, `toLowerCase`, `includes`, `trim` and `split`. */
module Js {

  datatype Option<+T> = None | Some(value: T) {
    function GetOr(default: T): T {
      match this
      case Some(v) => v
      case None => default
    }
  }

  /** A parsed JSON value. Numbers are integers here (floating point is not modelled). */
  datatype Json =
    | Null
    | Bool(b: bool)
    | Num(n: int)
    | Str(s: string)
    | Arr(items: seq<Json>)
    | Obj(fields: map<string, Json>)

  /** The completion of a JavaScript evaluation: a normal value, or an exception thrown. */
  datatype Completion<+T> = Normal(value: T) | Thrown(error: string) {
    predicate IsFailure() {
      Thrown?
    }

    function PropagateFailure<U>(): Completion<U>
      requires Thrown?
    {
      Thrown(error)
    }

    function Extract(): T
      requires Normal?
    {
      value
    }
  }

  /** `!!v`; `None` stands for `undefined`. The falsy values are exactly `undefined`, `null`,
      `false`, `0` and the empty string; every array and object is truthy. */
  predicate Truthy(v: Option<Json>): (b: bool)
    ensures b <==> v.Some? && v.value != Null && v.value != Bool(false) && v.value != Num(0) && v.value != Str("")
  {
    match v
    case None => false
    case Some(j) =>
      match j
      case Null => false
      case Bool(b) => b
      case Num(n) => n != 0
      case Str(s) => s != ""
      case Arr(_) => true
      case Obj(_) => true
  }

  /** `typeof v`: note that `typeof null` and `typeof []` are both "object". */
  function TypeOf(v: Option<Json>): (t: string)
    ensures t == "object" <==> v.Some? && (v.value.Null? || v.value.Arr? || v.value.Obj?)
    ensures t == "undefined" <==> v.None?
  {
    match v
    case None => assert "undefined"[0] != "object"[0]; "undefined"
    case Some(Null) => assert "object"[0] != "undefined"[0]; "object"
    case Some(Bool(_)) => assert "boolean"[0] != "object"[0] && "boolean"[0] != "undefined"[0]; "boolean"
    case Some(Num(_)) => assert "number"[0] != "object"[0] && "number"[0] != "undefined"[0]; "number"
    case Some(Str(_)) => assert "string"[0] != "object"[0] && "string"[0] != "undefined"[0]; "string"
    case Some(Arr(_)) => assert "object"[0] != "undefined"[0]; "object"
    case Some(Obj(_)) => assert "object"[0] != "undefined"[0]; "object"
  }

  /** Only a string has `typeof` "string". */
  lemma TypeOfString(v: Option<Json>)
    ensures TypeOf(v) == "string" <==> v.Some? && v.value.Str?
  {
    match v
    case None => assert "undefined"[0] != "string"[0];
    case Some(Null) => assert "object"[0] != "string"[0];
    case Some(Bool(_)) => assert "boolean"[0] != "string"[0];
    case Some(Num(_)) => assert "number"[0] != "string"[0];
    case Some(Str(_)) =>
    case Some(Arr(_)) => assert "object"[0] != "string"[0];
    case Some(Obj(_)) => assert "object"[0] != "string"[0];
  }

  predicate Nullish(v: Option<Json>) {
    v == None || v == Some(Null)
  }

  /** `v?.key` for the plain keys the code reads: only a JSON object carries them. */
  function Prop(v: Option<Json>, key: string): Option<Json> {
    if v.Some? && v.value.Obj? && key in v.value.fields then Some(v.value.fields[key]) else None
  }

  /** `v.key`: reading a property of `null` or `undefined` throws a TypeError. */
  function Member(v: Option<Json>, key: string): (r: Completion<Option<Json>>)
    ensures r.Thrown? <==> Nullish(v)
  {
    if Nullish(v) then Thrown("TypeError: cannot read property '" + key + "'") else Normal(Prop(v, key))
  }

  // ---------------------------------------------------------------- strings

  /** `String.prototype.toLowerCase`, restricted to ASCII letters. */
  function LowerChar(c: char): char {
    if 'A' <= c <= 'Z' then (c as int + 32) as char else c
  }

  /** Each upper-case ASCII letter becomes its lower-case counterpart, every other character
      is kept, and no upper-case ASCII letter remains. */
  function Lower(s: string): (r: string)
    ensures |r| == |s|
    ensures forall i :: 0 <= i < |s| ==> !('A' <= r[i] <= 'Z')
    ensures forall i :: 0 <= i < |s| && !('A' <= s[i] <= 'Z') ==> r[i] == s[i]
    ensures forall i :: 0 <= i < |s| && 'A' <= s[i] <= 'Z' ==> r[i] as int == s[i] as int + 32
  {
    seq(|s|, i requires 0 <= i < |s| => LowerChar(s[i]))
  }

  /** `hay.includes(needle)`, scanning from the left. The empty needle is in every string, a
      prefix is found, and nothing longer than `hay` is. */
  predicate Includes(hay: string, needle: string): (b: bool)
    ensures needle == [] ==> b
    ensures |needle| <= |hay| && hay[..|needle|] == needle ==> b
    ensures b ==> |needle| <= |hay|
    decreases |hay|
  {
    if |hay| < |needle| then false
    else hay[..|needle|] == needle || Includes(hay[1..], needle)
  }

  /** `needle` occurs at position `i` of `hay`. */
  ghost predicate OccursAt(hay: string, needle: string, i: int) {
    0 <= i && i + |needle| <= |hay| && hay[i..i + |needle|] == needle
  }

  /** `Includes` finds an occurrence exactly when there is one. */
  lemma {:induction false} IncludesIffOccurs(hay: string, needle: string)
    ensures Includes(hay, needle) <==> exists i :: OccursAt(hay, needle, i)
    decreases |hay|
  {
    if |hay| < |needle| {
    } else if hay[..|needle|] == needle {
      assert OccursAt(hay, needle, 0);
    } else {
      IncludesIffOccurs(hay[1..], needle);
      if exists i :: OccursAt(hay[1..], needle, i) {
        var i :| OccursAt(hay[1..], needle, i);
        assert hay[1..][i..i + |needle|] == hay[i + 1..i + 1 + |needle|];
        assert OccursAt(hay, needle, i + 1);
      }
      if exists i :: OccursAt(hay, needle, i) {
        var i :| OccursAt(hay, needle, i);
        assert i != 0;
        assert hay[1..][i - 1..i - 1 + |needle|] == hay[i..i + |needle|];
        assert OccursAt(hay[1..], needle, i - 1);
      }
    }
  }

  /** The characters `String.prototype.trim` removes: ECMAScript WhiteSpace and LineTerminator. */
  predicate IsSpace(c: char) {
    || c == '\t' || c == '\n' || c == '\U{000B}' || c == '\U{000C}' || c == '\r' || c == ' '
    || c == '\U{00A0}' || c == '\U{1680}' || ('\U{2000}' <= c <= '\U{200A}')
    || c == '\U{2028}' || c == '\U{2029}' || c == '\U{202F}' || c == '\U{205F}'
    || c == '\U{3000}' || c == '\U{FEFF}'
  }

  ghost predicate AllSpace(s: string) {
    forall i :: 0 <= i < |s| ==> IsSpace(s[i])
  }

  /** The first position at or after `lo` that is not a space (or the end of `s`). */
  function SkipSpaces(s: string, lo: nat): (b: nat)
    requires lo <= |s|
    ensures lo <= b <= |s|
    ensures forall k :: lo <= k < b ==> IsSpace(s[k])
    ensures b == |s| || !IsSpace(s[b])
    decreases |s| - lo
  {
    if lo < |s| && IsSpace(s[lo]) then SkipSpaces(s, lo + 1) else lo
  }

  /** The position after the last character before `hi` that is not a space, looking no
      further back than `lo`. */
  function SkipSpacesBack(s: string, lo: nat, hi: nat): (e: nat)
    requires lo <= hi <= |s|
    ensures lo <= e <= hi
    ensures forall k :: e <= k < hi ==> IsSpace(s[k])
    ensures e == lo || !IsSpace(s[e - 1])
    decreases hi
  {
    if lo < hi && IsSpace(s[hi - 1]) then SkipSpacesBack(s, lo, hi - 1) else hi
  }

  /** `s` is `i` spaces, then `r`, then spaces. */
  ghost predicate PaddedAt(s: string, r: string, i: int) {
    && 0 <= i && i + |r| <= |s|
    && (forall k :: 0 <= k < |r| ==> s[i + k] == r[k])
    && (forall k :: 0 <= k < i ==> IsSpace(s[k]))
    && (forall k :: i + |r| <= k < |s| ==> IsSpace(s[k]))
  }

  /** `s.trim()`: `s` is spaces, then the result, then spaces; the result neither starts
      nor ends with a space. */
  function Trim(s: string): (r: string)
    ensures r == [] || (!IsSpace(r[0]) && !IsSpace(r[|r| - 1]))
    ensures exists i :: PaddedAt(s, r, i)
  {
    var b := SkipSpaces(s, 0);
    var e := SkipSpacesBack(s, b, |s|);
    assert PaddedAt(s, s[b..e], b);
    s[b..e]
  }

  /** A non-empty string is its own trim exactly when it neither starts nor ends with a
      space. */
  lemma TrimKeepsUnpadded(s: string)
    requires s != []
    ensures Trim(s) == s <==> !IsSpace(s[0]) && !IsSpace(s[|s| - 1])
  {
    var r := Trim(s);
    var i :| PaddedAt(s, r, i);
    if !IsSpace(s[0]) && !IsSpace(s[|s| - 1]) {
      assert i == 0;
      assert i + |r| == |s|;
      assert r == s;
    }
  }

  /** A string trims to nothing exactly when it is all spaces. */
  lemma TrimEmptyIffAllSpace(s: string)
    ensures Trim(s) == [] <==> AllSpace(s)
  {
    var r := Trim(s);
    var i :| PaddedAt(s, r, i);
    if r != [] {
      assert s[i] == r[0];
    }
  }

  /** Number of occurrences of `c` in `s`. */
  function Occurrences(s: string, c: char): nat {
    if s == [] then 0 else (if s[0] == c then 1 else 0) + Occurrences(s[1..], c)
  }

  /** `s.split(sep)` for a one-character separator: the pieces between separators. */
  function Split(s: string, sep: char): (pieces: seq<string>)
    ensures |pieces| >= 1
    ensures forall k :: 0 <= k < |pieces| ==> |pieces[k]| <= |s|
  {
    if s == [] then [""]
    else
      var rest := Split(s[1..], sep);
      if s[0] == sep then [""] + rest else [[s[0]] + rest[0]] + rest[1..]
  }

  /** `pieces.join(sep)`. */
  function Join(pieces: seq<string>, sep: char): string {
    if |pieces| == 0 then ""
    else if |pieces| == 1 then pieces[0]
    else pieces[0] + [sep] + Join(pieces[1..], sep)
  }

  /** There is one more piece than there are separators. */
  lemma {:induction false} SplitCount(s: string, sep: char)
    ensures |Split(s, sep)| == Occurrences(s, sep) + 1
  {
    if s != [] {
      SplitCount(s[1..], sep);
    }
  }

  /** No piece contains the separator. */
  lemma {:induction false} SplitPiecesHaveNoSeparator(s: string, sep: char)
    ensures forall k :: 0 <= k < |Split(s, sep)| ==> sep !in Split(s, sep)[k]
  {
    if s != [] {
      SplitPiecesHaveNoSeparator(s[1..], sep);
    }
  }

  /** Joining the pieces with the separator gives back the string. */
  lemma {:induction false} JoinSplit(s: string, sep: char)
    ensures Join(Split(s, sep), sep) == s
  {
    if s != [] {
      var rest := Split(s[1..], sep);
      JoinSplit(s[1..], sep);
      if s[0] == sep {
        assert Split(s, sep) == [""] + rest;
        assert ([""] + rest)[1..] == rest;
      } else {
        var p := [[s[0]] + rest[0]] + rest[1..];
        assert Split(s, sep) == p;
        if |rest| == 1 {
          assert Join(rest, sep) == rest[0];
        } else {
          assert p[1..] == rest[1..];
          assert Join(rest, sep) == rest[0] + [sep] + Join(rest[1..], sep);
        }
      }
    }
  }
}
