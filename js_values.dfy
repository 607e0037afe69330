/**
 * The slice of JavaScript semantics the finance tracker relies on: dynamically
 * typed values, `Number()` coercion, truthiness, `String.prototype.trim`, the
 * `#RRGGBB`/`#RRGGBBAA` colour pattern, insertion order of a `Set`, and
 * `Array.prototype.join`.
 *
 * The parts of the engine that are not modelled (how a string or an object is
 * turned into a number, and whether `Date.parse` accepts a value) are fields
 * of an `Engine` record, so every statement about them holds for any engine.
 */
module JsValues {

  datatype Option<+T> = None | Some(value: T)

  datatype Result<+T, +E> = Ok(value: T) | Err(error: E)

  /** A JavaScript number: NaN, a finite value, or one of the two infinities. */
  datatype JsNumber = NaN | Finite(r: real) | Infinity(positive: bool)

  /** A JSON-like JavaScript value; `Undefined` also stands for a missing property. */
  datatype JsValue =
    | Undefined
    | Null
    | Bool(b: bool)
    | Num(n: JsNumber)
    | Str(s: string)
    | Arr(items: seq<JsValue>)
    | Obj(fields: map<string, JsValue>)

  /**
   * The engine built-ins left abstract: `Number(s)` for a string that is not
   * a plain run of decimal digits, `Number(v)` for an array or object (after
   * ToPrimitive), and whether `Date.parse(v)` gives a number other than NaN.
   */
  datatype Engine = Engine(
    stringToNumber: string -> JsNumber,
    objectToNumber: JsValue -> JsNumber,
    dateParses: JsValue -> bool)

  predicate IsDigit(c: char)
  {
    '0' <= c <= '9'
  }

  predicate IsDigitString(s: string)
  {
    s != [] && forall i :: 0 <= i < |s| ==> IsDigit(s[i])
  }

  /** The decimal value of a string of digits. */
  function DigitsValue(s: string): nat
    requires forall i :: 0 <= i < |s| ==> IsDigit(s[i])
  {
    if s == [] then 0
    else
      assert IsDigit(s[|s| - 1]);
      10 * DigitsValue(s[..|s| - 1]) + (s[|s| - 1] as int - '0' as int)
  }

  function Pow10(w: nat): nat
  {
    if w == 0 then 1 else 10 * Pow10(w - 1)
  }

  /**
   * The longest run of decimal digits read exactly: every value below
   * 10^15 is below 2^53, so it is a double. A longer run may be rounded to
   * the nearest double or overflow to `Infinity`, which the engine decides.
   */
  const MaxExactDigits: nat := 15

  /** `Number(s)`: a run of at most 15 decimal digits reads as its decimal value. */
  function StringToNumber(js: Engine, s: string): JsNumber
  {
    if IsDigitString(s) && |s| <= MaxExactDigits then Finite(DigitsValue(s) as real) else js.stringToNumber(s)
  }

  lemma {:induction false} DigitsValueBound(s: string)
    requires forall i :: 0 <= i < |s| ==> IsDigit(s[i])
    ensures DigitsValue(s) < Pow10(|s|)
  {
    if s != [] {
      var front := s[..|s| - 1];
      assert forall i :: 0 <= i < |front| ==> IsDigit(front[i]) by {
        forall i | 0 <= i < |front| ensures IsDigit(front[i]) { assert front[i] == s[i]; }
      }
      DigitsValueBound(front);
    }
  }

  lemma {:induction false} Pow10Grows(a: nat, b: nat)
    requires a <= b
    ensures Pow10(a) <= Pow10(b)
    decreases b
  {
    if a < b { Pow10Grows(a, b - 1); }
  }

  /**
   * A run of at most 15 digits reads as its value, and that value is below
   * 2^53, so `Number()` gives it without rounding.
   */
  lemma ExactDigitRun(js: Engine, s: string)
    requires IsDigitString(s) && |s| <= MaxExactDigits
    ensures StringToNumber(js, s) == Finite(DigitsValue(s) as real)
    ensures DigitsValue(s) < 0x20_0000_0000_0000
  {
    DigitsValueBound(s);
    Pow10Grows(|s|, MaxExactDigits);
    assert Pow10(15) == 1_000_000_000_000_000 by {
      assert Pow10(5) == 100_000;
      assert Pow10(10) == 10_000_000_000;
    }
  }

  /** `Number(v)`. */
  function ToNumber(js: Engine, v: JsValue): JsNumber
  {
    match v
    case Undefined => NaN
    case Null => Finite(0.0)
    case Bool(b) => Finite(if b then 1.0 else 0.0)
    case Num(n) => n
    case Str(s) => StringToNumber(js, s)
    case Arr(_) => js.objectToNumber(v)
    case Obj(_) => js.objectToNumber(v)
  }

  /** `Number.isInteger(n)`. */
  predicate IsInteger(n: JsNumber)
  {
    n.Finite? && n.r == n.r.Floor as real
  }

  /** `Number.isInteger(n) && n > 0`: the test every id parser applies. */
  predicate IsPositiveInteger(n: JsNumber)
  {
    IsInteger(n) && n.r > 0.0
  }

  /** `n > 0` (false for NaN): the negation of `Number.isNaN(n) || n <= 0`. */
  predicate IsPositive(n: JsNumber)
  {
    (n.Finite? && n.r > 0.0) || n == Infinity(true)
  }

  function IntegerValue(n: JsNumber): int
    requires IsInteger(n)
  {
    n.r.Floor
  }

  /** The integer an id parser extracts from a value, if it is a positive integer. */
  function PositiveId(js: Engine, v: JsValue): (id: Option<int>)
    ensures id.Some? <==> IsPositiveInteger(ToNumber(js, v))
    ensures id.Some? ==> id.value > 0 && ToNumber(js, v) == Finite(id.value as real)
  {
    var n := ToNumber(js, v);
    if IsPositiveInteger(n) then Some(IntegerValue(n)) else None
  }

  /** JavaScript truthiness. */
  predicate Truthy(v: JsValue)
  {
    match v
    case Undefined => false
    case Null => false
    case Bool(b) => b
    case Num(n) => n.Infinity? || (n.Finite? && n.r != 0.0)
    case Str(s) => s != ""
    case Arr(_) => true
    case Obj(_) => true
  }

  /** `v?.key`: a missing property, or a property of a non-object, reads as undefined. */
  function Get(v: JsValue, key: string): JsValue
  {
    if v.Obj? && key in v.fields then v.fields[key] else Undefined
  }

  /** `a ?? b`. */
  function Nullish(a: JsValue, b: JsValue): JsValue
  {
    if a == Undefined || a == Null then b else a
  }

  /** The characters `String.prototype.trim` removes: WhiteSpace and LineTerminator of ECMA-262. */
  predicate IsWhiteSpace(c: char)
  {
    c == '\t' || c == '\n' || c == '\U{000B}' || c == '\U{000C}' || c == '\r' || c == ' '
    || c == '\U{00A0}' || c == '\U{1680}' || ('\U{2000}' <= c <= '\U{200A}')
    || c == '\U{2028}' || c == '\U{2029}' || c == '\U{202F}' || c == '\U{205F}'
    || c == '\U{3000}' || c == '\U{FEFF}'
  }

  function TrimStart(s: string): (r: string)
    ensures |r| <= |s| && r == s[|s| - |r|..]
    ensures r != [] ==> !IsWhiteSpace(r[0])
    ensures forall i :: 0 <= i < |s| - |r| ==> IsWhiteSpace(s[i])
  {
    if s != [] && IsWhiteSpace(s[0]) then TrimStart(s[1..]) else s
  }

  function TrimEnd(s: string): (r: string)
    ensures |r| <= |s| && r == s[..|r|]
    ensures r != [] ==> !IsWhiteSpace(r[|r| - 1])
    ensures forall i :: |r| <= i < |s| ==> IsWhiteSpace(s[i])
  {
    if s != [] && IsWhiteSpace(s[|s| - 1]) then TrimEnd(s[..|s| - 1]) else s
  }

  /** `s.trim()`. */
  function Trim(s: string): (r: string)
  {
    TrimEnd(TrimStart(s))
  }

  /** `typeof v === 'string' ? v.trim() : ''`. */
  function TrimmedText(v: JsValue): string
  {
    if v.Str? then Trim(v.s) else ""
  }

  /** Text read this way is already trimmed. */
  lemma TrimmedTextTrimmed(v: JsValue)
    ensures Trim(TrimmedText(v)) == TrimmedText(v)
  {
    if v.Str? {
      TrimIdempotent(v.s);
    }
  }

  /** Where the trimmed text sits in the input. */
  lemma TrimBounds(s: string) returns (i: nat, j: nat)
    ensures i <= j <= |s| && Trim(s) == s[i..j]
    ensures forall k :: 0 <= k < i ==> IsWhiteSpace(s[k])
    ensures forall k :: j <= k < |s| ==> IsWhiteSpace(s[k])
  {
    var a := TrimStart(s);
    var t := TrimEnd(a);
    i := |s| - |a|;
    j := i + |t|;
    assert a == s[i..];
    assert t == a[..|t|];
    assert s[i..][..|t|] == s[i..j];
    forall k | j <= k < |s|
      ensures IsWhiteSpace(s[k])
    {
      assert s[k] == a[k - i];
    }
  }

  /** What trim promises: a contiguous slice of the input, with no white space at either end. */
  lemma TrimSpec(s: string)
    ensures exists i, j :: 0 <= i <= j <= |s| && Trim(s) == s[i..j]
    ensures Trim(s) != [] ==> !IsWhiteSpace(Trim(s)[0]) && !IsWhiteSpace(Trim(s)[|Trim(s)| - 1])
    ensures Trim(s) == [] <==> forall k :: 0 <= k < |s| ==> IsWhiteSpace(s[k])
  {
    var i, j := TrimBounds(s);
    var a := TrimStart(s);
    var t := Trim(s);
    if t == [] {
      assert i == j;
      forall k | 0 <= k < |s|
        ensures IsWhiteSpace(s[k])
      {
        if i <= k {
          assert j <= k;
        }
      }
    } else {
      assert t == TrimEnd(a);
      assert a[0] == t[0];
      assert !IsWhiteSpace(s[i]);
    }
  }

  lemma TrimIdempotent(s: string)
    ensures Trim(Trim(s)) == Trim(s)
  {
    var t := Trim(s);
    TrimSpec(s);
    if t != [] {
      assert TrimStart(t) == t;
      assert TrimEnd(t) == t;
    }
  }

  predicate IsHexDigit(c: char)
  {
    ('0' <= c <= '9') || ('a' <= c <= 'f') || ('A' <= c <= 'F')
  }

  /** The regular expression `^#([0-9a-fA-F]{6}|[0-9a-fA-F]{8})$`. */
  predicate IsHexColor(s: string)
  {
    (|s| == 7 || |s| == 9) && s[0] == '#' && forall i :: 1 <= i < |s| ==> IsHexDigit(s[i])
  }

  /** A value whose trimmed text is a hex colour is a string that is one once trimmed. */
  lemma TrimmedHexColor(v: JsValue)
    ensures IsHexColor(TrimmedText(v)) <==> v.Str? && IsHexColor(Trim(v.s))
  {
    assert !IsHexColor("");
  }

  /** A colour that matches the pattern has nothing for `trim` to remove. */
  lemma HexColorTrimmed(s: string)
    requires IsHexColor(s)
    ensures Trim(s) == s
  {
    assert !IsWhiteSpace(s[0]);
    assert TrimStart(s) == s;
    assert IsHexDigit(s[|s| - 1]);
  }

  /** `Array.from(new Set(xs))`: every value once, in the order it was first added. */
  function Dedup(xs: seq<int>): (r: seq<int>)
    ensures forall x :: x in r <==> x in xs
    ensures NoDuplicates(r)
    ensures |r| <= |xs|
  {
    DedupFrom([], xs)
  }

  /** The Set's content after adding `xs` to a Set already holding `seen`, in order. */
  function DedupFrom(seen: seq<int>, xs: seq<int>): (r: seq<int>)
    requires NoDuplicates(seen)
    ensures forall x :: x in r <==> x in seen || x in xs
    ensures NoDuplicates(r)
    ensures |seen| <= |r| <= |seen| + |xs|
    ensures r[..|seen|] == seen
    decreases |xs|
  {
    if xs == [] then seen
    else if xs[0] in seen then DedupFrom(seen, xs[1..])
    else DedupFrom(seen + [xs[0]], xs[1..])
  }

  predicate NoDuplicates(xs: seq<int>)
  {
    forall i, j :: 0 <= i < j < |xs| ==> xs[i] != xs[j]
  }

  /** A sequence without duplicates passes through a Set unchanged. */
  lemma {:induction false} DedupFromNoDuplicates(seen: seq<int>, xs: seq<int>)
    requires NoDuplicates(seen) && NoDuplicates(seen + xs)
    ensures DedupFrom(seen, xs) == seen + xs
    decreases |xs|
  {
    if xs != [] {
      assert xs[0] !in seen by {
        forall i | 0 <= i < |seen| ensures seen[i] != xs[0] {
          assert (seen + xs)[i] == seen[i] && (seen + xs)[|seen|] == xs[0];
        }
      }
      assert (seen + [xs[0]]) + xs[1..] == seen + xs;
      DedupFromNoDuplicates(seen + [xs[0]], xs[1..]);
    }
  }

  lemma DedupIdempotent(xs: seq<int>)
    ensures Dedup(Dedup(xs)) == Dedup(xs)
  {
    var r := Dedup(xs);
    assert [] + r == r;
    DedupFromNoDuplicates([], r);
  }

  /** Index of the first occurrence of `x` in `xs`. */
  function FirstIndex(xs: seq<int>, x: int): (i: nat)
    requires x in xs
    ensures i < |xs| && xs[i] == x && x !in xs[..i]
  {
    if xs[0] == x then 0 else 1 + FirstIndex(xs[1..], x)
  }

  /**
   * First-occurrence order: in a deduplicated sequence, a value that comes
   * before another also first occurs before it in the input.
   */
  lemma {:induction false} DedupFromOrder(seen: seq<int>, xs: seq<int>, i: nat, j: nat)
    requires NoDuplicates(seen)
    requires |seen| <= i < j < |DedupFrom(seen, xs)|
    ensures DedupFrom(seen, xs)[i] in xs && DedupFrom(seen, xs)[j] in xs
    ensures FirstIndex(xs, DedupFrom(seen, xs)[i]) < FirstIndex(xs, DedupFrom(seen, xs)[j])
    decreases |xs|
  {
    var r := DedupFrom(seen, xs);
    assert r[..|seen|] == seen;
    assert r[i] !in seen && r[j] !in seen by {
      forall k | 0 <= k < |seen| ensures seen[k] != r[i] && seen[k] != r[j] {
        assert r[k] == seen[k];
      }
    }
    if xs[0] in seen {
      DedupFromOrder(seen, xs[1..], i, j);
      assert xs[0] != r[i] && xs[0] != r[j];
    } else {
      var seen' := seen + [xs[0]];
      assert DedupFrom(seen', xs[1..]) == r;
      if i == |seen| {
        assert r[i] == xs[0] by { assert r[..|seen'|] == seen'; }
        assert r[j] != r[i];
        assert FirstIndex(xs, r[i]) == 0;
      } else {
        assert r[i] != xs[0] && r[j] != xs[0] by {
          assert r[..|seen'|] == seen';
          assert r[|seen|] == xs[0];
        }
        DedupFromOrder(seen', xs[1..], i, j);
      }
    }
  }

  lemma DedupOrder(xs: seq<int>, i: nat, j: nat)
    requires i < j < |Dedup(xs)|
    ensures FirstIndex(xs, Dedup(xs)[i]) < FirstIndex(xs, Dedup(xs)[j])
  {
    DedupFromOrder([], xs, i, j);
  }

  /** `s.split(sep)` for a one-character separator. */
  function Split(s: string, sep: char): (parts: seq<string>)
    ensures |parts| >= 1
  {
    if s == [] then [""]
    else
      var rest := Split(s[1..], sep);
      if s[0] == sep then [""] + rest else [[s[0]] + rest[0]] + rest[1..]
  }

  lemma {:induction false} SplitNoSeparator(a: string, sep: char)
    requires sep !in a
    ensures Split(a, sep) == [a]
  {
    if a != [] {
      SplitNoSeparator(a[1..], sep);
      assert [a[0]] + a[1..] == a;
    }
  }

  lemma {:induction false} SplitAtSeparator(a: string, sep: char, b: string)
    requires sep !in a
    ensures Split(a + [sep] + b, sep) == [a] + Split(b, sep)
  {
    if a == [] {
      assert a + [sep] + b == [sep] + b;
      assert ([sep] + b)[1..] == b;
    } else {
      var s := a + [sep] + b;
      assert s[1..] == a[1..] + [sep] + b;
      SplitAtSeparator(a[1..], sep, b);
      assert [a[0]] + a[1..] == a;
    }
  }

  /** Three parts without the separator, joined by it, split back into those three parts. */
  lemma SplitThree(a: string, b: string, c: string, sep: char)
    requires sep !in a && sep !in b && sep !in c
    ensures Split(a + [sep] + b + [sep] + c, sep) == [a, b, c]
  {
    assert a + [sep] + b + [sep] + c == a + [sep] + (b + [sep] + c);
    SplitAtSeparator(a, sep, b + [sep] + c);
    SplitAtSeparator(b, sep, c);
    SplitNoSeparator(c, sep);
  }

  /** `xs.join(sep)`. */
  function Join(xs: seq<string>, sep: string): string
  {
    if xs == [] then ""
    else if |xs| == 1 then xs[0]
    else xs[0] + sep + Join(xs[1..], sep)
  }

  /** `xs` is `ys` with some elements removed, in order. */
  predicate IsSubsequence<T(==)>(xs: seq<T>, ys: seq<T>)
  {
    xs == [] || (ys != [] && ((xs[0] == ys[0] && IsSubsequence(xs[1..], ys[1..])) || IsSubsequence(xs, ys[1..])))
  }

  /** Dropping elements from the front of the larger sequence keeps a subsequence. */
  lemma {:induction false} SubsequenceOfSuffix<T>(xs: seq<T>, ys: seq<T>, ws: seq<T>)
    requires IsSubsequence(xs, ws)
    ensures IsSubsequence(xs, ys + ws)
    decreases |ys|
  {
    if ys == [] {
      assert ys + ws == ws;
    } else if xs != [] {
      assert (ys + ws)[1..] == ys[1..] + ws;
      SubsequenceOfSuffix(xs, ys[1..], ws);
    }
  }

  /** Subsequences of two sequences concatenate to a subsequence of their concatenation. */
  lemma {:induction false} SubsequenceAppend<T>(xs: seq<T>, ys: seq<T>, zs: seq<T>, ws: seq<T>)
    requires IsSubsequence(xs, ys) && IsSubsequence(zs, ws)
    ensures IsSubsequence(xs + zs, ys + ws)
    decreases |ys|
  {
    if xs == [] {
      assert xs + zs == zs;
      SubsequenceOfSuffix(zs, ys, ws);
    } else {
      assert (xs + zs)[0] == xs[0] && (xs + zs)[1..] == xs[1..] + zs;
      assert (ys + ws)[0] == ys[0] && (ys + ws)[1..] == ys[1..] + ws;
      if xs[0] == ys[0] && IsSubsequence(xs[1..], ys[1..]) {
        SubsequenceAppend(xs[1..], ys[1..], zs, ws);
      } else {
        SubsequenceAppend(xs, ys[1..], zs, ws);
      }
    }
  }
}
