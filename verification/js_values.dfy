/**
  The JavaScript values the front end reads out of parsed JSON and contract results,
  with the handful of language operations its decision logic relies on: truthiness,
  property reads (`v[key]`, `v?.key`), `Object.keys(v).length` and object spread.
  Numbers are integers; floating point and `NaN` are not part of this model.
 */
module JsValues {
  import opened Options

  datatype JsValue =
    | Undefined
    | Null
    | Bool(b: bool)
    | Num(n: int)
    | Str(s: string)
    | Arr(elems: seq<JsValue>)
    | Obj(fields: map<string, JsValue>)

  /** JavaScript truthiness, as used by `if (v)`, `!v`, `v && w` and `Boolean(v)`. */
  predicate Truthy(v: JsValue)
  {
    match v
    case Undefined => false
    case Null => false
    case Bool(b) => b
    case Num(n) => n != 0
    case Str(s) => s != ""
    case Arr(_) => true
    case Obj(_) => true
  }

  /** `v === null || v === undefined`: the values on which `?.` stops and `.key` throws. */
  predicate Nullish(v: JsValue)
  {
    v.Undefined? || v.Null?
  }

  // ---------------------------------------------------------------------------
  // Decimal keys: `obj[56]` reads the property named "56".

  predicate IsDigit(c: char)
  {
    '0' <= c <= '9'
  }

  function DigitValue(c: char): nat
    requires IsDigit(c)
  {
    c as int - '0' as int
  }

  function DigitChar(d: nat): (c: char)
    requires d < 10
    ensures IsDigit(c) && DigitValue(c) == d
  {
    ('0' as int + d) as char
  }

  /** The decimal spelling `String(n)` gives a non-negative integer. */
  function NatToString(n: nat): (s: string)
    ensures |s| >= 1
  {
    if n < 10 then [DigitChar(n)] else NatToString(n / 10) + [DigitChar(n % 10)]
  }

  predicate AllDigits(s: string)
  {
    forall i :: 0 <= i < |s| ==> IsDigit(s[i])
  }

  function DigitsValue(s: string): nat
    requires AllDigits(s)
  {
    if s == [] then 0 else DigitsValue(s[..|s| - 1]) * 10 + DigitValue(s[|s| - 1])
  }

  /** A canonical array-index property name: "0", or digits without a leading zero. */
  predicate IsIndexKey(k: string)
  {
    |k| >= 1 && AllDigits(k) && (|k| == 1 || k[0] != '0')
  }

  /** The decimal spelling of a number is an index key that denotes that number. */
  lemma {:induction false} NatToStringIsIndexKey(n: nat)
    ensures IsIndexKey(NatToString(n))
    ensures DigitsValue(NatToString(n)) == n
    ensures n > 0 ==> NatToString(n)[0] != '0'
  {
    var s := NatToString(n);
    if n >= 10 {
      var p := NatToString(n / 10);
      NatToStringIsIndexKey(n / 10);
      assert s == p + [DigitChar(n % 10)];
      assert s[..|s| - 1] == p;
      assert forall i :: 0 <= i < |s| ==> IsDigit(s[i]) by {
        forall i | 0 <= i < |s| ensures IsDigit(s[i]) {
          if i < |p| { assert s[i] == p[i]; }
        }
      }
      assert s[0] == p[0];
    }
  }

  /** A non-empty digit string with a non-zero first digit denotes a positive number. */
  lemma {:induction false} LeadingDigitPositive(k: string)
    requires |k| >= 1 && AllDigits(k) && k[0] != '0'
    ensures DigitsValue(k) >= 1
  {
    if |k| > 1 {
      var p := k[..|k| - 1];
      assert p[0] == k[0];
      LeadingDigitPositive(p);
    }
  }

  /** Every index key is the decimal spelling of the number it denotes. */
  lemma {:induction false} IndexKeyIsNatToString(k: string)
    requires IsIndexKey(k)
    ensures NatToString(DigitsValue(k)) == k
  {
    var v := DigitsValue(k);
    if |k| == 1 {
      assert k[..0] == [] && DigitsValue(k[..0]) == 0;
      assert v == DigitsValue(k[..0]) * 10 + DigitValue(k[0]);
      assert k == [DigitChar(v)];
    } else {
      var p := k[..|k| - 1];
      assert p[0] == k[0];
      assert IsIndexKey(p);
      LeadingDigitPositive(p);
      IndexKeyIsNatToString(p);
      var d := DigitValue(k[|k| - 1]);
      assert v == DigitsValue(p) * 10 + d;
      assert v / 10 == DigitsValue(p) && v % 10 == d;
      assert k == p + [k[|k| - 1]];
    }
  }

  lemma NatToStringInjective()
    ensures forall a: nat, b: nat :: NatToString(a) == NatToString(b) ==> a == b
  {
    forall a: nat, b: nat | NatToString(a) == NatToString(b) ensures a == b {
      NatToStringIsIndexKey(a);
      NatToStringIsIndexKey(b);
    }
  }

  // ---------------------------------------------------------------------------
  // Property reads.

  /**
    Reading an own property `v[key]` (also `v.key` and `v?.key` once `v` is not nullish):
    the members of an object, the elements of an array and the characters of a string
    under their index keys; every other read gives `undefined`. Members inherited from
    the prototypes are not part of this model.
   */
  function Get(v: JsValue, key: string): JsValue
  {
    match v
    case Obj(m) => if key in m then m[key] else Undefined
    case Arr(e) => if IsIndexKey(key) && DigitsValue(key) < |e| then e[DigitsValue(key)] else Undefined
    case Str(s) => if IsIndexKey(key) && DigitsValue(key) < |s| then Str([s[DigitsValue(key)]]) else Undefined
    case _ => Undefined
  }

  /** `v[n]` for a numeric key, such as `contracts[chainId]`. */
  function Index(v: JsValue, n: nat): JsValue
  {
    Get(v, NatToString(n))
  }

  /** A numeric read of an array is its element at that position. */
  lemma IndexOfArray(e: seq<JsValue>, n: nat)
    ensures Index(Arr(e), n) == if n < |e| then e[n] else Undefined
  {
    NatToStringIsIndexKey(n);
  }

  /** A numeric read of an object is the member named by the number's decimal spelling. */
  lemma IndexOfObject(m: map<string, JsValue>, n: nat)
    ensures Index(Obj(m), n) == if NatToString(n) in m then m[NatToString(n)] else Undefined
  {
  }

  /** `Object.keys(v).length`. */
  function KeyCount(v: JsValue): nat
  {
    match v
    case Obj(m) => |m.Keys|
    case Arr(e) => |e|
    case Str(s) => |s|
    case _ => 0
  }

  /** The characters of a string as one-character strings. */
  function Chars(s: string): (r: seq<JsValue>)
    ensures |r| == |s|
    ensures forall i :: 0 <= i < |s| ==> r[i] == Str([s[i]])
  {
    seq(|s|, i requires 0 <= i < |s| => Str([s[i]]))
  }

  /** The entries `{...e}` copies out of an array (or of a string's characters). */
  function ElementEntries(e: seq<JsValue>): (m: map<string, JsValue>)
    ensures forall k :: k in m <==> IsIndexKey(k) && DigitsValue(k) < |e|
    ensures forall k :: k in m ==> IsIndexKey(k) && DigitsValue(k) < |e| && m[k] == e[DigitsValue(k)]
  {
    var keys := set i | 0 <= i < |e| :: NatToString(i);
    var m := map k | k in keys :: (NatToStringIsIndexKeyAll(); e[DigitsValue(k)]);
    assert forall k :: k in m <==> IsIndexKey(k) && DigitsValue(k) < |e| by {
      forall k ensures k in m <==> IsIndexKey(k) && DigitsValue(k) < |e| {
        if IsIndexKey(k) && DigitsValue(k) < |e| {
          IndexKeyIsNatToString(k);
          assert NatToString(DigitsValue(k)) in keys;
        }
        if k in keys {
          NatToStringIsIndexKeyAll();
        }
      }
    }
    m
  }

  lemma NatToStringIsIndexKeyAll()
    ensures forall n: nat {:trigger NatToString(n)} :: IsIndexKey(NatToString(n)) && DigitsValue(NatToString(n)) == n
  {
    forall n: nat ensures IsIndexKey(NatToString(n)) && DigitsValue(NatToString(n)) == n {
      NatToStringIsIndexKey(n);
    }
  }

  /** The own enumerable entries object spread `{...v}` copies; nullish and other primitive values give none. */
  function OwnEntries(v: JsValue): (m: map<string, JsValue>)
    ensures forall k :: k in m ==> Get(v, k) == m[k]
    ensures forall k :: k !in m ==> Get(v, k) == Undefined
  {
    match v
    case Obj(m) => m
    case Arr(e) => ElementEntries(e)
    case Str(s) => ElementEntries(Chars(s))
    case _ => map[]
  }

  // ---------------------------------------------------------------------------
  // Strings.

  /** ASCII lower-casing of one character, the part of `toLowerCase` that hex addresses need. */
  function LowerChar(c: char): char
  {
    if 'A' <= c <= 'Z' then (c as int - 'A' as int + 'a' as int) as char else c
  }

  /** `s.toLowerCase()` on ASCII text. */
  function ToLower(s: string): (r: string)
    ensures |r| == |s|
    ensures forall i :: 0 <= i < |s| ==> r[i] == LowerChar(s[i])
  {
    seq(|s|, i requires 0 <= i < |s| => LowerChar(s[i]))
  }

  /** Lower-casing twice is lower-casing once. */
  lemma ToLowerIdempotent(s: string)
    ensures ToLower(ToLower(s)) == ToLower(s)
  {
  }
}
