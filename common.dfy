/** Helpers shared by the whole model: optional values, the JavaScript string
    operations the scripts rely on, and the plain-object dictionaries they fill. */
module Common {

  datatype Option<+T> = None | Some(value: T)

  /** A string-or-null JavaScript treats as true: present and not empty. */
  predicate Truthy(u: Option<string>) {
    u.Some? && u.value != ""
  }

  // ---------------------------------------------------------------------------
  // Strings

  /** String.prototype.toLowerCase, restricted to the ASCII letters. */
  function LowerChar(c: char): char {
    if 'A' <= c <= 'Z' then (c as int + 32) as char else c
  }

  function Lower(s: string): string {
    seq(|s|, i requires 0 <= i < |s| => LowerChar(s[i]))
  }

  /** WhiteSpace and LineTerminator code points, the set String.prototype.trim removes. */
  predicate IsJsSpace(c: char) {
    || c == '\t' || c == '\n' || c == '\U{B}' || c == '\U{C}' || c == '\r' || c == ' '
    || c == '\U{A0}' || c == '\U{1680}' || ('\U{2000}' <= c <= '\U{200A}')
    || c == '\U{2028}' || c == '\U{2029}' || c == '\U{202F}' || c == '\U{205F}'
    || c == '\U{3000}' || c == '\U{FEFF}'
  }

  /** String.prototype.trimStart. */
  function TrimStart(s: string): string {
    if s != [] && IsJsSpace(s[0]) then TrimStart(s[1..]) else s
  }

  /** String.prototype.trimEnd. */
  function TrimEnd(s: string): string {
    if s != [] && IsJsSpace(s[|s| - 1]) then TrimEnd(s[..|s| - 1]) else s
  }

  /** trimStart removes exactly the leading white space: what is left is a
      suffix that does not start with a space, and everything cut was a space. */
  lemma TrimStartSpec(s: string)
    ensures |TrimStart(s)| <= |s| && TrimStart(s) == s[|s| - |TrimStart(s)|..]
    ensures TrimStart(s) == [] || !IsJsSpace(TrimStart(s)[0])
    ensures forall i :: 0 <= i < |s| - |TrimStart(s)| ==> IsJsSpace(s[i])
  {
    TrimStartSuffix(s);
    TrimStartStops(s);
    TrimStartCut(s);
  }

  lemma {:induction false} TrimStartSuffix(s: string)
    ensures |TrimStart(s)| <= |s| && TrimStart(s) == s[|s| - |TrimStart(s)|..]
  {
    if s != [] && IsJsSpace(s[0]) {
      TrimStartSuffix(s[1..]);
    }
  }

  lemma {:induction false} TrimStartStops(s: string)
    ensures TrimStart(s) == [] || !IsJsSpace(TrimStart(s)[0])
  {
    if s != [] && IsJsSpace(s[0]) {
      TrimStartStops(s[1..]);
    }
  }

  lemma {:induction false} TrimStartCut(s: string)
    ensures forall i :: 0 <= i < |s| - |TrimStart(s)| ==> IsJsSpace(s[i])
  {
    if s != [] && IsJsSpace(s[0]) {
      TrimStartCut(s[1..]);
      forall i | 1 <= i < |s| - |TrimStart(s)| ensures IsJsSpace(s[i]) {
        assert s[i] == s[1..][i - 1];
      }
    }
  }

  /** trimEnd removes exactly the trailing white space. */
  lemma {:induction false} TrimEndSpec(s: string)
    ensures |TrimEnd(s)| <= |s| && TrimEnd(s) == s[..|TrimEnd(s)|]
    ensures TrimEnd(s) == [] || !IsJsSpace(TrimEnd(s)[|TrimEnd(s)| - 1])
    ensures forall i :: |TrimEnd(s)| <= i < |s| ==> IsJsSpace(s[i])
  {
    if s != [] && IsJsSpace(s[|s| - 1]) {
      TrimEndSpec(s[..|s| - 1]);
    }
  }

  /** String.prototype.trim. */
  function Trim(s: string): string {
    TrimEnd(TrimStart(s))
  }

  /** `s.toLowerCase().trim()`, the email normalisation used by every script. */
  function NormalizeEmail(s: string): string {
    Trim(Lower(s))
  }

  /** Normalising an email again changes nothing: the result has no ASCII
      capital and no white space at either end. */
  lemma NormalizeEmailSpec(s: string)
    ensures forall i :: 0 <= i < |NormalizeEmail(s)| ==> !('A' <= NormalizeEmail(s)[i] <= 'Z')
    ensures NormalizeEmail(s) == [] ||
            (!IsJsSpace(NormalizeEmail(s)[0]) && !IsJsSpace(NormalizeEmail(s)[|NormalizeEmail(s)| - 1]))
    ensures NormalizeEmail(NormalizeEmail(s)) == NormalizeEmail(s)
  {
    NormalizedShape(s);
    LowerFixed(NormalizeEmail(s));
    TrimmedFixed(NormalizeEmail(s));
  }

  /** The normalised email has no ASCII capital and no space at either end. */
  lemma NormalizedShape(s: string)
    ensures forall i :: 0 <= i < |NormalizeEmail(s)| ==> !('A' <= NormalizeEmail(s)[i] <= 'Z')
    ensures NormalizeEmail(s) == [] ||
            (!IsJsSpace(NormalizeEmail(s)[0]) && !IsJsSpace(NormalizeEmail(s)[|NormalizeEmail(s)| - 1]))
  {
    TrimKeeps(Lower(s));
    TrimEnds(Lower(s));
  }

  /** Every character of the trimmed text is a character of the text. */
  lemma TrimKeeps(x: string)
    ensures forall i :: 0 <= i < |Trim(x)| ==> Trim(x)[i] in x
  {
    var u := TrimStart(x);
    TrimStartSpec(x);
    TrimEndSpec(u);
    var a := |x| - |u|;
    forall i | 0 <= i < |Trim(x)| ensures Trim(x)[i] in x {
      assert Trim(x)[i] == u[i] == x[a + i];
    }
  }

  /** The trimmed text neither starts nor ends with a space. */
  lemma TrimEnds(x: string)
    ensures Trim(x) == [] || (!IsJsSpace(Trim(x)[0]) && !IsJsSpace(Trim(x)[|Trim(x)| - 1]))
  {
    var u := TrimStart(x);
    TrimStartSpec(x);
    TrimEndSpec(u);
    var t := TrimEnd(u);
    if t != [] {
      assert t[0] == u[0];
    }
  }

  /** A string without ASCII capitals is its own lower case. */
  lemma LowerFixed(t: string)
    requires forall i :: 0 <= i < |t| ==> !('A' <= t[i] <= 'Z')
    ensures Lower(t) == t
  {
    assert forall i :: 0 <= i < |t| ==> Lower(t)[i] == t[i];
  }

  /** A string with no space at either end is its own trim. */
  lemma TrimmedFixed(t: string)
    requires t == [] || (!IsJsSpace(t[0]) && !IsJsSpace(t[|t| - 1]))
    ensures Trim(t) == t
  {
  }

  /** Concatenation regrouped; the text pieces are kept opaque here, which keeps
      the proofs that grow long strings small. */
  lemma Assoc(a: string, b: string, c: string)
    ensures (a + b) + c == a + (b + c)
  {
  }

  predicate StartsWith(s: string, prefix: string) {
    |prefix| <= |s| && s[..|prefix|] == prefix
  }

  /** String.prototype.includes. */
  predicate Contains(s: string, part: string) {
    StartsWith(s, part) || (s != [] && Contains(s[1..], part))
  }

  function DigitChar(d: nat): char
    requires d < 10
  {
    "0123456789"[d]
  }

  /** The decimal text JavaScript gives a non-negative integer. */
  function NatToString(n: nat): (r: string)
    ensures |r| >= 1
    ensures forall i :: 0 <= i < |r| ==> '0' <= r[i] <= '9'
    ensures r[0] == '0' ==> n == 0
  {
    if n < 10 then [DigitChar(n)] else NatToString(n / 10) + [DigitChar(n % 10)]
  }

  lemma DigitCharValue(d: nat)
    requires d < 10
    ensures DigitChar(d) as int - '0' as int == d
  {
    if d == 0 {} else if d == 1 {} else if d == 2 {} else if d == 3 {} else if d == 4 {}
    else if d == 5 {} else if d == 6 {} else if d == 7 {} else if d == 8 {} else {}
  }

  /** The decimal text of `n` denotes `n`. */
  lemma {:induction false} NatToStringValue(n: nat)
    ensures DecimalValue(NatToString(n)) == n
  {
    var s := NatToString(n);
    if n < 10 {
      DigitCharValue(n);
      assert s[..0] == [];
    } else {
      NatToStringValue(n / 10);
      DigitCharValue(n % 10);
      assert s[..|s| - 1] == NatToString(n / 10);
    }
  }

  function IntToString(i: int): string {
    if i < 0 then "-" + NatToString(-i) else NatToString(i)
  }

  // ---------------------------------------------------------------------------
  // Plain JavaScript objects used as dictionaries

  /** Value of a string of decimal digits. */
  function DecimalValue(s: string): nat
    requires forall i :: 0 <= i < |s| ==> '0' <= s[i] <= '9'
  {
    if s == [] then 0 else DecimalValue(s[..|s| - 1]) * 10 + (s[|s| - 1] as int - '0' as int)
  }

  /** An array index (ECMA-262, section 6.1.7): the canonical decimal text of an
      integer below 2^32 - 1. Own keys of this kind are enumerated first, in
      numeric order, not in insertion order. */
  predicate IsArrayIndex(s: string) {
    && |s| > 0
    && (forall i :: 0 <= i < |s| ==> '0' <= s[i] <= '9')
    && (s[0] == '0' ==> |s| == 1)
    && DecimalValue(s) < 0xFFFF_FFFF
  }

  /** Property names every plain object inherits from Object.prototype. */
  const InheritedNames: set<string> := {
    "constructor", "hasOwnProperty", "isPrototypeOf", "propertyIsEnumerable",
    "toLocaleString", "toString", "valueOf", "__proto__",
    "__defineGetter__", "__defineSetter__", "__lookupGetter__", "__lookupSetter__"
  }

  /** A key that a plain object stores as an ordinary own property and enumerates
      in insertion order. */
  predicate PlainKey(s: string) {
    !IsArrayIndex(s) && s !in InheritedNames
  }

  /** A plain object written with `obj[k] = v`: its keys in enumeration order and
      its values. */
  datatype Dict<V> = Dict(keys: seq<string>, values: map<string, V>) {

    ghost predicate Valid() {
      && (forall i, j :: 0 <= i < j < |keys| ==> keys[i] != keys[j])
      && (forall k :: k in values <==> k in keys)
    }

    /** `obj[k] = v`: a new key goes to the end, an existing key keeps its place. */
    function Put(k: string, v: V): (d: Dict<V>)
      requires Valid()
      ensures d.Valid()
      ensures d.values == values[k := v]
      ensures d.keys == if k in values then keys else keys + [k]
    {
      if k in values then Dict(keys, values[k := v]) else Dict(keys + [k], values[k := v])
    }
  }

  function EmptyDict<V>(): (d: Dict<V>)
    ensures d.Valid()
  {
    Dict([], map[])
  }

  /** `obj[keys[i]] = vals[i]` for each i in turn, from an empty object. */
  function PutAll<V>(keys: seq<string>, vals: seq<V>): (d: Dict<V>)
    requires |keys| == |vals|
    ensures d.Valid()
  {
    if keys == [] then EmptyDict()
    else
      var n := |keys| - 1;
      PutAll(keys[..n], vals[..n]).Put(keys[n], vals[n])
  }

  lemma PutAllSnoc<V>(keys: seq<string>, vals: seq<V>, i: nat)
    requires |keys| == |vals| && i < |keys|
    ensures PutAll(keys[..i + 1], vals[..i + 1]) == PutAll(keys[..i], vals[..i]).Put(keys[i], vals[i])
  {
    assert keys[..i + 1][..i] == keys[..i] && vals[..i + 1][..i] == vals[..i];
  }

  /** With distinct keys, the keys in order, each holding its own value. */
  lemma PutAllDistinct<V>(keys: seq<string>, vals: seq<V>)
    requires |keys| == |vals|
    requires forall i, j :: 0 <= i < j < |keys| ==> keys[i] != keys[j]
    ensures PutAll(keys, vals).keys == keys
    ensures forall i :: 0 <= i < |keys| ==> PutAll(keys, vals).values[keys[i]] == vals[i]
  {
    PutAllKeys(keys, vals);
    PutAllLast(keys, vals);
  }

  lemma {:induction false} PutAllKeys<V>(keys: seq<string>, vals: seq<V>)
    requires |keys| == |vals|
    requires forall i, j :: 0 <= i < j < |keys| ==> keys[i] != keys[j]
    ensures PutAll(keys, vals).keys == keys
  {
    if keys != [] {
      var n := |keys| - 1;
      var init := keys[..n];
      PutAllKeys(init, vals[..n]);
      assert keys[n] !in init;
      Snoc(keys);
    }
  }

  lemma Snoc<T>(s: seq<T>)
    requires s != []
    ensures s == s[..|s| - 1] + [s[|s| - 1]]
  {
  }

  /** Every key is present and holds the value of its last write. */
  lemma PutAllLast<V>(keys: seq<string>, vals: seq<V>)
    requires |keys| == |vals|
    ensures forall i :: 0 <= i < |keys| ==> keys[i] in PutAll(keys, vals).values
    ensures forall i :: 0 <= i < |keys| && (forall j :: i < j < |keys| ==> keys[j] != keys[i]) ==>
      PutAll(keys, vals).values[keys[i]] == vals[i]
    ensures forall k :: k in PutAll(keys, vals).values ==>
      exists i :: 0 <= i < |keys| && keys[i] == k && PutAll(keys, vals).values[k] == vals[i]
  {
    PutAllHas(keys, vals);
    PutAllLastValue(keys, vals);
    PutAllWitness(keys, vals);
  }

  lemma {:induction false} PutAllHas<V>(keys: seq<string>, vals: seq<V>)
    requires |keys| == |vals|
    ensures forall i :: 0 <= i < |keys| ==> keys[i] in PutAll(keys, vals).values
  {
    if keys != [] {
      var n := |keys| - 1;
      PutAllHas(keys[..n], vals[..n]);
      forall i | 0 <= i < n ensures keys[i] in PutAll(keys, vals).values {
        assert keys[..n][i] == keys[i];
      }
    }
  }

  /** A key that does not occur again holds the value paired with it. */
  lemma {:induction false} PutAllLastValue<V>(keys: seq<string>, vals: seq<V>)
    requires |keys| == |vals|
    ensures forall i :: 0 <= i < |keys| && (forall j :: i < j < |keys| ==> keys[j] != keys[i]) ==>
      keys[i] in PutAll(keys, vals).values && PutAll(keys, vals).values[keys[i]] == vals[i]
  {
    if keys != [] {
      var n := |keys| - 1;
      var d := PutAll(keys, vals);
      PutAllLastValue(keys[..n], vals[..n]);
      forall i | 0 <= i < n && (forall j :: i < j < |keys| ==> keys[j] != keys[i])
        ensures keys[i] in d.values && d.values[keys[i]] == vals[i]
      {
        assert keys[..n][i] == keys[i] && vals[..n][i] == vals[i];
        forall j | i < j < n ensures keys[..n][j] != keys[..n][i] {
          assert keys[..n][j] == keys[j];
        }
        assert keys[n] != keys[i];
      }
    }
  }

  /** Every key holds a value paired with it. */
  lemma {:induction false} PutAllWitness<V>(keys: seq<string>, vals: seq<V>)
    requires |keys| == |vals|
    ensures forall k :: k in PutAll(keys, vals).values ==>
      exists i :: 0 <= i < |keys| && keys[i] == k && PutAll(keys, vals).values[k] == vals[i]
  {
    if keys != [] {
      var n := |keys| - 1;
      var prev := PutAll(keys[..n], vals[..n]);
      var d := PutAll(keys, vals);
      PutAllWitness(keys[..n], vals[..n]);
      forall k | k in d.values
        ensures exists i :: 0 <= i < |keys| && keys[i] == k && d.values[k] == vals[i]
      {
        if k != keys[n] {
          var i :| 0 <= i < n && keys[..n][i] == k && prev.values[k] == vals[..n][i];
          assert keys[i] == k && d.values[k] == vals[i];
        }
      }
    }
  }

  /** Whether `obj[k]` is truthy for an object loaded from JSON whose own entries
      are `m` and whose values are all truthy: inherited members of
      Object.prototype are functions or objects, hence truthy too. */
  predicate InheritedOrPresent<V>(m: map<string, V>, k: string) {
    k in m || k in InheritedNames
  }
}
