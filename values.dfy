/**
 * The runtime values of src/value.rs: the `Value` enum, its `Display`
 * text, truthiness and type names.
 *
 * Floats are carried as their IEEE 754 bit pattern; their text is left to
 * the `Platform`, as is the order in which a `HashMap` yields its entries,
 * which the source does not fix.
 */
module Values {
  /** Rust's `i64`. */
  newtype i64 = x: int | -0x8000_0000_0000_0000 <= x < 0x8000_0000_0000_0000

  datatype Value =
    | Null
    | Boolean(b: bool)
    | Integer(i: i64)
    | Float(bits: bv64)
    | String(s: string)
    | Array(elements: seq<Value>)
    | Map(entries: map<string, Value>)

  /**
   * What the model leaves open: how a float is written, and the order in
   * which a map yields its keys.
   */
  datatype Platform = Platform(showFloat: bv64 -> string, keyOrder: map<string, Value> -> seq<string>)

  // ---------------------------------------------------------------------
  // Decimal text of an integer
  // ---------------------------------------------------------------------

  function DigitChar(d: nat): (c: char)
    requires d < 10
    ensures '0' <= c <= '9'
  {
    "0123456789"[d]
  }

  function DigitValue(c: char): nat
    requires '0' <= c <= '9'
  {
    (c - '0') as nat
  }

  /** The decimal digits of `n`, most significant first, without leading zeros. */
  function NatText(n: nat): (r: string)
    ensures |r| > 0 && forall k :: 0 <= k < |r| ==> '0' <= r[k] <= '9'
    ensures |r| > 1 ==> r[0] != '0'
  {
    if n < 10 then [DigitChar(n)] else NatText(n / 10) + [DigitChar(n % 10)]
  }

  /**
   * Rust's `{}` for an integer: a `-` exactly for a negative number, then
   * decimal digits with no leading zero.
   */
  function IntText(i: int): (r: string)
    ensures |r| > 0 && (r[0] == '-' <==> i < 0)
    ensures forall k :: (if i < 0 then 1 else 0) <= k < |r| ==> '0' <= r[k] <= '9'
    ensures var start := if i < 0 then 1 else 0; |r| > start + 1 ==> r[start] != '0'
  {
    if i < 0 then "-" + NatText(-i) else NatText(i)
  }

  /** The number a string of decimal digits denotes. */
  function DigitsValue(s: string): nat
    requires forall k :: 0 <= k < |s| ==> '0' <= s[k] <= '9'
  {
    if s == [] then 0 else DigitsValue(s[..|s| - 1]) * 10 + DigitValue(s[|s| - 1])
  }

  /** Reads back an integer's text: an optional `-`, then digits. */
  function ParseInt(s: string): int
    requires |s| > 0
    requires forall k :: (if s[0] == '-' then 1 else 0) <= k < |s| ==> '0' <= s[k] <= '9'
  {
    if s[0] == '-' then -(DigitsValue(s[1..]) as int) else DigitsValue(s)
  }

  lemma {:induction false} DigitsValueOfNatText(n: nat)
    ensures DigitsValue(NatText(n)) == n
  {
    if n >= 10 {
      var s := NatText(n);
      assert s[..|s| - 1] == NatText(n / 10);
      DigitsValueOfNatText(n / 10);
    }
  }

  /** The decimal text of an integer reads back as that integer. */
  lemma IntTextRoundTrip(i: int)
    ensures var s := IntText(i); |s| > 0 && ParseInt(s) == i
  {
    if i < 0 {
      var digits := NatText(-i);
      var s := "-" + digits;
      assert s[1..] == digits;
      assert s[0] == '-';
      DigitsValueOfNatText(-i);
    } else {
      var s := NatText(i);
      assert s[0] != '-';
      DigitsValueOfNatText(i);
    }
  }

  /** Different integers have different texts. */
  lemma IntTextInjective(i: int, j: int)
    requires IntText(i) == IntText(j)
    ensures i == j
  {
    IntTextRoundTrip(i);
    IntTextRoundTrip(j);
  }

  // ---------------------------------------------------------------------
  // Display
  // ---------------------------------------------------------------------

  /** The number of characters in all of `parts` together. */
  function TotalLength(parts: seq<string>): nat
  {
    if parts == [] then 0 else |parts[0]| + TotalLength(parts[1..])
  }

  /**
   * `parts.join(sep)`: every part once, in order, with one `sep` between
   * each two neighbours and none at either end.
   */
  function Join(parts: seq<string>, sep: string): (r: string)
    ensures parts == [] ==> r == ""
    ensures parts != [] ==> parts[0] <= r && |r| == TotalLength(parts) + (|parts| - 1) * |sep|
  {
    if parts == [] then ""
    else if |parts| == 1 then parts[0]
    else parts[0] + sep + Join(parts[1..], sep)
  }

  /**
   * Joining one more part adds exactly one separator and then that part:
   * together with `Join([p], sep) == p`, this fixes the joined text of a
   * list of any length.
   */
  lemma {:induction false} JoinSnoc(parts: seq<string>, p: string, sep: string)
    requires parts != []
    ensures Join(parts + [p], sep) == Join(parts, sep) + sep + p
    decreases |parts|
  {
    if |parts| > 1 {
      assert (parts + [p])[1..] == parts[1..] + [p];
      JoinSnoc(parts[1..], p, sep);
    }
  }

  /**
   * `Display::fmt` (src/value.rs:15-35).  Arrays are written between
   * brackets and maps between braces; null, booleans and integers are never
   * written as the empty text, and a string is written as its bare text.
   */
  function Display(v: Value, platform: Platform): (r: string)
    ensures v.Array? ==> |r| >= 2 && r[0] == '[' && r[|r| - 1] == ']'
    ensures v.Map? ==> |r| >= 2 && r[0] == '{' && r[|r| - 1] == '}'
    ensures v.Null? || v.Boolean? || v.Integer? ==> |r| > 0
    ensures v.String? ==> r == v.s
    decreases v, 1, 0
  {
    match v
    case Null => "null"
    case Boolean(b) => if b then "true" else "false"
    case Integer(i) => IntText(i as int)
    case Float(bits) => platform.showFloat(bits)
    case String(s) => s
    case Array(elements) => "[" + Join(Texts(v, elements, platform), ", ") + "]"
    case Map(entries) => "{" + Join(EntryTexts(v, platform.keyOrder(entries), platform), ", ") + "}"
  }

  /** The texts of the elements `elements` of the array `a`, in order. */
  function Texts(a: Value, elements: seq<Value>, platform: Platform): (r: seq<string>)
    requires a.Array? && elements <= a.elements
    ensures |r| == |elements|
    ensures forall k :: 0 <= k < |elements| ==> r[k] == Display(elements[k], platform)
    decreases a, 0, |elements|
  {
    if elements == [] then []
    else
      assert elements[|elements| - 1] in a.elements;
      Texts(a, elements[..|elements| - 1], platform) + [Display(elements[|elements| - 1], platform)]
  }

  /**
   * The `k: v` texts of map `m`, for the keys `keys` that are in it, in that
   * order: when every listed key is in the map, the j-th text is the j-th
   * key, `: ` and that key's value.
   */
  function EntryTexts(m: Value, keys: seq<string>, platform: Platform): (r: seq<string>)
    requires m.Map?
    ensures |r| <= |keys|
    ensures (forall k :: k in keys ==> k in m.entries) ==>
      |r| == |keys| &&
      forall j :: 0 <= j < |keys| ==> r[j] == keys[j] + ": " + Display(m.entries[keys[j]], platform)
    decreases m, 0, |keys|
  {
    if keys == [] then []
    else
      var k := keys[|keys| - 1];
      var front := EntryTexts(m, keys[..|keys| - 1], platform);
      if k in m.entries then front + [k + ": " + Display(m.entries[k], platform)] else front
  }

  // ---------------------------------------------------------------------
  // Truthiness and type names
  // ---------------------------------------------------------------------

  /** The bits of +0.0 and of -0.0. */
  const PositiveZero: bv64 := 0
  const NegativeZero: bv64 := 0x8000_0000_0000_0000

  /**
   * `is_truthy` (src/value.rs:38-48).  The false values are exactly null,
   * `false`, 0, the two float zeros, the empty string, the empty array and
   * the empty map.
   */
  function IsTruthy(v: Value): (truthy: bool)
    ensures !truthy <==>
      || v == Null || v == Boolean(false) || v == Integer(0)
      || v == Float(PositiveZero) || v == Float(NegativeZero)
      || v == String("") || v == Array([]) || v == Map(map[])
  {
    match v
    case Null => false
    case Boolean(b) => b
    case Integer(i) => i != 0
    case Float(bits) => bits & 0x7FFF_FFFF_FFFF_FFFF != 0
    case String(s) => |s| > 0
    case Array(elements) => |elements| > 0
    case Map(entries) => |entries| > 0
  }

  /** `type_name` (src/value.rs:50-60): one of seven names. */
  function TypeName(v: Value): (name: string)
    ensures name in {"null", "bool", "int", "float", "string", "array", "map"}
  {
    match v
    case Null => "null"
    case Boolean(_) => "bool"
    case Integer(_) => "int"
    case Float(_) => "float"
    case String(_) => "string"
    case Array(_) => "array"
    case Map(_) => "map"
  }

  predicate SameVariant(a: Value, b: Value)
  {
    && (a.Null? <==> b.Null?)
    && (a.Boolean? <==> b.Boolean?)
    && (a.Integer? <==> b.Integer?)
    && (a.Float? <==> b.Float?)
    && (a.String? <==> b.String?)
    && (a.Array? <==> b.Array?)
    && (a.Map? <==> b.Map?)
  }
}
