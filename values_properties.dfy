/**
 * Properties of the runtime values: that type names tell the variants
 * apart, and how arrays and maps are written out.
 */
module ValueProperties {
  import opened Values

  /** Two values have the same type name exactly when they are the same variant. */
  lemma TypeNameDistinguishesVariants(a: Value, b: Value)
    ensures TypeName(a) == TypeName(b) <==> SameVariant(a, b)
  {
  }

  /** Null, booleans and strings are written as `null`, `true`/`false` and the bare text. */
  lemma ScalarsShown(b: bool, text: string, platform: Platform)
    ensures Display(Null, platform) == "null"
    ensures Display(Boolean(b), platform) == "true" <==> b
    ensures Display(Boolean(b), platform) in {"true", "false"}
    ensures Display(String(text), platform) == text
  {
  }

  /** An integer is written in decimal: the text reads back as the integer, with a `-` exactly when it is negative. */
  lemma IntegerShownInDecimal(i: i64, platform: Platform)
    ensures var t := Display(Integer(i), platform);
      && |t| > 0 && (t[0] == '-' <==> i < 0)
      && IntText(i as int) == t && ParseInt(t) == i as int
  {
    IntTextRoundTrip(i as int);
  }

  // ---------------------------------------------------------------------
  // Arrays
  // ---------------------------------------------------------------------

  lemma EmptyArrayShown(platform: Platform)
    ensures Display(Array([]), platform) == "[]"
  {
  }

  /** A one-element array is written as its element in brackets. */
  lemma SingletonArrayShown(x: Value, platform: Platform)
    ensures Display(Array([x]), platform) == "[" + Display(x, platform) + "]"
  {
    var a := Array([x]);
    assert [x][..0] == [];
    assert Texts(a, [x], platform) == [Display(x, platform)];
  }

  /**
   * An array of any length is written as its elements' texts, in order,
   * joined by `, ` between brackets.
   */
  lemma ArrayShown(elements: seq<Value>, texts: seq<string>, platform: Platform)
    requires |texts| == |elements|
    requires forall k :: 0 <= k < |elements| ==> texts[k] == Display(elements[k], platform)
    ensures Display(Array(elements), platform) == "[" + Join(texts, ", ") + "]"
  {
    assert Texts(Array(elements), elements, platform) == texts;
  }

  /**
   * One more element adds `, ` and its text before the closing bracket of a
   * non-empty array.
   */
  lemma ArrayShownSnoc(elements: seq<Value>, x: Value, platform: Platform)
    requires elements != []
    ensures var d := Display(Array(elements), platform);
      Display(Array(elements + [x]), platform) == d[..|d| - 1] + ", " + Display(x, platform) + "]"
  {
    var texts := Texts(Array(elements), elements, platform);
    var t := Display(x, platform);
    ArrayShown(elements, texts, platform);
    TextsSnoc(elements, texts, x, platform);
    ArrayShown(elements + [x], texts + [t], platform);
    JoinSnoc(texts, t, ", ");
    BracketedSnoc(Join(texts, ", "), t);
  }

  /** Dropping the closing bracket and adding `, t]` is bracketing `joined, t`. */
  lemma BracketedSnoc(joined: string, t: string)
    ensures var d := "[" + joined + "]";
      d[..|d| - 1] + ", " + t + "]" == "[" + (joined + ", " + t) + "]"
  {
    var d := "[" + joined + "]";
    assert d[..|d| - 1] == "[" + joined;
  }

  /** Element texts of `elements` followed by `x`'s text are the element texts of `elements + [x]`. */
  lemma TextsSnoc(elements: seq<Value>, texts: seq<string>, x: Value, platform: Platform)
    requires |texts| == |elements|
    requires forall k :: 0 <= k < |elements| ==> texts[k] == Display(elements[k], platform)
    ensures var all := elements + [x]; var ts := texts + [Display(x, platform)];
      |ts| == |all| && forall k :: 0 <= k < |all| ==> ts[k] == Display(all[k], platform)
  {
    var all := elements + [x];
    var ts := texts + [Display(x, platform)];
    forall k | 0 <= k < |all|
      ensures ts[k] == Display(all[k], platform)
    {
      if k < |elements| {
        assert all[k] == elements[k] && ts[k] == texts[k];
      }
    }
  }

  /**
   * Strings are written without quotes, also inside an array: an array of
   * the strings `xs` is written as `xs` joined by `, ` between brackets, so
   * ["a", "b"] is written [a, b].
   */
  lemma StringsUnquotedInArrays(xs: seq<string>, elements: seq<Value>, platform: Platform)
    requires |elements| == |xs|
    requires forall k :: 0 <= k < |xs| ==> elements[k] == String(xs[k])
    ensures Display(Array(elements), platform) == "[" + Join(xs, ", ") + "]"
  {
    ArrayShown(elements, xs, platform);
  }

  // ---------------------------------------------------------------------
  // Maps
  // ---------------------------------------------------------------------

  /** `keys` lists every key of `m` exactly once, in some order. */
  predicate ListsKeys(keys: seq<string>, m: map<string, Value>)
  {
    && (forall i, j :: 0 <= i < j < |keys| ==> keys[i] != keys[j])
    && (forall k :: k in keys ==> k in m)
    && (forall k :: k in m ==> k in keys)
  }

  /** Keys not in the map contribute nothing. */
  lemma {:induction false} NoEntriesOutsideMap(m: Value, keys: seq<string>, platform: Platform)
    requires m.Map? && forall k :: k in keys ==> k !in m.entries
    ensures EntryTexts(m, keys, platform) == []
    decreases |keys|
  {
    if keys != [] {
      NoEntriesOutsideMap(m, keys[..|keys| - 1], platform);
    }
  }

  /** The empty map is written `{}`, whatever the key order. */
  lemma EmptyMapShown(platform: Platform)
    ensures Display(Map(map[]), platform) == "{}"
  {
    NoEntriesOutsideMap(Map(map[]), platform.keyOrder(map[]), platform);
  }

  /**
   * Every text shown for a map is `key: value` for one of its entries, and
   * when the order lists all of the map's keys, every entry is shown.
   */
  lemma {:induction false} EntriesShown(m: Value, keys: seq<string>, platform: Platform)
    requires m.Map?
    ensures forall t :: t in EntryTexts(m, keys, platform) ==>
      exists k :: k in m.entries && k in keys && t == k + ": " + Display(m.entries[k], platform)
    ensures forall k :: k in m.entries && k in keys ==>
      k + ": " + Display(m.entries[k], platform) in EntryTexts(m, keys, platform)
    decreases |keys|
  {
    if keys != [] {
      var front := keys[..|keys| - 1];
      EntriesShown(m, front, platform);
      assert forall k :: k in front ==> k in keys;
      assert forall k :: k in keys ==> k in front || k == keys[|keys| - 1];
    }
  }

  /** A list of distinct keys is as long as the set of its keys. */
  lemma {:induction false} DistinctKeysCount(keys: seq<string>)
    requires forall i, j :: 0 <= i < j < |keys| ==> keys[i] != keys[j]
    ensures |set k | k in keys| == |keys|
    decreases |keys|
  {
    if keys != [] {
      var front := keys[..|keys| - 1];
      var last := keys[|keys| - 1];
      DistinctKeysCount(front);
      assert (set k | k in keys) == (set k | k in front) + {last};
      assert last !in (set k | k in front);
    }
  }

  /** A map whose order lists its keys shows one text per entry. */
  lemma MapEntryCount(m: map<string, Value>, platform: Platform)
    requires ListsKeys(platform.keyOrder(m), m)
    ensures |EntryTexts(Map(m), platform.keyOrder(m), platform)| == |m|
  {
    var keys := platform.keyOrder(m);
    DistinctKeysCount(keys);
    assert (set k | k in keys) == m.Keys;
  }

  /**
   * A map is written with each of its entries as `key: value`, once each,
   * and nothing else.
   */
  lemma MapShowsItsEntries(m: map<string, Value>, platform: Platform)
    requires ListsKeys(platform.keyOrder(m), m)
    ensures var texts := EntryTexts(Map(m), platform.keyOrder(m), platform);
      && |texts| == |m|
      && forall t :: t in texts <==> exists k :: k in m && t == k + ": " + Display(m[k], platform)
  {
    EntriesShown(Map(m), platform.keyOrder(m), platform);
    MapEntryCount(m, platform);
  }

  /** A map with one entry is written `{key: value}`. */
  lemma SingleEntryMapShown(k: string, v: Value, platform: Platform)
    requires ListsKeys(platform.keyOrder(map[k := v]), map[k := v])
    ensures Display(Map(map[k := v]), platform) == "{" + k + ": " + Display(v, platform) + "}"
  {
    var m := map[k := v];
    var keys := platform.keyOrder(m);
    SingleKeyListed(k, keys, m);
    var texts := EntryTexts(Map(m), keys, platform);
    assert texts[0] == k + ": " + Display(v, platform);
    assert texts == [texts[0]];
  }

  /** The only list of the keys of a one-entry map is that key alone. */
  lemma SingleKeyListed(k: string, keys: seq<string>, m: map<string, Value>)
    requires ListsKeys(keys, m) && m.Keys == {k}
    ensures keys == [k]
  {
    DistinctKeysCount(keys);
    assert (set x | x in keys) == {k};
  }
}
