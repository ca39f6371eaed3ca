/** `getValueFromSource`: where a field descriptor takes its value from. */
module Source {

  /** The `source` entry of a field descriptor. `Keys([])` and `Key("")` are
      the empty array and the empty string, which behave like `Default`;
      any other JSON value a mapping might put there is `Default` too. */
  datatype Source = Default | Key(name: string) | Keys(names: seq<string>)

  /** `data[k] ?? ""`. */
  function Lookup(data: map<string, string>, k: string): string {
    if k in data then data[k] else ""
  }

  /** `source.map(s => data[s] ?? "").join("")`. */
  function Concat(data: map<string, string>, keys: seq<string>): string {
    if keys == [] then "" else Lookup(data, keys[0]) + Concat(data, keys[1..])
  }

  /** `getValueFromSource(data, source, fallbackKey)`. */
  function ValueFromSource(data: map<string, string>, source: Source, fallbackKey: string): string {
    match source
    case Keys(names) => if |names| > 0 then Concat(data, names) else Lookup(data, fallbackKey)
    case Key(name) => if name != "" then Lookup(data, name) else Lookup(data, fallbackKey)
    case Default => Lookup(data, fallbackKey)
  }

  /** The keys of `keys` that are present in `data`, in order. */
  function Present(data: map<string, string>, keys: seq<string>): (r: seq<string>)
    ensures forall i :: 0 <= i < |r| ==> r[i] in data
  {
    if keys == [] then []
    else (if keys[0] in data then [keys[0]] else []) + Present(data, keys[1..])
  }

  /** Concatenating the keys of a list in two parts is concatenating the
      parts. */
  lemma {:induction false} ConcatAppend(data: map<string, string>, a: seq<string>, b: seq<string>)
    ensures Concat(data, a + b) == Concat(data, a) + Concat(data, b)
  {
    if a == [] {
      assert a + b == b;
    } else {
      assert (a + b)[1..] == a[1..] + b;
      ConcatAppend(data, a[1..], b);
    }
  }

  /** A missing key contributes nothing: the concatenation over a list equals
      the concatenation over its keys that are present. */
  lemma {:induction false} ConcatIgnoresMissing(data: map<string, string>, keys: seq<string>)
    ensures Concat(data, keys) == Concat(data, Present(data, keys))
  {
    if keys != [] {
      ConcatIgnoresMissing(data, keys[1..]);
      var p := Present(data, keys[1..]);
      if keys[0] in data {
        assert Present(data, keys) == [keys[0]] + p;
        assert ([keys[0]] + p)[1..] == p;
      } else {
        assert Present(data, keys) == p;
      }
    }
  }

  /** A non-empty list source is the in-order concatenation of the values of
      its keys, position by position. */
  lemma {:induction false} ListSourceValue(data: map<string, string>, names: seq<string>, fallbackKey: string)
    requires |names| > 0
    ensures ValueFromSource(data, Keys(names), fallbackKey)
      == Lookup(data, names[0]) + Concat(data, names[1..])
    ensures ValueFromSource(data, Keys(names), fallbackKey)
      == Concat(data, names[..|names| - 1]) + Lookup(data, names[|names| - 1])
  {
    var n := |names|;
    assert names == names[..n - 1] + [names[n - 1]];
    ConcatAppend(data, names[..n - 1], [names[n - 1]]);
    assert Concat(data, [names[n - 1]]) == Lookup(data, names[n - 1]) by {
      assert [names[n - 1]][1..] == [];
    }
  }

  /** A list of one key and the key itself name the same value, and a string
      source is looked up directly. */
  lemma SingleKeySource(data: map<string, string>, k: string, fallbackKey: string)
    requires k != ""
    ensures ValueFromSource(data, Keys([k]), fallbackKey) == ValueFromSource(data, Key(k), fallbackKey)
    ensures ValueFromSource(data, Key(k), fallbackKey) == (if k in data then data[k] else "")
  {
    assert [k][1..] == [];
    assert Concat(data, [k]) == Lookup(data, k) + "";
  }

  /** A descriptor reads exactly the one key `k`: its source names `k`, as a
      string or as a one-key list, or it has no usable source and the field
      itself is named `k`. */
  predicate ReadsKey(source: Source, fallbackKey: string, k: string) {
    source == Key(k) || source == Keys([k])
    || (fallbackKey == k && (source == Default || source == Key("") || source == Keys([])))
  }

  /** Lines 13-20: every way of reading one non-empty key `k` gives
      `data[k] ?? ""`. */
  lemma ReadsKeyValue(data: map<string, string>, source: Source, fallbackKey: string, k: string)
    requires k != "" && ReadsKey(source, fallbackKey, k)
    ensures ValueFromSource(data, source, fallbackKey) == Lookup(data, k)
  {
    if source == Key(k) || source == Keys([k]) {
      SingleKeySource(data, k, fallbackKey);
    } else {
      FallbackSource(data, source, fallbackKey);
    }
  }

  /** An empty list, an empty string or no source at all falls back to the
      descriptor's own key. */
  lemma FallbackSource(data: map<string, string>, source: Source, fallbackKey: string)
    requires source == Default || source == Key("") || source == Keys([])
    ensures ValueFromSource(data, source, fallbackKey) == (if fallbackKey in data then data[fallbackKey] else "")
  {
  }
}
