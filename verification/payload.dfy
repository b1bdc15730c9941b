/** What the Measurement Protocol hit builders share: a hit is one flat map of
    string fields, optional arguments count only when truthy, and keyword
    extras are applied last with `dict.update`. */
module Payload {
  import opened Wrappers

  type Hit = map<string, string>

  /** Python truthiness of an optional string argument: not `None` and not empty. */
  predicate Truthy(arg: Option<string>)
  {
    arg.Some? && arg.value != ""
  }

  /** One optional argument and the field it is written to. */
  datatype Field = Field(key: string, arg: Option<string>)

  /** `if arg: payload[key] = arg` for each field, in order. */
  function Fill(p: Hit, fs: seq<Field>): Hit
    decreases |fs|
  {
    if fs == [] then p
    else
      var q := if Truthy(fs[0].arg) then p[fs[0].key := fs[0].arg.value] else p;
      Fill(q, fs[1..])
  }

  /** No two fields share a key. */
  predicate DistinctKeys(fs: seq<Field>)
  {
    forall i, j :: 0 <= i < j < |fs| ==> fs[i].key != fs[j].key
  }

  /** `payload.update(extra)`: every extra entry is written over the payload. */
  function Update(p: Hit, extra: Hit): Hit
  {
    p + extra
  }

  /** A key no field names is left as it was. */
  lemma {:induction false} FillKeeps(p: Hit, fs: seq<Field>, k: string)
    requires forall i :: 0 <= i < |fs| ==> fs[i].key != k
    ensures k in Fill(p, fs) <==> k in p
    ensures k in p ==> Fill(p, fs)[k] == p[k]
    decreases |fs|
  {
    if fs != [] {
      var q := if Truthy(fs[0].arg) then p[fs[0].key := fs[0].arg.value] else p;
      FillKeeps(q, fs[1..], k);
    }
  }

  /** The key of field `i` ends up holding the argument when it is truthy and
      is left as it was otherwise. */
  lemma {:induction false} FillWrites(p: Hit, fs: seq<Field>, i: nat)
    requires DistinctKeys(fs) && i < |fs|
    ensures var r := Fill(p, fs); var f := fs[i];
            && (Truthy(f.arg) ==> f.key in r && r[f.key] == f.arg.value)
            && (!Truthy(f.arg) ==> (f.key in r <==> f.key in p) && (f.key in p ==> r[f.key] == p[f.key]))
    decreases |fs|
  {
    var q := if Truthy(fs[0].arg) then p[fs[0].key := fs[0].arg.value] else p;
    if i == 0 {
      FillKeeps(q, fs[1..], fs[0].key);
    } else {
      FillWrites(q, fs[1..], i - 1);
    }
  }

  /** Filling adds no key other than the fields' own. */
  lemma {:induction false} FillKeys(p: Hit, fs: seq<Field>)
    ensures forall k :: k in Fill(p, fs) ==> k in p || exists i :: 0 <= i < |fs| && fs[i].key == k
    decreases |fs|
  {
    if fs != [] {
      var q := if Truthy(fs[0].arg) then p[fs[0].key := fs[0].arg.value] else p;
      FillKeys(q, fs[1..]);
      forall k | k in Fill(p, fs)
        ensures k in p || exists i :: 0 <= i < |fs| && fs[i].key == k
      {
        if k !in p && k != fs[0].key {
          assert k in Fill(q, fs[1..]) && k !in q;
          var j :| 0 <= j < |fs[1..]| && fs[1..][j].key == k;
          assert fs[j + 1].key == k;
        }
      }
    }
  }

  /** A field the builder always writes: present, holding `value` unless an
      extra entry of the same name replaced it. */
  ghost predicate FixedField(h: Hit, key: string, value: string, extra: Hit)
  {
    key in h && h[key] == (if key in extra then extra[key] else value)
  }

  /** A field written only when its argument is truthy: present exactly when the
      argument is truthy or an extra entry supplies it, holding the extra value
      if there is one and the argument otherwise. */
  ghost predicate OptionalField(h: Hit, key: string, arg: Option<string>, extra: Hit)
  {
    && (key in h <==> Truthy(arg) || key in extra)
    && (key in h ==> h[key] == if key in extra then extra[key] else arg.value)
  }

  /** Every extra entry is in the hit with its own value. */
  ghost predicate ExtrasWin(h: Hit, extra: Hit)
  {
    forall k :: k in extra ==> k in h && h[k] == extra[k]
  }

  /** A field that is not yet in `p` ends up present exactly when its argument
      is truthy or an extra supplies it. */
  lemma BuiltOptional(p: Hit, fs: seq<Field>, i: nat, extra: Hit)
    requires DistinctKeys(fs) && i < |fs| && fs[i].key !in p
    ensures OptionalField(Update(Fill(p, fs), extra), fs[i].key, fs[i].arg, extra)
  {
    FillWrites(p, fs, i);
  }

  /** A field set before the optional ones keeps its value unless an extra replaces it. */
  lemma BuiltFixed(p: Hit, fs: seq<Field>, key: string, extra: Hit)
    requires key in p
    requires forall i :: 0 <= i < |fs| ==> fs[i].key != key
    ensures FixedField(Update(Fill(p, fs), extra), key, p[key], extra)
  {
    FillKeeps(p, fs, key);
  }

  /** The built hit holds only the starting keys, the fields' keys and the
      extras, and every extra entry wins. */
  lemma BuiltKeys(p: Hit, fs: seq<Field>, extra: Hit)
    ensures forall k :: k in Update(Fill(p, fs), extra) ==>
              k in p || k in extra || exists i :: 0 <= i < |fs| && fs[i].key == k
    ensures ExtrasWin(Update(Fill(p, fs), extra), extra)
  {
    FillKeys(p, fs);
  }

  /** Two hits agree on `k`: both lack it, or both hold the same value. */
  ghost predicate Agree(h: Hit, g: Hit, k: string)
  {
    (k in h <==> k in g) && (k in h ==> h[k] == g[k])
  }

  lemma OptionalAgree(h: Hit, g: Hit, key: string, arg: Option<string>, extra: Hit)
    requires OptionalField(h, key, arg, extra) && OptionalField(g, key, arg, extra)
    ensures Agree(h, g, key)
  {
  }

  /** Hits that agree on every key are equal. */
  lemma AgreeEverywhere(h: Hit, g: Hit)
    requires forall k :: Agree(h, g, k)
    ensures h == g
  {
    forall k | k in h ensures k in g && h[k] == g[k] {
      assert Agree(h, g, k);
    }
    forall k | k in g ensures k in h {
      assert Agree(h, g, k);
    }
    assert h.Keys == g.Keys;
  }
}
