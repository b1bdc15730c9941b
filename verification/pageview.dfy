/** `pageview` (google_measurement_protocol/pageview.py): the hit for one page view. */
module Pageview {
  import opened Wrappers
  import opened Payload

  /** The keyword arguments of `pageview`, each defaulting to `None`. */
  datatype Args = Args(
    path: Option<string>, hostName: Option<string>, location: Option<string>,
    title: Option<string>, language: Option<string>, referrer: Option<string>,
    ip: Option<string>, ua: Option<string>)

  /** The fields `pageview` itself can write. */
  const Fields: set<string> := {"t", "dl", "dh", "dp", "dt", "dr", "ul", "uip", "ua"}

  /** What the single yielded hit must be: hit type `pageview`, one field per
      truthy argument, nothing else but the extras, and the extras on top. */
  ghost predicate Valid(a: Args, extra: Hit, h: Hit)
  {
    && FixedField(h, "t", "pageview", extra)
    && OptionalField(h, "dl", a.location, extra)
    && OptionalField(h, "dh", a.hostName, extra)
    && OptionalField(h, "dp", a.path, extra)
    && OptionalField(h, "dt", a.title, extra)
    && OptionalField(h, "dr", a.referrer, extra)
    && OptionalField(h, "ul", a.language, extra)
    && OptionalField(h, "uip", a.ip, extra)
    && OptionalField(h, "ua", a.ua, extra)
    && h.Keys <= Fields + extra.Keys
    && ExtrasWin(h, extra)
  }

  /** The optional arguments in the order the source tests them, each with its field. */
  function Optionals(a: Args): seq<Field>
  {
    [ Field("dl", a.location), Field("dh", a.hostName), Field("dp", a.path), Field("dt", a.title),
      Field("dr", a.referrer), Field("ul", a.language), Field("uip", a.ip), Field("ua", a.ua) ]
  }

  /** The payload before `yield`: `t`, the truthy optional fields, then the extras. */
  function Build(a: Args, extra: Hit): Hit
  {
    Update(Fill(map["t" := "pageview"], Optionals(a)), extra)
  }

  /** The generator, as the sequence of hits it yields: exactly one, and it is `Valid`. */
  function Pageview(a: Args, extra: Hit): (hits: seq<Hit>)
    ensures |hits| == 1
    ensures Valid(a, extra, hits[0])
    ensures "t" in hits[0]
  {
    BuildIsValid(a, extra);
    [Build(a, extra)]
  }

  lemma BuildOptional(a: Args, extra: Hit, i: nat)
    requires i < |Optionals(a)|
    ensures OptionalField(Build(a, extra), Optionals(a)[i].key, Optionals(a)[i].arg, extra)
  {
    assert DistinctKeys(Optionals(a));
    BuiltOptional(map["t" := "pageview"], Optionals(a), i, extra);
  }

  /** The hit holds only `pageview`'s own fields and the extras, and every extra wins. */
  lemma BuildKeys(a: Args, extra: Hit)
    ensures Build(a, extra).Keys <= Fields + extra.Keys
    ensures ExtrasWin(Build(a, extra), extra)
  {
    var fs := Optionals(a);
    BuiltKeys(map["t" := "pageview"], fs, extra);
    forall k | k in Build(a, extra) ensures k in Fields + extra.Keys {
      if k !in extra && k != "t" {
        var i :| 0 <= i < |fs| && fs[i].key == k;
      }
    }
  }

  lemma BuildIsValid(a: Args, extra: Hit)
    ensures Valid(a, extra, Build(a, extra))
  {
    var h := Build(a, extra);
    BuiltFixed(map["t" := "pageview"], Optionals(a), "t", extra);
    BuildKeys(a, extra);
    assert OptionalField(h, "dl", a.location, extra) by { BuildOptional(a, extra, 0); }
    assert OptionalField(h, "dh", a.hostName, extra) by { BuildOptional(a, extra, 1); }
    assert OptionalField(h, "dp", a.path, extra) by { BuildOptional(a, extra, 2); }
    assert OptionalField(h, "dt", a.title, extra) by { BuildOptional(a, extra, 3); }
    assert OptionalField(h, "dr", a.referrer, extra) by { BuildOptional(a, extra, 4); }
    assert OptionalField(h, "ul", a.language, extra) by { BuildOptional(a, extra, 5); }
    assert OptionalField(h, "uip", a.ip, extra) by { BuildOptional(a, extra, 6); }
    assert OptionalField(h, "ua", a.ua, extra) by { BuildOptional(a, extra, 7); }
  }

  /** `Valid` leaves no freedom: two hits that both satisfy it are equal. */
  lemma ValidDeterminesHit(a: Args, extra: Hit, h: Hit, g: Hit)
    requires Valid(a, extra, h) && Valid(a, extra, g)
    ensures h == g
  {
    forall k ensures Agree(h, g, k) {
      if k in extra {
      } else if k == "t" {
      } else if k == "dl" { OptionalAgree(h, g, k, a.location, extra);
      } else if k == "dh" { OptionalAgree(h, g, k, a.hostName, extra);
      } else if k == "dp" { OptionalAgree(h, g, k, a.path, extra);
      } else if k == "dt" { OptionalAgree(h, g, k, a.title, extra);
      } else if k == "dr" { OptionalAgree(h, g, k, a.referrer, extra);
      } else if k == "ul" { OptionalAgree(h, g, k, a.language, extra);
      } else if k == "uip" { OptionalAgree(h, g, k, a.ip, extra);
      } else if k == "ua" { OptionalAgree(h, g, k, a.ua, extra);
      } else {
        assert k !in Fields;
      }
    }
    AgreeEverywhere(h, g);
  }

  /** So the contract of `Pageview` pins its hit down completely. */
  lemma ValidIsUnique(a: Args, extra: Hit, h: Hit)
    requires Valid(a, extra, h)
    ensures Pageview(a, extra) == [h]
  {
    ValidDeterminesHit(a, extra, h, Pageview(a, extra)[0]);
  }

  /** With no truthy argument and no extras the hit is exactly `{t: pageview}`. */
  lemma BareHit(a: Args)
    requires !Truthy(a.path) && !Truthy(a.hostName) && !Truthy(a.location) && !Truthy(a.title)
    requires !Truthy(a.language) && !Truthy(a.referrer) && !Truthy(a.ip) && !Truthy(a.ua)
    ensures Pageview(a, map[]) == [map["t" := "pageview"]]
  {
    ValidIsUnique(a, map[], map["t" := "pageview"]);
  }
}
