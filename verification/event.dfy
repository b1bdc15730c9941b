/** `event` (google_measurement_protocol/event.py): the hit for one event. */
module Event {
  import opened Wrappers
  import opened Payload

  /** The arguments of `event`: category and action are required, label and
      value default to `None`. `value` is typed `str`, so `str(value)` is the
      value itself. */
  datatype Args = Args(category: string, action: string, eventLabel: Option<string>, value: Option<string>)

  /** The fields `event` itself can write. */
  const Fields: set<string> := {"t", "ec", "ea", "el", "ev"}

  /** What the single yielded hit must be: hit type `event`, category and action
      always, label and value when truthy, nothing else but the extras, and the
      extras on top. */
  ghost predicate Valid(a: Args, extra: Hit, h: Hit)
  {
    && FixedField(h, "t", "event", extra)
    && FixedField(h, "ec", a.category, extra)
    && FixedField(h, "ea", a.action, extra)
    && OptionalField(h, "el", a.eventLabel, extra)
    && OptionalField(h, "ev", a.value, extra)
    && h.Keys <= Fields + extra.Keys
    && ExtrasWin(h, extra)
  }

  /** The optional arguments in the order the source tests them, each with its field. */
  function Optionals(a: Args): seq<Field>
  {
    [Field("el", a.eventLabel), Field("ev", a.value)]
  }

  /** The payload before `yield`: the three fixed fields, the truthy optional
      ones, then the extras. */
  function Build(a: Args, extra: Hit): Hit
  {
    Update(Fill(map["t" := "event", "ec" := a.category, "ea" := a.action], Optionals(a)), extra)
  }

  /** The generator, as the sequence of hits it yields: exactly one, and it is `Valid`. */
  function Event(a: Args, extra: Hit): (hits: seq<Hit>)
    ensures |hits| == 1
    ensures Valid(a, extra, hits[0])
    ensures "t" in hits[0] && "ec" in hits[0] && "ea" in hits[0]
  {
    BuildIsValid(a, extra);
    [Build(a, extra)]
  }

  lemma BuildIsValid(a: Args, extra: Hit)
    ensures Valid(a, extra, Build(a, extra))
  {
    var base := map["t" := "event", "ec" := a.category, "ea" := a.action];
    var fs := Optionals(a);
    assert DistinctKeys(fs);
    BuiltFixed(base, fs, "t", extra);
    BuiltFixed(base, fs, "ec", extra);
    BuiltFixed(base, fs, "ea", extra);
    BuiltOptional(base, fs, 0, extra);
    BuiltOptional(base, fs, 1, extra);
    BuiltKeys(base, fs, extra);
  }

  /** `Valid` leaves no freedom: two hits that both satisfy it are equal. */
  lemma ValidDeterminesHit(a: Args, extra: Hit, h: Hit, g: Hit)
    requires Valid(a, extra, h) && Valid(a, extra, g)
    ensures h == g
  {
    forall k ensures Agree(h, g, k) {
      if k in extra {
      } else if k == "t" || k == "ec" || k == "ea" {
      } else if k == "el" { OptionalAgree(h, g, k, a.eventLabel, extra);
      } else if k == "ev" { OptionalAgree(h, g, k, a.value, extra);
      } else {
        assert k !in Fields;
      }
    }
    AgreeEverywhere(h, g);
  }

  /** So the contract of `Event` pins its hit down completely. */
  lemma ValidIsUnique(a: Args, extra: Hit, h: Hit)
    requires Valid(a, extra, h)
    ensures Event(a, extra) == [h]
  {
    ValidDeterminesHit(a, extra, h, Event(a, extra)[0]);
  }

  /** Without a truthy label or value and without extras the hit carries exactly
      type, category and action. */
  lemma BareHit(a: Args)
    requires !Truthy(a.eventLabel) && !Truthy(a.value)
    ensures Event(a, map[]) == [map["t" := "event", "ec" := a.category, "ea" := a.action]]
  {
    ValidIsUnique(a, map[], map["t" := "event", "ec" := a.category, "ea" := a.action]);
  }
}
