/** The shallow overlay the store applies when it loads a source: every own
    property of the incoming object whose value is not `undefined` replaces
    the store's top-level property of the same name; nothing else changes. */
module OverlayMerge {
  import opened JsValue

  /** `base` after overlaying `incoming`, key by key. No key is removed,
      and the only keys added are those of `incoming`. */
  function Overlaid(base: map<string, Value>, incoming: map<string, Value>): (r: map<string, Value>)
    ensures base.Keys <= r.Keys <= base.Keys + incoming.Keys
  {
    map k | k in base.Keys + incoming.Keys && (k in base || incoming[k] != Undefined) ::
      if k in incoming && incoming[k] != Undefined then incoming[k] else base[k]
  }

  /** The properties of `incoming` that an overlay writes. */
  function Defined(incoming: map<string, Value>): (r: map<string, Value>)
    ensures r.Keys <= incoming.Keys
    ensures forall k :: k in r ==> r[k] == incoming[k] && r[k] != Undefined
    ensures forall k :: k in incoming && incoming[k] != Undefined ==> k in r
  {
    map k | k in incoming && incoming[k] != Undefined :: incoming[k]
  }

  /** What an overlay does to each key: a defined incoming value is written,
      and every other key (absent from `incoming`, or `undefined` there)
      keeps its previous presence and value. */
  lemma OverlaidAt(base: map<string, Value>, incoming: map<string, Value>, k: string)
    ensures k in incoming && incoming[k] != Undefined ==>
      k in Overlaid(base, incoming) && Overlaid(base, incoming)[k] == incoming[k]
    ensures !(k in incoming && incoming[k] != Undefined) ==>
      (k in Overlaid(base, incoming) <==> k in base) &&
      (k in base ==> Overlaid(base, incoming)[k] == base[k])
  {
  }

  /** An overlay is the map union of `base` with the defined part of
      `incoming`, the incoming side winning on shared keys. */
  lemma OverlaidIsUnion(base: map<string, Value>, incoming: map<string, Value>)
    ensures Overlaid(base, incoming) == base + Defined(incoming)
  {
  }

  /** Overlaying the same object twice is the same as overlaying it once. */
  lemma OverlaidIdempotent(base: map<string, Value>, incoming: map<string, Value>)
    ensures Overlaid(Overlaid(base, incoming), incoming) == Overlaid(base, incoming)
  {
  }

  /** An object with no defined property leaves the store as it is. */
  lemma OverlaidNothing(base: map<string, Value>, incoming: map<string, Value>)
    requires forall k :: k in incoming ==> incoming[k] == Undefined
    ensures Overlaid(base, incoming) == base
  {
  }

  /** Later overlays win: overlaying `a` and then `b` writes every defined
      property of `b`, and a property of `a` survives only where `b` leaves
      it alone. */
  lemma OverlaidTwice(base: map<string, Value>, a: map<string, Value>, b: map<string, Value>)
    ensures Overlaid(Overlaid(base, a), b) == base + Defined(a) + Defined(b)
  {
    OverlaidIsUnion(base, a);
    OverlaidIsUnion(Overlaid(base, a), b);
  }
}
