/** Recommendation lookup (analytics/recommendation/recommendation_engine.py):
    a per-state default block, optionally overridden by a fault-specific block
    with a shallow merge in which the multilingual "text" entry is merged one
    level deeper, and a language pick with an English fallback. The mapping
    file's content is given as maps. */
module Recommendation {
  import opened Features

  /** A value of a block: the "text" entry's language -> sentence dict, or any
      other scalar from the mapping file. */
  datatype Value = Text(langs: map<string, string>) | Scalar(v: Json)

  /** A state block: "level", "priority", "action_code", "text", ... */
  type Block = map<string, Value>

  const TextKey: string := "text"

  /** The mapping file gives "text" as a dict wherever it appears. */
  predicate WellFormed(b: Block) {
    TextKey in b ==> b[TextKey].Text?
  }

  /** The result of `_merge`: every key of either block, the override's value
      winning, except that two "text" dicts are merged with the override's
      sentences winning. */
  function Merged(base: Block, override: Block): (r: Block)
    requires WellFormed(base) && WellFormed(override)
    ensures WellFormed(r)
    ensures r.Keys == base.Keys + override.Keys
    ensures forall k :: k in override && k != TextKey ==> r[k] == override[k]
    ensures forall k :: k in base && k !in override ==> r[k] == base[k]
    ensures TextKey in base && TextKey in override ==>
      r[TextKey] == Text(base[TextKey].langs + override[TextKey].langs)
    ensures TextKey !in base && TextKey in override ==> r[TextKey] == override[TextKey]
  {
    map k | k in base.Keys + override.Keys ::
      if k in override then
        if k == TextKey && k in base then Text(base[k].langs + override[k].langs) else override[k]
      else base[k]
  }

  /** `_merge`: copies `base` and walks the override's entries, deep-merging
      "text" when the copy already has it. Neither argument is changed: both
      are values here, as the copies make them in the source. */
  method Merge(base: Block, override: Block) returns (result: Block)
    requires WellFormed(base) && WellFormed(override)
    ensures result == Merged(base, override)
  {
    result := base;
    var pending := override.Keys;
    while pending != {}
      invariant pending <= override.Keys
      invariant WellFormed(result)
      invariant result.Keys == base.Keys + (override.Keys - pending)
      invariant forall k :: k in result ==>
        result[k] == (if k in override && k !in pending then Merged(base, override)[k] else base[k])
      decreases pending
    {
      var k :| k in pending;
      var v := override[k];
      if k == TextKey && k in result {
        var mergedText := result[TextKey].langs + v.langs;
        result := result[k := Text(mergedText)];
      } else {
        result := result[k := v];
      }
      pending := pending - {k};
    }
    assert result == Merged(base, override);
  }

  /** Merging a block onto nothing, or nothing onto a block, gives the block;
      merging a block onto itself too. */
  lemma MergeIdentities(b: Block)
    requires WellFormed(b)
    ensures Merged(map[], b) == b && Merged(b, map[]) == b && Merged(b, b) == b
  {
    assert Merged(map[], b) == b;
    assert Merged(b, map[]) == b;
    if TextKey in b {
      assert b[TextKey].langs + b[TextKey].langs == b[TextKey].langs;
    }
    assert Merged(b, b) == b;
  }

  /** Layering is associative: applying two overrides one after the other is
      applying their merge. */
  lemma MergeAssociative(a: Block, b: Block, c: Block)
    requires WellFormed(a) && WellFormed(b) && WellFormed(c)
    ensures Merged(Merged(a, b), c) == Merged(a, Merged(b, c))
  {
    var left := Merged(Merged(a, b), c);
    var right := Merged(a, Merged(b, c));
    assert left.Keys == right.Keys;
    forall k | k in left && k != TextKey
      ensures left[k] == right[k]
    {
      MergeOtherAssociative(a, b, c, k);
    }
    if TextKey in left {
      MergeTextAssociative(a, b, c);
    }
    assert left == right;
  }

  /** Any other entry of a double merge is the last block's that has it. */
  lemma MergeOtherAssociative(a: Block, b: Block, c: Block, k: string)
    requires WellFormed(a) && WellFormed(b) && WellFormed(c)
    requires k != TextKey && (k in a || k in b || k in c)
    ensures Merged(Merged(a, b), c)[k] == Merged(a, Merged(b, c))[k]
  {
    if k in c {
      assert Merged(b, c)[k] == c[k];
    } else if k in b {
      assert Merged(Merged(a, b), c)[k] == Merged(a, b)[k];
    }
  }

  /** The "text" entry of a double merge does not depend on the grouping. */
  lemma MergeTextAssociative(a: Block, b: Block, c: Block)
    requires WellFormed(a) && WellFormed(b) && WellFormed(c)
    requires TextKey in a || TextKey in b || TextKey in c
    ensures Merged(Merged(a, b), c)[TextKey] == Merged(a, Merged(b, c))[TextKey]
  {
    var k := TextKey;
    if k in a && k in b && k in c {
      assert a[k].langs + b[k].langs + c[k].langs == a[k].langs + (b[k].langs + c[k].langs);
    }
  }

  /** `_pick_lang`: the sentence in `lang` when present and non-empty,
      otherwise the English one, otherwise "". */
  function PickLang(text: map<string, string>, lang: string): (s: string)
    ensures lang in text && text[lang] != "" ==> s == text[lang]
    ensures !(lang in text && text[lang] != "") ==> s == (if "en" in text then text["en"] else "")
    ensures s == "" || s in text.Values
  {
    if lang in text && text[lang] != "" then text[lang]
    else if "en" in text then text["en"]
    else ""
  }

  /** The mapping file: `defaults` (state -> block) and `faults`
      (fault type -> state -> block). */
  datatype Mapping = Mapping(defaults: map<string, Block>, faults: map<string, map<string, Block>>)

  predicate WellFormedMapping(m: Mapping) {
    && (forall s :: s in m.defaults ==> WellFormed(m.defaults[s]))
    && (forall f, s :: f in m.faults && s in m.faults[f] ==> WellFormed(m.faults[f][s]))
  }

  /** The object `recommend` returns. */
  datatype Advice = Advice(
    faultType: string, state: string, level: Option<Value>, priority: Option<Value>,
    actionCode: Option<Value>, text: string)

  function Lookup(b: Block, k: string): Option<Value> {
    if k in b then Some(b[k]) else None
  }

  /** The block `recommend` reads: the state's default block merged with the
      fault's block for that state when that block exists and is non-empty,
      else the default block alone (empty when the state has none). */
  function Chosen(m: Mapping, faultType: string, state: string): (b: Block)
    requires WellFormedMapping(m)
    ensures WellFormed(b)
  {
    var defaults := if state in m.defaults then m.defaults[state] else map[];
    if faultType in m.faults && state in m.faults[faultType] && m.faults[faultType][state] != map[]
    then Merged(defaults, m.faults[faultType][state])
    else defaults
  }

  /** `recommend`: the fault type and state are echoed; level, priority and
      action code are `None` when the chosen block lacks them. */
  function Recommend(m: Mapping, faultType: string, state: string, lang: string): (a: Advice)
    requires WellFormedMapping(m)
    ensures a.faultType == faultType && a.state == state
    ensures a.level == Lookup(Chosen(m, faultType, state), "level")
    ensures a.priority == Lookup(Chosen(m, faultType, state), "priority")
    ensures a.actionCode == Lookup(Chosen(m, faultType, state), "action_code")
    ensures a.text == PickLang(if TextKey in Chosen(m, faultType, state)
                               then Chosen(m, faultType, state)[TextKey].langs else map[], lang)
  {
    var base := Chosen(m, faultType, state);
    var text := if TextKey in base then base[TextKey].langs else map[];
    Advice(faultType, state, Lookup(base, "level"), Lookup(base, "priority"), Lookup(base, "action_code"),
           PickLang(text, lang))
  }

  /** A fault-specific entry wins over the state default; an entry the fault
      block lacks falls back to the default; an unknown fault type gives the
      defaults. */
  lemma FaultBlockOverridesDefaults(m: Mapping, faultType: string, state: string, k: string)
    requires WellFormedMapping(m) && k != TextKey
    ensures var b := Chosen(m, faultType, state);
      var defaults := if state in m.defaults then m.defaults[state] else map[];
      && (faultType in m.faults && state in m.faults[faultType] && k in m.faults[faultType][state]
          ==> Lookup(b, k) == Some(m.faults[faultType][state][k]))
      && (!(faultType in m.faults && state in m.faults[faultType] && k in m.faults[faultType][state])
          ==> Lookup(b, k) == Lookup(defaults, k))
  {
  }
}
