/** Persistence counting (early_fault/persistence.py): per sensor, the number
    of consecutive non-NORMAL trend levels seen up to now. */
module Persistence {
  import opened TrendDetection

  /** The length of the run of non-NORMAL levels at the end of `levels`. */
  function TrailingRun(levels: seq<TrendLevel>): (n: nat)
    ensures n <= |levels|
    decreases |levels|
  {
    if levels == [] || levels[|levels| - 1] == Normal then 0
    else TrailingRun(levels[..|levels| - 1]) + 1
  }

  /** The trailing run is the longest suffix without NORMAL: every level in it
      is non-NORMAL and the level just before it, if any, is NORMAL. */
  lemma {:induction false} TrailingRunIsMaximal(levels: seq<TrendLevel>)
    ensures forall i :: |levels| - TrailingRun(levels) <= i < |levels| ==> levels[i] != Normal
    ensures TrailingRun(levels) < |levels| ==> levels[|levels| - 1 - TrailingRun(levels)] == Normal
    decreases |levels|
  {
    if levels != [] && levels[|levels| - 1] != Normal {
      var init := levels[..|levels| - 1];
      TrailingRunIsMaximal(init);
      assert forall i :: 0 <= i < |init| ==> init[i] == levels[i];
    }
  }

  /** The entries stored under `key`, none when the key is absent. */
  function LevelsOf(m: map<(string, string), seq<TrendLevel>>, key: (string, string)): seq<TrendLevel> {
    if key in m then m[key] else []
  }

  class PersistenceChecker {
    /** `_counter`, keyed by the tuple `(asset, point)`. */
    var counter: map<(string, string), nat>
    /** Every trend level passed in for each key, in order. */
    ghost var levels: map<(string, string), seq<TrendLevel>>

    /** Each counter is the trailing non-NORMAL run of its key's levels. */
    ghost predicate Valid()
      reads this
    {
      && counter.Keys == levels.Keys
      && forall k :: k in counter ==> counter[k] == TrailingRun(levels[k])
    }

    constructor ()
      ensures Valid() && counter == map[] && levels == map[]
    {
      counter := map[];
      levels := map[];
    }

    /** `update`: a non-NORMAL level adds one to the key's counter, a NORMAL
        level resets it to 0; the new counter is returned. */
    method Update(asset: string, point: string, trend: TrendResult) returns (c: nat)
      requires Valid()
      modifies this
      ensures Valid()
      ensures var key := (asset, point);
        var before := if key in old(counter) then old(counter)[key] else 0;
        counter == old(counter)[key := if trend.level != Normal then before + 1 else 0]
      ensures levels == old(levels)[(asset, point) := LevelsOf(old(levels), (asset, point)) + [trend.level]]
      ensures c == counter[(asset, point)] == TrailingRun(levels[(asset, point)])
    {
      var key := (asset, point);
      ghost var seenLevels := LevelsOf(levels, key) + [trend.level];
      assert seenLevels[..|seenLevels| - 1] == LevelsOf(levels, key);
      if trend.level != Normal {
        counter := counter[key := (if key in counter then counter[key] else 0) + 1];
      } else {
        counter := counter[key := 0];
      }
      levels := levels[key := seenLevels];
      c := counter[key];
    }
  }
}
