/**
  First-match-wins rule chains: an ordered list of (predicate, handler) pairs.
  Applying a chain to an input selects the handler of the first rule, in
  registration order, whose predicate holds of that input.
 */
module Rules {
  import opened Wrappers

  /** A rule pairs a pure predicate on the input with the handler it selects. */
  datatype Rule<H> = Rule(matches: string -> bool, handler: H)

  /** The predicate that holds of every input: the catch-all at the end of a chain. */
  predicate Always(input: string)
  {
    true
  }

  /**
    The index of the first rule at or after position `from` whose predicate
    holds of `input`, or None when no rule from `from` on matches.
   */
  function FirstMatchFrom<H>(rules: seq<Rule<H>>, input: string, from: nat): (k: Option<nat>)
    requires from <= |rules|
    ensures k.Some? ==> from <= k.value < |rules| && rules[k.value].matches(input)
    ensures k.Some? ==> forall j :: from <= j < k.value ==> !rules[j].matches(input)
    ensures k.None? ==> forall j :: from <= j < |rules| ==> !rules[j].matches(input)
    decreases |rules| - from
  {
    if from == |rules| then None
    else if rules[from].matches(input) then Some(from)
    else FirstMatchFrom(rules, input, from + 1)
  }

  /**
    The rule a chain selects for `input`: the lowest index whose predicate
    holds, with every earlier predicate false; None exactly when no predicate
    holds.
   */
  function FirstMatch<H>(rules: seq<Rule<H>>, input: string): (k: Option<nat>)
    ensures k.Some? ==> k.value < |rules| && rules[k.value].matches(input)
    ensures k.Some? ==> forall j :: 0 <= j < k.value ==> !rules[j].matches(input)
    ensures k.None? <==> forall j :: 0 <= j < |rules| ==> !rules[j].matches(input)
  {
    FirstMatchFrom(rules, input, 0)
  }

  /** A chain whose last rule is the catch-all always selects some rule. */
  lemma CatchAllSelects<H>(rules: seq<Rule<H>>, input: string, h: H)
    requires rules != [] && rules[|rules| - 1] == Rule(Always, h)
    ensures FirstMatch(rules, input).Some?
  {
    assert rules[|rules| - 1].matches(input);
  }
}
