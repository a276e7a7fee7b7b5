/**
 * The collect-rule table of src/abstract-parser.ts and the path predicates
 * the collector evaluates against it (`isPositionEq` in its two modes and
 * `shallCollect`).
 */
module CollectRules {
  import opened Wrappers

  /** A tag path from the document root, outermost tag first. */
  type Path = seq<string>

  /** The root element of every CommerceML document. */
  const Root := "КоммерческаяИнформация"

  /**
   * `CommerceMlCollectRule`; its `include` list is the field `includes`
   * (`include` is a Dafny keyword). The source reads an absent list with
   * `?? []`, so an absent include list is the empty one here.
   */
  datatype Rule = Rule(start: Path, includes: seq<Path>)

  /**
   * The object returned by `getCollectRules()`, kept in `Object.entries`
   * order because that order drives the start loop of `onOpenTag`.
   */
  type RuleTable = seq<(string, Rule)>

  /** `isPositionEq(p, 'begin')`: `p` is a prefix of `pos`. */
  predicate IsPrefix(p: Path, pos: Path) {
    |p| <= |pos| && p == pos[..|p|]
  }

  /** A rule selects a path when the path is its start or lies under one of its include entries. */
  predicate Selects(r: Rule, pos: Path) {
    r.start == pos || exists j :: 0 <= j < |r.includes| && IsPrefix(r.includes[j], pos)
  }

  /** What `shallCollect()` decides for the path `pos`: SOME rule of the table selects it. */
  predicate ShallCollectAt(rules: RuleTable, pos: Path) {
    exists i :: 0 <= i < |rules| && Selects(rules[i].1, pos)
  }

  /** Keys of an object literal are distinct. */
  predicate DistinctKeys(rules: RuleTable) {
    forall i, j :: 0 <= i < j < |rules| ==> rules[i].0 != rules[j].0
  }

  /** No two rules start at the same path. */
  predicate DistinctStarts(rules: RuleTable) {
    forall i, j :: 0 <= i < j < |rules| ==> rules[i].1.start != rules[j].1.start
  }

  /** Every include entry of every rule lies at or below that rule's start. */
  predicate IncludesExtendStart(rules: RuleTable) {
    forall i, j :: 0 <= i < |rules| && 0 <= j < |rules[i].1.includes| ==>
      IsPrefix(rules[i].1.start, rules[i].1.includes[j])
  }

  /** Every rule starts under the tag path `root`. */
  predicate StartsUnder(rules: RuleTable, root: Path) {
    forall i :: 0 <= i < |rules| ==> IsPrefix(root, rules[i].1.start)
  }

  /** `getCollectRules()[key].start`: the start of the first rule with that key. */
  function StartOf(rules: RuleTable, key: string): (r: Option<Path>)
    ensures r.Some? <==> exists i :: 0 <= i < |rules| && rules[i].0 == key
    ensures r.Some? ==> exists i :: 0 <= i < |rules| && rules[i].0 == key && rules[i].1.start == r.value
    ensures DistinctKeys(rules) ==>
      forall i :: 0 <= i < |rules| && rules[i].0 == key ==> r == Some(rules[i].1.start)
  {
    if rules == [] then None
    else if rules[0].0 == key then Some(rules[0].1.start)
    else
      var r := StartOf(rules[1..], key);
      assert forall i :: 1 <= i < |rules| ==> rules[i] == rules[1..][i - 1];
      r
  }

  /** A rule's own start path is always collected. */
  lemma StartIsCollected(rules: RuleTable, i: nat)
    requires i < |rules|
    ensures ShallCollectAt(rules, rules[i].1.start)
  {
    assert Selects(rules[i].1, rules[i].1.start);
  }
}
