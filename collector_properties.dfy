/**
 * What the collector of src/abstract-parser.ts guarantees, proved about the
 * step functions of module `Collector`: the invariant every handler keeps,
 * when a fragment is emitted and what it holds, which tags and text reach
 * the fragment, and what a whole notification sequence does.
 */
module CollectorProperties {
  import opened Wrappers
  import opened CollectRules
  import opened Collector

  // ---------------------------------------------------------------------
  // The start loop
  // ---------------------------------------------------------------------

  /** The start loop changes neither the path nor the flags, and only appends to the log. */
  lemma {:induction false} AfterStartsKeeps(st: State, rs: RuleTable)
    ensures AfterStarts(st, rs).position == st.position
    ensures AfterStarts(st, rs).openTag == st.openTag
    ensures AfterStarts(st, rs).collectCurrentNode == st.collectCurrentNode
    ensures st.emitted <= AfterStarts(st, rs).emitted
    decreases |rs|
  {
    if rs != [] {
      var next := if rs[0].1.start == st.position then AfterStart(st, rs[0].0) else st;
      AfterStartsKeeps(next, rs[1..]);
    }
  }

  /** When no rule starts at the current path, the start loop does nothing. */
  lemma {:induction false} AfterStartsNoMatch(st: State, rs: RuleTable)
    requires forall i :: 0 <= i < |rs| ==> rs[i].1.start != st.position
    ensures AfterStarts(st, rs) == st
    decreases |rs|
  {
    if rs != [] {
      assert forall i :: 0 <= i < |rs| - 1 ==> rs[1..][i] == rs[i + 1];
      AfterStartsNoMatch(st, rs[1..]);
    }
  }

  /** When exactly one rule starts at the current path, the loop is one `startCollect` for its key. */
  lemma {:induction false} AfterStartsUnique(st: State, rs: RuleTable, i: nat)
    requires i < |rs| && rs[i].1.start == st.position
    requires forall j :: 0 <= j < |rs| && j != i ==> rs[j].1.start != st.position
    ensures AfterStarts(st, rs) == AfterStart(st, rs[i].0)
    decreases |rs|
  {
    assert forall j :: 0 <= j < |rs| - 1 ==> rs[1..][j] == rs[j + 1];
    if i == 0 {
      AfterStartsNoMatch(AfterStart(st, rs[0].0), rs[1..]);
    } else {
      AfterStartsUnique(st, rs[1..], i - 1);
    }
  }

  /**
   * After the start loop, either nothing happened, or the key of a rule that
   * starts at the current path is active with no tag open in the fragment.
   */
  lemma {:induction false} AfterStartsShape(st: State, rs: RuleTable)
    requires st.collect == "" ==> st.collectOpenTags == []
    ensures var r := AfterStarts(st, rs);
      || r == st
      || (&& r.collectOpenTags == []
          && exists i :: 0 <= i < |rs| && rs[i].1.start == st.position && r.collect == rs[i].0)
    decreases |rs|
  {
    if rs != [] {
      var next := if rs[0].1.start == st.position then AfterStart(st, rs[0].0) else st;
      assert next.position == st.position;
      assert next.collect == "" ==> next.collectOpenTags == [];
      AfterStartsShape(next, rs[1..]);
      var r := AfterStarts(next, rs[1..]);
      if r != st && r != next {
        var k :| 0 <= k < |rs[1..]| && rs[1..][k].1.start == st.position && r.collect == rs[1..][k].0;
        assert rs[k + 1] == rs[1..][k];
      }
    }
  }

  // ---------------------------------------------------------------------
  // The invariant
  // ---------------------------------------------------------------------

  /** Pushing a tag extends the collected tags by that tag exactly when its path is collected. */
  lemma CollectedPush(rules: RuleTable, pos: Path, name: string, depth: nat)
    requires depth <= |pos| + 1
    ensures Collected(rules, pos + [name], depth)
      == Collected(rules, pos, depth) + (if ShallCollectAt(rules, pos + [name]) then [name] else [])
  {
    assert (pos + [name])[..|pos|] == pos;
    if |pos| < depth {
      assert Collected(rules, pos, depth) == [];
    }
  }

  /** `onOpenTag` keeps the invariant. */
  lemma OpenKeepsInv(rules: RuleTable, st: State, name: string, attrs: seq<(string, string)>)
    requires DistinctKeys(rules) && Inv(rules, st)
    ensures Inv(rules, AfterOpen(rules, st, name, attrs))
  {
    var pushed := st.(position := st.position + [name], openTag := name, collectCurrentNode := false);
    AfterStartsKeeps(pushed, rules);
    AfterStartsShape(pushed, rules);
    var started := AfterStarts(pushed, rules);
    if started.collect != "" {
      if started == pushed {
        var start := StartOf(rules, st.collect).value;
        CollectedPush(rules, st.position, name, |start|);
      } else {
        var i :| 0 <= i < |rules| && rules[i].1.start == pushed.position && started.collect == rules[i].0;
        StartIsCollected(rules, i);
        CollectedPush(rules, st.position, name, |pushed.position|);
      }
    }
  }

  /** `onCloseTag` keeps the invariant. */
  lemma CloseKeepsInv(rules: RuleTable, st: State, name: string)
    requires DistinctKeys(rules) && Inv(rules, st)
    ensures Inv(rules, AfterClose(rules, st, name))
  {
    if st.collect != "" {
      var start := StartOf(rules, st.collect).value;
      var pos := st.position;
      var shorter := pos[..|pos| - 1];
      assert shorter + [pos[|pos| - 1]] == pos;
      CollectedPush(rules, shorter, pos[|pos| - 1], |start|);
      if start != pos {
        assert start == pos[..|start|];
        assert start == shorter[..|start|];
      }
    }
  }

  /** Every handler keeps the invariant. */
  lemma EventKeepsInv(rules: RuleTable, encode: string -> string, st: State, ev: Ev)
    requires DistinctKeys(rules) && Inv(rules, st)
    ensures Inv(rules, AfterEvent(rules, encode, st, ev))
  {
    match ev
    case Open(name, attrs) => OpenKeepsInv(rules, st, name, attrs);
    case Text(_) =>
    case Close(name) => CloseKeepsInv(rules, st, name);
  }

  /**
   * At most one collection is active, and it is for a key of the table whose
   * start lies on the current path, whatever notifications arrive.
   */
  lemma {:induction false} EventsKeepInv(rules: RuleTable, encode: string -> string, st: State, evs: seq<Ev>)
    requires DistinctKeys(rules) && Inv(rules, st)
    ensures var r := AfterEvents(rules, encode, st, evs);
      && Inv(rules, r)
      && (r.collect != "" ==>
            exists i :: 0 <= i < |rules| && rules[i].0 == r.collect && IsPrefix(rules[i].1.start, r.position))
    decreases |evs|
  {
    if evs != [] {
      EventKeepsInv(rules, encode, st, evs[0]);
      EventsKeepInv(rules, encode, AfterEvent(rules, encode, st, evs[0]), evs[1..]);
    } else if st.collect != "" {
      var start := StartOf(rules, st.collect).value;
      var i :| 0 <= i < |rules| && rules[i].0 == st.collect;
      assert rules[i].1.start == start;
    }
  }

  /** The initial state satisfies the invariant. */
  lemma InitialInv(rules: RuleTable)
    ensures Inv(rules, Initial)
  {
  }

  // ---------------------------------------------------------------------
  // Emitting a fragment
  // ---------------------------------------------------------------------

  function Reverse(s: seq<string>): seq<string> {
    if s == [] then [] else Reverse(s[1..]) + [s[0]]
  }

  /** The closing tags of `tags` in the order given. */
  function CloseAll(tags: seq<string>): string {
    if tags == [] then "" else CloseTag(tags[0]) + CloseAll(tags[1..])
  }

  lemma {:induction false} CloseAllAppend(a: seq<string>, b: seq<string>)
    ensures CloseAll(a + b) == CloseAll(a) + CloseAll(b)
    decreases |a|
  {
    if a != [] {
      assert (a + b)[0] == a[0] && (a + b)[1..] == a[1..] + b;
      CloseAllAppend(a[1..], b);
    } else {
      assert a + b == b;
    }
  }

  /** `emitCollected` closes the fragment's open tags in reverse order of opening. */
  lemma {:induction false} ClosingTagsReversed(tags: seq<string>)
    ensures ClosingTags(tags) == CloseAll(Reverse(tags))
    decreases |tags|
  {
    if tags != [] {
      ClosingTagsReversed(tags[1..]);
      CloseAllAppend(Reverse(tags[1..]), [tags[0]]);
    }
  }

  /**
   * Opening a tag emits exactly when a rule starts at the new path while a
   * collection is in flight (preemption): the in-flight fragment, with its
   * open tags closed, is logged before the new key becomes active. With
   * distinct starts at most one rule starts.
   */
  lemma OpenEmits(rules: RuleTable, st: State, name: string, attrs: seq<(string, string)>)
    requires DistinctStarts(rules)
    ensures var s := AfterOpen(rules, st, name, attrs);
      var starts := exists i :: 0 <= i < |rules| && rules[i].1.start == st.position + [name];
      && s.emitted == (if st.collect != "" && starts
                       then st.emitted + [(st.collect, st.xml + ClosingTags(st.collectOpenTags))]
                       else st.emitted)
      && (forall i :: 0 <= i < |rules| && rules[i].1.start == st.position + [name] ==> s.collect == rules[i].0)
      && (!starts ==> s.collect == st.collect)
  {
    var pushed := st.(position := st.position + [name], openTag := name, collectCurrentNode := false);
    if i :| 0 <= i < |rules| && rules[i].1.start == st.position + [name] {
      AfterStartsUnique(pushed, rules, i);
      assert forall j :: 0 <= j < |rules| && rules[j].1.start == st.position + [name] ==> j == i;
    } else {
      AfterStartsNoMatch(pushed, rules);
    }
  }

  /** Preemption, for one rule: its start opening while another collection is active. */
  lemma Preemption(rules: RuleTable, st: State, name: string, attrs: seq<(string, string)>, i: nat)
    requires DistinctStarts(rules)
    requires st.collect != "" && i < |rules| && rules[i].1.start == st.position + [name]
    ensures AfterOpen(rules, st, name, attrs).emitted
      == st.emitted + [(st.collect, st.xml + ClosingTags(st.collectOpenTags))]
    ensures AfterOpen(rules, st, name, attrs).collect == rules[i].0
  {
    OpenEmits(rules, st, name, attrs);
    assert forall j :: 0 <= j < |rules| && rules[j].1.start == st.position + [name] ==> j == i;
  }

  /**
   * Closing the active rule's start finishes the collection: one event whose
   * fragment is the buffer and the closing tag, and the collector is idle.
   */
  lemma CloseAtStartEmitsOne(rules: RuleTable, st: State, name: string)
    requires DistinctKeys(rules) && Inv(rules, st)
    requires st.collect != "" && StartOf(rules, st.collect) == Some(st.position)
    ensures AfterClose(rules, st, name)
      == st.(position := ReduceLastPosition(st.position), collectCurrentNode := false, openTag := "",
             collect := "", xml := "", collectOpenTags := [],
             emitted := st.emitted + [(st.collect, st.xml + CloseTag(name))])
  {
    var i :| 0 <= i < |rules| && rules[i].0 == st.collect && rules[i].1.start == st.position;
    StartIsCollected(rules, i);
    var pos := st.position;
    assert pos[..|pos| - 1] + [pos[|pos| - 1]] == pos;
    CollectedPush(rules, pos[..|pos| - 1], pos[|pos| - 1], |pos|);
    assert st.collectOpenTags == [pos[|pos| - 1]];
    var written := st.(xml := st.xml + CloseTag(name), collectOpenTags := []);
    assert written.xml + ClosingTags([]) == st.xml + CloseTag(name);
    assert AfterClose(rules, st, name) == AfterEmit(written).(position := ReduceLastPosition(pos), collectCurrentNode := false, openTag := "");
  }

  /** Closing any other path emits nothing and keeps the active key. */
  lemma CloseElsewhereEmitsNothing(rules: RuleTable, st: State, name: string)
    requires st.collect == "" || StartOf(rules, st.collect) != Some(st.position)
    ensures AfterClose(rules, st, name).emitted == st.emitted
    ensures AfterClose(rules, st, name).collect == st.collect
  {
  }

  // ---------------------------------------------------------------------
  // What reaches the fragment
  // ---------------------------------------------------------------------

  /**
   * A tag whose path is neither a start nor under an include entry is not
   * written: only the unconditional `>` is appended, `collectOpenTags` and
   * the active key are untouched and nothing is emitted.
   */
  lemma UncollectedOpen(rules: RuleTable, st: State, name: string, attrs: seq<(string, string)>)
    requires !ShallCollectAt(rules, st.position + [name])
    ensures AfterOpen(rules, st, name, attrs)
      == st.(position := st.position + [name], openTag := name, collectCurrentNode := false, xml := st.xml + ">")
  {
    var pushed := st.(position := st.position + [name], openTag := name, collectCurrentNode := false);
    forall i | 0 <= i < |rules|
      ensures rules[i].1.start != pushed.position
    {
      assert !Selects(rules[i].1, pushed.position);
    }
    AfterStartsNoMatch(pushed, rules);
  }

  /** The close of such a tag writes nothing and leaves the fragment's open tags alone. */
  lemma UncollectedClose(rules: RuleTable, st: State, name: string)
    requires !ShallCollectAt(rules, st.position)
    ensures AfterClose(rules, st, name)
      == st.(position := ReduceLastPosition(st.position), collectCurrentNode := false, openTag := "")
  {
    forall i | 0 <= i < |rules|
      ensures rules[i].1.start != st.position
    {
      assert !Selects(rules[i].1, st.position);
    }
  }

  /**
   * Under an active collection, a collected tag that starts no rule is
   * written with its attributes and pushed on `collectOpenTags`.
   */
  lemma CollectedOpen(rules: RuleTable, st: State, name: string, attrs: seq<(string, string)>)
    requires st.collect != "" && ShallCollectAt(rules, st.position + [name])
    requires forall i :: 0 <= i < |rules| ==> rules[i].1.start != st.position + [name]
    ensures AfterOpen(rules, st, name, attrs)
      == st.(position := st.position + [name], openTag := name, collectCurrentNode := true,
             xml := st.xml + "<" + name + AttrsText(attrs) + ">",
             collectOpenTags := st.collectOpenTags + [name])
  {
    var pushed := st.(position := st.position + [name], openTag := name, collectCurrentNode := false);
    AfterStartsNoMatch(pushed, rules);
  }

  /**
   * A rule whose include list holds its own start collects its whole
   * subtree: while it is active, every descendant that starts no rule is
   * written with its attributes and nothing is emitted.
   */
  lemma WholeSubtreeCollected(rules: RuleTable, st: State, name: string, attrs: seq<(string, string)>, i: nat)
    requires DistinctKeys(rules) && Inv(rules, st)
    requires i < |rules| && st.collect == rules[i].0 && st.collect != ""
    requires rules[i].1.start in rules[i].1.includes
    requires forall j :: 0 <= j < |rules| ==> rules[j].1.start != st.position + [name]
    ensures AfterOpen(rules, st, name, attrs)
      == st.(position := st.position + [name], openTag := name, collectCurrentNode := true,
             xml := st.xml + "<" + name + AttrsText(attrs) + ">",
             collectOpenTags := st.collectOpenTags + [name])
  {
    var rule := rules[i].1;
    var P := st.position + [name];
    assert StartOf(rules, st.collect) == Some(rule.start);
    assert P[..|rule.start|] == st.position[..|rule.start|];
    var k :| 0 <= k < |rule.includes| && rule.includes[k] == rule.start;
    assert IsPrefix(rule.includes[k], P);
    assert Selects(rules[i].1, P);
    CollectedOpen(rules, st, name, attrs);
  }

  /** Text right after an open tag is written exactly when that tag was collected. */
  lemma TextAfterOpen(rules: RuleTable, encode: string -> string, st: State,
                      name: string, attrs: seq<(string, string)>, text: string)
    requires name != ""
    ensures var s := AfterOpen(rules, st, name, attrs);
      AfterText(encode, s, text).xml
        == if s.collect != "" && ShallCollectAt(rules, s.position) then s.xml + encode(text) else s.xml
  {
    var pushed := st.(position := st.position + [name], openTag := name, collectCurrentNode := false);
    AfterStartsKeeps(pushed, rules);
  }

  /** Text right after a close tag is dropped. */
  lemma TextAfterCloseDropped(rules: RuleTable, encode: string -> string, st: State, name: string, text: string)
    ensures AfterText(encode, AfterClose(rules, st, name), text) == AfterClose(rules, st, name)
  {
  }

  // ---------------------------------------------------------------------
  // Whole notification sequences
  // ---------------------------------------------------------------------

  /**
   * Handling a notification sequence in two parts, one after the other,
   * gives the same outcome as handling it at once. That the input can be fed
   * in arbitrary chunks also needs the tokenizer to give the same
   * notifications for every chunking; the tokenizer is not part of this model.
   */
  lemma {:induction false} EventsSplit(rules: RuleTable, encode: string -> string, st: State, a: seq<Ev>, b: seq<Ev>)
    ensures AfterEvents(rules, encode, st, a + b)
      == AfterEvents(rules, encode, AfterEvents(rules, encode, st, a), b)
    decreases |a|
  {
    if a != [] {
      assert (a + b)[0] == a[0] && (a + b)[1..] == a[1..] + b;
      EventsSplit(rules, encode, AfterEvent(rules, encode, st, a[0]), a[1..], b);
    } else {
      assert a + b == b;
    }
  }

  /** Every handler only appends to the event log. */
  lemma EventOnlyAppends(rules: RuleTable, encode: string -> string, st: State, ev: Ev)
    ensures st.emitted <= AfterEvent(rules, encode, st, ev).emitted
  {
    if ev.Open? {
      var pushed := st.(position := st.position + [ev.name], openTag := ev.name, collectCurrentNode := false);
      AfterStartsKeeps(pushed, rules);
    }
  }

  /** Events already emitted are never changed or reordered. */
  lemma {:induction false} EventsOnlyAppend(rules: RuleTable, encode: string -> string, st: State, evs: seq<Ev>)
    ensures st.emitted <= AfterEvents(rules, encode, st, evs).emitted
    decreases |evs|
  {
    if evs != [] {
      EventOnlyAppends(rules, encode, st, evs[0]);
      EventsOnlyAppend(rules, encode, AfterEvent(rules, encode, st, evs[0]), evs[1..]);
    }
  }

  /** The tag path after a notification sequence: opens push, closes pop, text changes nothing. */
  function Walk(pos: Path, evs: seq<Ev>): Path
    decreases |evs|
  {
    if evs == [] then pos
    else
      match evs[0]
      case Open(name, _) => Walk(pos + [name], evs[1..])
      case Text(_) => Walk(pos, evs[1..])
      case Close(_) => Walk(ReduceLastPosition(pos), evs[1..])
  }

  /** The collector's path follows the opens and closes and nothing else. */
  lemma {:induction false} PositionFollowsWalk(rules: RuleTable, encode: string -> string, st: State, evs: seq<Ev>)
    ensures AfterEvents(rules, encode, st, evs).position == Walk(st.position, evs)
    decreases |evs|
  {
    if evs != [] {
      var s1 := AfterEvent(rules, encode, st, evs[0]);
      if evs[0].Open? {
        var pushed := st.(position := st.position + [evs[0].name], openTag := evs[0].name, collectCurrentNode := false);
        AfterStartsKeeps(pushed, rules);
      }
      PositionFollowsWalk(rules, encode, s1, evs[1..]);
    }
  }

  /**
   * `evs` closes exactly `depth` more tags than it opens, and never closes
   * more tags than are open. Only the depth is counted, not the tag names.
   */
  predicate Nested(evs: seq<Ev>, depth: nat)
    decreases |evs|
  {
    if evs == [] then depth == 0
    else
      match evs[0]
      case Open(_, _) => Nested(evs[1..], depth + 1)
      case Text(_) => Nested(evs[1..], depth)
      case Close(_) => depth > 0 && Nested(evs[1..], depth - 1)
  }

  /** A sequence that closes the `|open|` tags open before it ends on the path below them. */
  lemma {:induction false} NestedWalk(outer: Path, open: Path, evs: seq<Ev>)
    requires Nested(evs, |open|)
    ensures Walk(outer + open, evs) == outer
    decreases |evs|
  {
    if evs == [] {
      assert outer + open == outer;
    } else {
      match evs[0]
      case Open(name, _) =>
        assert outer + open + [name] == outer + (open + [name]);
        NestedWalk(outer, open + [name], evs[1..]);
      case Text(_) =>
        NestedWalk(outer, open, evs[1..]);
      case Close(_) =>
        assert ReduceLastPosition(outer + open) == outer + open[..|open| - 1];
        NestedWalk(outer, open[..|open| - 1], evs[1..]);
    }
  }

  /** A balanced notification sequence leaves the tag path as it found it. */
  lemma BalancedKeepsPosition(rules: RuleTable, encode: string -> string, st: State, evs: seq<Ev>)
    requires Nested(evs, 0)
    ensures AfterEvents(rules, encode, st, evs).position == st.position
  {
    PositionFollowsWalk(rules, encode, st, evs);
    NestedWalk(st.position, [], evs);
    assert st.position + [] == st.position;
  }

  /**
   * A whole balanced document read from the initial state leaves no
   * collection behind: every collection was emitted.
   */
  lemma BalancedDocumentEndsIdle(rules: RuleTable, encode: string -> string, evs: seq<Ev>)
    requires DistinctKeys(rules) && Nested(evs, 0)
    ensures AfterEvents(rules, encode, Initial, evs).collect == ""
    ensures AfterEvents(rules, encode, Initial, evs).collectOpenTags == []
  {
    InitialInv(rules);
    EventsKeepInv(rules, encode, Initial, evs);
    BalancedKeepsPosition(rules, encode, Initial, evs);
  }
}
