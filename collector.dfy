/**
 * The subtree collector of src/abstract-parser.ts as a function of its
 * state: what one tokenizer notification (open tag, text, close tag) does
 * to the tag path, the active rule, the fragment buffer, the stack of tags
 * written into the fragment and the log of emitted `(key, fragment)` events.
 * The class `AbstractParser.Parser` performs these steps in place and is
 * proved against the functions here.
 */
module Collector {
  import opened Wrappers
  import opened CollectRules

  /** One notification of the SAX tokenizer. */
  datatype Ev =
    | Open(name: string, attrs: seq<(string, string)>)
    | Text(text: string)
    | Close(name: string)

  /**
   * The fields of `CommerceMlAbstractParser`. `collect == ""` is the idle
   * state; `emitted` logs the `(key, fragment)` pairs handed to
   * `parser.emit`, oldest first.
   */
  datatype State = State(
    position: Path,
    openTag: string,
    collect: string,
    xml: string,
    collectCurrentNode: bool,
    collectOpenTags: seq<string>,
    emitted: seq<(string, string)>)

  /** The field initialisers of the class. */
  const Initial := State([], "", "", "", false, [], [])

  /** `reduceLastPosition`: `splice(-1, 1)` drops the last element, and does nothing to an empty list. */
  function ReduceLastPosition(p: seq<string>): (r: seq<string>)
    ensures |p| > 0 ==> r + [p[|p| - 1]] == p
    ensures |p| == 0 ==> r == []
  {
    if |p| == 0 then p else p[..|p| - 1]
  }

  function CloseTag(name: string): string {
    "</" + name + ">"
  }

  /** The closing tags `emitCollected` appends for `tags`: last entry first. */
  function ClosingTags(tags: seq<string>): string {
    if tags == [] then "" else ClosingTags(tags[1..]) + CloseTag(tags[0])
  }

  /** One attribute as `onOpenTag` writes it: ` key="value"`, without escaping. */
  function AttrText(attr: (string, string)): string {
    " " + attr.0 + "=\"" + attr.1 + "\""
  }

  /** The attributes of an open tag, in `Object.entries` order. */
  function AttrsText(attrs: seq<(string, string)>): string {
    if attrs == [] then "" else AttrsText(attrs[..|attrs| - 1]) + AttrText(attrs[|attrs| - 1])
  }

  /** `emitCollected`: close what is still open, log `(collect, xml)`, return to idle. */
  function AfterEmit(st: State): State {
    st.(emitted := st.emitted + [(st.collect, st.xml + ClosingTags(st.collectOpenTags))],
        collectOpenTags := [], collect := "", xml := "")
  }

  /** `startCollect`: emit an in-flight collection first, then make `key` active. */
  function AfterStart(st: State, key: string): State {
    var flushed := if st.collect != "" then AfterEmit(st) else st;
    flushed.(collect := key)
  }

  /** The start loop of `onOpenTag`: every rule whose start is the current path, in table order, starts. */
  function AfterStarts(st: State, rs: RuleTable): State
    decreases |rs|
  {
    if rs == [] then st
    else
      var next := if rs[0].1.start == st.position then AfterStart(st, rs[0].0) else st;
      AfterStarts(next, rs[1..])
  }

  /**
   * `onOpenTag`: push the name, run the start loop, write the tag and its
   * attributes when a rule is active and the path is collected, then append
   * `>` whatever happened before.
   */
  function AfterOpen(rules: RuleTable, st: State, name: string, attrs: seq<(string, string)>): State {
    var pushed := st.(position := st.position + [name], openTag := name, collectCurrentNode := false);
    var started := AfterStarts(pushed, rules);
    var written :=
      if started.collect != "" && ShallCollectAt(rules, started.position) then
        started.(collectCurrentNode := true,
                 xml := started.xml + "<" + name + AttrsText(attrs),
                 collectOpenTags := started.collectOpenTags + [name])
      else started;
    written.(xml := written.xml + ">")
  }

  /** `onText`: text goes into the fragment only right after a collected open tag. */
  function AfterText(encode: string -> string, st: State, text: string): State {
    if st.openTag != "" && st.collectCurrentNode then st.(xml := st.xml + encode(text)) else st
  }

  /**
   * `onCloseTag`: while a rule is active, write the closing tag of a collected
   * path and finish the collection when the path is the active rule's start;
   * then pop the path.
   */
  function AfterClose(rules: RuleTable, st: State, name: string): State {
    var finished :=
      if st.collect == "" then st
      else
        var written :=
          if ShallCollectAt(rules, st.position) then
            st.(xml := st.xml + CloseTag(name), collectOpenTags := ReduceLastPosition(st.collectOpenTags))
          else st;
        if StartOf(rules, written.collect) == Some(written.position) then AfterEmit(written) else written;
    finished.(position := ReduceLastPosition(finished.position), collectCurrentNode := false, openTag := "")
  }

  /** The handler the tokenizer calls for one notification. */
  function AfterEvent(rules: RuleTable, encode: string -> string, st: State, ev: Ev): State {
    match ev
    case Open(name, attrs) => AfterOpen(rules, st, name, attrs)
    case Text(text) => AfterText(encode, st, text)
    case Close(name) => AfterClose(rules, st, name)
  }

  /** A whole notification sequence, handled in order. */
  function AfterEvents(rules: RuleTable, encode: string -> string, st: State, evs: seq<Ev>): State
    decreases |evs|
  {
    if evs == [] then st else AfterEvents(rules, encode, AfterEvent(rules, encode, st, evs[0]), evs[1..])
  }

  /**
   * The tags of `pos` at depth `depth` and below that are collected: the
   * entries `collectOpenTags` holds while a rule starting at that depth is active.
   */
  function Collected(rules: RuleTable, pos: Path, depth: nat): seq<string>
    decreases |pos|
  {
    if |pos| == 0 || |pos| < depth then []
    else
      Collected(rules, pos[..|pos| - 1], depth)
        + (if ShallCollectAt(rules, pos) then [pos[|pos| - 1]] else [])
  }

  /**
   * The collector's invariant: idle with nothing open in the fragment, or
   * collecting for a key of the table whose start lies on the current path,
   * with exactly the collected tags below that start open in the fragment.
   */
  ghost predicate Inv(rules: RuleTable, st: State) {
    if st.collect == "" then st.collectOpenTags == []
    else
      match StartOf(rules, st.collect)
      case None => false
      case Some(start) =>
        && |start| >= 1
        && IsPrefix(start, st.position)
        && st.collectOpenTags == Collected(rules, st.position, |start|)
  }
}
