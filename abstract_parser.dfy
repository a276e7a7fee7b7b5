/**
 * `CommerceMlAbstractParser` (src/abstract-parser.ts): the object whose
 * handlers the SAX tokenizer calls. Each handler updates the fields in place
 * and is proved to leave them as the matching function of module `Collector`
 * says; `Valid()` is the collector invariant `Collector.Inv`.
 */
module AbstractParser {
  import opened Wrappers
  import opened CollectRules
  import opened Collector
  import CollectorProperties

  /** The two modes of `isPositionEq`. */
  datatype Mode = Eq | Begin

  class Parser {
    /** `getCollectRules()` of the concrete parser. */
    const rules: RuleTable
    /** `encodeXML` of the `entities` library, which is not part of this model. */
    const encode: string -> string

    var position: Path
    var openTag: string
    var collect: string
    var xml: string
    var collectCurrentNode: bool
    var collectOpenTags: seq<string>
    /** The `(key, fragment)` pairs handed to `parser.emit`, oldest first. */
    var emitted: seq<(string, string)>

    ghost function St(): State
      reads this
    {
      State(position, openTag, collect, xml, collectCurrentNode, collectOpenTags, emitted)
    }

    ghost predicate Valid()
      reads this
    {
      DistinctKeys(rules) && Inv(rules, St())
    }

    constructor (rules: RuleTable, encode: string -> string)
      requires DistinctKeys(rules)
      ensures Valid()
      ensures this.rules == rules && this.encode == encode
      ensures St() == Initial
    {
      this.rules := rules;
      this.encode := encode;
      position, openTag, collect, xml := [], "", "", "";
      collectCurrentNode, collectOpenTags, emitted := false, [], [];
    }

    /** `isPositionEq(p, mode)`: compares `p` with the current path, element by element. */
    method IsPositionEq(p: Path, mode: Mode) returns (r: bool)
      ensures mode == Eq ==> (r <==> p == position)
      ensures mode == Begin ==> (r <==> IsPrefix(p, position))
    {
      if mode == Eq && |p| != |position| {
        return false;
      }
      if mode == Begin && |p| > |position| {
        return false;
      }
      var i := 0;
      while i < |p|
        invariant 0 <= i <= |p| <= |position|
        invariant p[..i] == position[..i]
      {
        if p[i] != position[i] {
          return false;
        }
        i := i + 1;
      }
      assert p == p[..i];
      return true;
    }

    /** `shallCollect()`: some rule starts at the current path or has an include entry above it. */
    method ShallCollect() returns (r: bool)
      ensures r <==> ShallCollectAt(rules, position)
    {
      var i := 0;
      while i < |rules|
        invariant 0 <= i <= |rules|
        invariant forall k :: 0 <= k < i ==> !Selects(rules[k].1, position)
      {
        var rule := rules[i].1;
        var eq := IsPositionEq(rule.start, Eq);
        if eq {
          return true;
        }
        var j := 0;
        while j < |rule.includes|
          invariant 0 <= j <= |rule.includes|
          invariant forall k :: 0 <= k < j ==> !IsPrefix(rule.includes[k], position)
        {
          var begins := IsPositionEq(rule.includes[j], Begin);
          if begins {
            return true;
          }
          j := j + 1;
        }
        i := i + 1;
      }
      return false;
    }

    /** `emitCollected()`: closes the open tags last first, logs `(collect, xml)` and returns to idle. */
    method EmitCollected()
      modifies this
      ensures St() == AfterEmit(old(St()))
      ensures emitted == old(emitted) + [(old(collect), old(xml) + ClosingTags(old(collectOpenTags)))]
      ensures collect == "" && xml == "" && collectOpenTags == []
    {
      var i := |collectOpenTags|;
      while i > 0
        invariant 0 <= i <= |collectOpenTags|
        invariant collectOpenTags == old(collectOpenTags) && collect == old(collect)
        invariant xml == old(xml) + ClosingTags(collectOpenTags[i..])
        invariant position == old(position) && openTag == old(openTag)
        invariant collectCurrentNode == old(collectCurrentNode) && emitted == old(emitted)
      {
        i := i - 1;
        assert collectOpenTags[i..][1..] == collectOpenTags[i + 1..];
        xml := xml + CloseTag(collectOpenTags[i]);
      }
      emitted := emitted + [(collect, xml)];
      collectOpenTags := [];
      collect := "";
      xml := "";
    }

    /** `startCollect(key)`: a collection in flight is emitted before `key` becomes active. */
    method StartCollect(key: string)
      modifies this
      ensures St() == AfterStart(old(St()), key)
      ensures collect == key
    {
      if collect != "" {
        EmitCollected();
      }
      collect := key;
    }

    /** `onOpenTag(tag)`; returns the buffer, as the source does. */
    method OnOpenTag(name: string, attrs: seq<(string, string)>) returns (out: string)
      requires Valid()
      modifies this
      ensures Valid()
      ensures St() == AfterOpen(rules, old(St()), name, attrs)
      ensures position == old(position) + [name]
      ensures out == xml
    {
      ghost var before := St();
      position := position + [name];
      openTag := name;
      collectCurrentNode := false;
      ghost var pushed := St();

      var i := 0;
      while i < |rules|
        invariant 0 <= i <= |rules|
        invariant AfterStarts(St(), rules[i..]) == AfterStarts(pushed, rules)
      {
        assert rules[i..][1..] == rules[i + 1..];
        var eq := IsPositionEq(rules[i].1.start, Eq);
        if eq {
          StartCollect(rules[i].0);
        }
        i := i + 1;
      }
      CollectorProperties.AfterStartsKeeps(pushed, rules);
      ghost var started := St();
      assert started == AfterStarts(pushed, rules);

      if collect != "" {
        var shall := ShallCollect();
        if shall {
          collectCurrentNode := true;
          xml := xml + "<" + name;
          collectOpenTags := collectOpenTags + [name];
          WriteAttributes(attrs);
        }
      }
      ghost var written := St();
      assert written == if started.collect != "" && ShallCollectAt(rules, started.position) then
        started.(collectCurrentNode := true,
                 xml := started.xml + "<" + name + AttrsText(attrs),
                 collectOpenTags := started.collectOpenTags + [name])
        else started;

      xml := xml + ">";
      out := xml;
      CollectorProperties.OpenKeepsInv(rules, before, name, attrs);
    }

    /** The attribute loop of `onOpenTag`: each attribute as ` key="value"`, in order. */
    method WriteAttributes(attrs: seq<(string, string)>)
      modifies this`xml
      ensures xml == old(xml) + AttrsText(attrs)
    {
      var j := 0;
      while j < |attrs|
        invariant 0 <= j <= |attrs|
        invariant xml == old(xml) + AttrsText(attrs[..j])
      {
        assert attrs[..j + 1][..j] == attrs[..j];
        xml := xml + AttrText(attrs[j]);
        j := j + 1;
      }
      assert attrs[..j] == attrs;
    }

    /** `onText(text)`. */
    method OnText(text: string)
      requires Valid()
      modifies this
      ensures Valid()
      ensures St() == AfterText(encode, old(St()), text)
    {
      if openTag != "" && collectCurrentNode {
        xml := xml + encode(text);
      }
    }

    /** `onCloseTag(nodeName)`. */
    method OnCloseTag(name: string)
      requires Valid()
      modifies this
      ensures Valid()
      ensures St() == AfterClose(rules, old(St()), name)
      ensures position == ReduceLastPosition(old(position))
    {
      ghost var before := St();
      if collect != "" {
        var shall := ShallCollect();
        if shall {
          xml := xml + CloseTag(name);
          collectOpenTags := ReduceLastPosition(collectOpenTags);
        }
        ghost var written := St();
        var start := StartOf(rules, collect);
        var atStart := false;
        if start.Some? {
          atStart := IsPositionEq(start.value, Eq);
        }
        assert atStart <==> StartOf(rules, written.collect) == Some(written.position);
        if atStart {
          EmitCollected();
        }
      }
      ghost var finished := St();
      position := ReduceLastPosition(position);
      collectCurrentNode := false;
      openTag := "";
      assert St() == finished.(position := ReduceLastPosition(finished.position), collectCurrentNode := false, openTag := "");
      CollectorProperties.CloseKeepsInv(rules, before, name);
    }

    /** The tokenizer's `opentag`, `text` and `closetag` callbacks registered by the constructor. */
    method Notify(ev: Ev)
      requires Valid()
      modifies this
      ensures Valid()
      ensures St() == AfterEvent(rules, encode, old(St()), ev)
    {
      match ev
      case Open(name, attrs) =>
        var _ := OnOpenTag(name, attrs);
      case Text(text) =>
        OnText(text);
      case Close(name) =>
        OnCloseTag(name);
    }
  }
}
