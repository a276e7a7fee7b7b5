/**
 * `OrdersParser` (src/orders-parser.ts): a two-rule table, and what the
 * collector does with it on the opening of an orders document.
 */
module OrdersParser {
  import opened Wrappers
  import opened CollectRules
  import opened Collector
  import CollectorProperties

  const DocumentTag := "Документ"

  /** `getCollectRules()`. */
  function OrdersRules(): (r: RuleTable)
    ensures |r| == 2
    ensures DistinctKeys(r) && DistinctStarts(r) && IncludesExtendStart(r)
    ensures StartsUnder(r, [Root])
    ensures r[0] == ("commercialInfo", Rule([Root], []))
    ensures r[1].0 == "document" && r[1].1.includes == [r[1].1.start]
    ensures r[1].1.start == r[0].1.start + [DocumentTag]
  {
    [ ("commercialInfo", Rule([Root], [])),
      ("document", Rule([Root, DocumentTag], [[Root, DocumentTag]])) ]
  }

  /** Opening the root element starts `commercialInfo` and writes the root's open tag. */
  lemma RootOpens(attrs: seq<(string, string)>)
    ensures var s := AfterOpen(OrdersRules(), Initial, Root, attrs);
      && s.collect == "commercialInfo" && s.emitted == []
      && s.position == [Root] && s.collectOpenTags == [Root]
      && s.xml == "<" + Root + AttrsText(attrs) + ">"
  {
    var rules := OrdersRules();
    var pushed := Initial.(position := [Root], openTag := Root);
    CollectorProperties.AfterStartsUnique(pushed, rules, 0);
    StartIsCollected(rules, 0);
  }

  /**
   * The first `Документ` preempts `commercialInfo`: the root shell, closed,
   * is emitted, and `document` becomes active.
   */
  lemma DocumentPreemptsCommercialInfo(encode: string -> string, attrs: seq<(string, string)>,
                                       documentAttrs: seq<(string, string)>)
    ensures var s := AfterEvents(OrdersRules(), encode, Initial,
                                 [Open(Root, attrs), Open(DocumentTag, documentAttrs)]);
      && s.emitted == [("commercialInfo", "<" + Root + AttrsText(attrs) + ">" + CloseTag(Root))]
      && s.collect == "document"
  {
    var rules := OrdersRules();
    var s1 := AfterOpen(rules, Initial, Root, attrs);
    RootOpens(attrs);
    CollectorProperties.Preemption(rules, s1, DocumentTag, documentAttrs, 1);
    assert ClosingTags([Root]) == CloseTag(Root);
    var evs := [Open(Root, attrs), Open(DocumentTag, documentAttrs)];
    assert evs[1..] == [Open(DocumentTag, documentAttrs)];
    assert AfterEvents(rules, encode, Initial, evs) == AfterEvents(rules, encode, s1, evs[1..]);
    assert AfterEvents(rules, encode, s1, evs[1..]) == AfterOpen(rules, s1, DocumentTag, documentAttrs);
  }

  /** While `document` is active, every descendant tag goes into its fragment. */
  lemma DocumentSubtreeStaysInFragment(st: State, name: string, attrs: seq<(string, string)>)
    requires Inv(OrdersRules(), st) && st.collect == "document"
    ensures AfterOpen(OrdersRules(), st, name, attrs)
      == st.(position := st.position + [name], openTag := name, collectCurrentNode := true,
             xml := st.xml + "<" + name + AttrsText(attrs) + ">",
             collectOpenTags := st.collectOpenTags + [name])
  {
    var rules := OrdersRules();
    assert StartOf(rules, st.collect) == Some([Root, DocumentTag]);
    CollectorProperties.WholeSubtreeCollected(rules, st, name, attrs, 1);
  }

  /**
   * The unconditional `>` of `onOpenTag`: between two documents the
   * collector is idle, and a sibling element that no rule collects still
   * leaves a `>` in the buffer, so the next document's fragment starts with
   * it, ahead of `<Документ`.
   */
  lemma StrayBracketBeforeNextDocument(st: State, other: string, otherAttrs: seq<(string, string)>,
                                       documentAttrs: seq<(string, string)>)
    requires st.collect == "" && st.collectOpenTags == [] && st.position == [Root]
    requires other != DocumentTag
    ensures var s1 := AfterOpen(OrdersRules(), st, other, otherAttrs);
      var s2 := AfterClose(OrdersRules(), s1, other);
      var s3 := AfterOpen(OrdersRules(), s2, DocumentTag, documentAttrs);
      && s3.collect == "document" && s3.emitted == st.emitted
      && s3.xml == st.xml + ">" + "<" + DocumentTag + AttrsText(documentAttrs) + ">"
  {
    var rules := OrdersRules();
    var p := [Root, other];
    assert !Selects(rules[0].1, p);
    assert !IsPrefix(rules[1].1.includes[0], p) by { assert p[1] != rules[1].1.includes[0][1]; }
    assert !ShallCollectAt(rules, p);
    CollectorProperties.UncollectedOpen(rules, st, other, otherAttrs);
    var s1 := AfterOpen(rules, st, other, otherAttrs);
    CollectorProperties.UncollectedClose(rules, s1, other);
    var s2 := AfterClose(rules, s1, other);
    assert s2.position == [Root];
    var pushed := s2.(position := [Root, DocumentTag], openTag := DocumentTag, collectCurrentNode := false);
    CollectorProperties.AfterStartsUnique(pushed, rules, 1);
    StartIsCollected(rules, 1);
  }
}
