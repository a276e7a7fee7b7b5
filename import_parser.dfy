/**
 * `CommerceMlImportParser` (src/import-parser.ts): its collect-rule table,
 * what that table makes the collector do, and the folding of single and
 * repeated elements done by its listeners.
 */
module ImportParser {
  import opened Wrappers
  import opened CollectRules
  import opened Collector
  import opened ObjectTree
  import opened Utils
  import CollectorProperties

  const ClassifierTag := "Классификатор"
  const CatalogTag := "Каталог"

  const GroupStart: Path := [Root, ClassifierTag, "Группы", "Группа"]
  const ProductStart: Path := [Root, CatalogTag, "Товары", "Товар"]

  /** `getCollectRules()`. */
  function ImportRules(): (r: RuleTable)
    ensures |r| == 6
    ensures DistinctKeys(r) && DistinctStarts(r) && IncludesExtendStart(r)
    ensures StartsUnder(r, [Root])
    ensures forall i :: 0 <= i < |r| ==> |r[i].1.start| <= 4
    ensures r[0] == ("commercialInformation", Rule([Root], []))
    ensures r[2] == ("classifierGroup", Rule(GroupStart, [GroupStart]))
    ensures r[5] == ("product", Rule(ProductStart, [ProductStart]))
  {
    [ ("commercialInformation", Rule([Root], [])),
      ("classifier", Rule([Root, ClassifierTag],
                          [ [Root, ClassifierTag, "Ид"],
                            [Root, ClassifierTag, "Наименование"],
                            [Root, ClassifierTag, "Владелец"] ])),
      ("classifierGroup", Rule(GroupStart, [GroupStart])),
      ("classifierProperty", Rule([Root, ClassifierTag, "Свойства", "Свойство"],
                                  [ [Root, ClassifierTag, "Свойства", "Свойство"] ])),
      ("catalog", Rule([Root, CatalogTag],
                       [ [Root, CatalogTag, "Ид"],
                         [Root, CatalogTag, "ИдКлассификатора"],
                         [Root, CatalogTag, "Наименование"],
                         [Root, CatalogTag, "Владелец"] ])),
      ("product", Rule(ProductStart, [ProductStart])) ]
  }

  /**
   * `commercialInformation` has no include list, so its fragment is the root
   * element's open tag with its attributes; it is emitted, closed, when
   * `Классификатор` opens and `classifier` takes over.
   */
  lemma CommercialInformationEmittedOnClassifier(encode: string -> string,
                                                 attrs: seq<(string, string)>,
                                                 classifierAttrs: seq<(string, string)>)
    ensures var s := AfterEvents(ImportRules(), encode, Initial,
                                 [Open(Root, attrs), Open(ClassifierTag, classifierAttrs)]);
      && s.emitted == [("commercialInformation", "<" + Root + AttrsText(attrs) + ">" + CloseTag(Root))]
      && s.collect == "classifier"
  {
    var rules := ImportRules();
    var s1 := AfterOpen(rules, Initial, Root, attrs);
    RootOpens(attrs);
    CollectorProperties.Preemption(rules, s1, ClassifierTag, classifierAttrs, 1);
    assert ClosingTags([Root]) == CloseTag(Root);
    var evs := [Open(Root, attrs), Open(ClassifierTag, classifierAttrs)];
    assert evs[1..] == [Open(ClassifierTag, classifierAttrs)];
    assert AfterEvents(rules, encode, Initial, evs) == AfterEvents(rules, encode, s1, evs[1..]);
    assert AfterEvents(rules, encode, s1, evs[1..]) == AfterOpen(rules, s1, ClassifierTag, classifierAttrs);
  }

  /** Opening the root element starts `commercialInformation` and writes the root's open tag. */
  lemma RootOpens(attrs: seq<(string, string)>)
    ensures var s := AfterOpen(ImportRules(), Initial, Root, attrs);
      && s.collect == "commercialInformation" && s.emitted == []
      && s.position == [Root] && s.collectOpenTags == [Root]
      && s.xml == "<" + Root + AttrsText(attrs) + ">"
  {
    var rules := ImportRules();
    var pushed := Initial.(position := [Root], openTag := Root);
    CollectorProperties.AfterStartsUnique(pushed, rules, 0);
    StartIsCollected(rules, 0);
  }

  /**
   * While `classifierGroup` is active, every descendant tag, nested
   * `Группа` included, goes into its fragment and starts no collection.
   */
  lemma NestedGroupsStayInFragment(st: State, name: string, attrs: seq<(string, string)>)
    requires Inv(ImportRules(), st) && st.collect == "classifierGroup"
    ensures AfterOpen(ImportRules(), st, name, attrs)
      == st.(position := st.position + [name], openTag := name, collectCurrentNode := true,
             xml := st.xml + "<" + name + AttrsText(attrs) + ">",
             collectOpenTags := st.collectOpenTags + [name])
  {
    var rules := ImportRules();
    assert StartOf(rules, st.collect) == Some(GroupStart);
    CollectorProperties.WholeSubtreeCollected(rules, st, name, attrs, 2);
  }

  /** While `product` is active, every descendant tag goes into its fragment. */
  lemma ProductSubtreeStaysInFragment(st: State, name: string, attrs: seq<(string, string)>)
    requires Inv(ImportRules(), st) && st.collect == "product"
    ensures AfterOpen(ImportRules(), st, name, attrs)
      == st.(position := st.position + [name], openTag := name, collectCurrentNode := true,
             xml := st.xml + "<" + name + AttrsText(attrs) + ">",
             collectOpenTags := st.collectOpenTags + [name])
  {
    var rules := ImportRules();
    assert StartOf(rules, st.collect) == Some(ProductStart);
    CollectorProperties.WholeSubtreeCollected(rules, st, name, attrs, 5);
  }

  // ---------------------------------------------------------------------
  // Classifier groups
  // ---------------------------------------------------------------------

  datatype ClassifierGroup = ClassifierGroup(id: Value, name: Value, groups: Option<seq<ClassifierGroup>>)

  /** `groupData.Группы?.Группа`. */
  function Subgroups(groupData: Value): Value {
    Get(Get(groupData, "Группы"), "Группа")
  }

  /**
   * The group `processGroup` builds: the nested groups are read only when
   * `Группы.Группа` has a positive `length`, and `groups` is set only when
   * there is at least one.
   */
  function GroupOf(groupData: Value): (r: ClassifierGroup)
    ensures r.id == Get(groupData, "Ид") && r.name == Get(groupData, "Наименование")
    ensures r.groups.Some? <==> HasLength(Subgroups(groupData))
    ensures r.groups.Some? ==> |r.groups.value| == |Iterate(Subgroups(groupData))|
    decreases if groupData.Str? then 0 else 1, groupData
  {
    var kids := Subgroups(groupData);
    var children :=
      if HasLength(kids) then
        var xs := Iterate(kids);
        seq(|xs|, i requires 0 <= i < |xs| => GroupOf(xs[i]))
      else [];
    ClassifierGroup(Get(groupData, "Ид"), Get(groupData, "Наименование"),
                    if |children| > 0 then Some(children) else None)
  }

  /** `processGroup`: the nested groups are built by a loop, each by a recursive call. */
  method ProcessGroup(groupData: Value) returns (result: ClassifierGroup)
    ensures result == GroupOf(groupData)
    ensures result.groups.Some? ==>
      forall i :: 0 <= i < |result.groups.value| ==>
        result.groups.value[i] == GroupOf(Iterate(Subgroups(groupData))[i])
    decreases if groupData.Str? then 0 else 1, groupData
  {
    var children: seq<ClassifierGroup> := [];
    var kids := Subgroups(groupData);
    if HasLength(kids) {
      var xs := Iterate(kids);
      for k := 0 to |xs|
        invariant |children| == k
        invariant forall i :: 0 <= i < k ==> children[i] == GroupOf(xs[i])
      {
        var child := ProcessGroup(xs[k]);
        children := children + [child];
      }
      assert children == seq(|xs|, i requires 0 <= i < |xs| => GroupOf(xs[i]));
    }
    result := ClassifierGroup(Get(groupData, "Ид"), Get(groupData, "Наименование"), None);
    if |children| > 0 {
      result := result.(groups := Some(children));
    }
  }

  /** A group element with the given child elements, as the converter represents it. */
  function GroupElement(id: Value, name: Value, subgroups: seq<Value>): Value {
    Obj(map["Ид" := id, "Наименование" := name, "Группы" := Obj(map["Группа" := ChildValue(subgroups)])])
  }

  /**
   * As written, a group with exactly one nested group loses it: the converter
   * gives that group as a record, whose `length` is `undefined`.
   */
  lemma SingleSubgroupDropped(id: Value, name: Value, subgroup: map<string, Value>)
    ensures GroupOf(GroupElement(id, name, [Obj(subgroup)])).groups == None
  {
  }

  /** `processGroup` reading the nested groups through `convertToArray`, as the offers listeners do. */
  function GroupOfAllChildren(groupData: Value): (r: ClassifierGroup)
    ensures r.id == Get(groupData, "Ид") && r.name == Get(groupData, "Наименование")
    ensures r.groups.Some? <==> |ConvertToArray(Subgroups(groupData))| > 0
    ensures r.groups.Some? ==> |r.groups.value| == |ConvertToArray(Subgroups(groupData))|
    decreases groupData
  {
    var xs := ConvertToArray(Subgroups(groupData));
    var children := seq(|xs|, i requires 0 <= i < |xs| => GroupOfAllChildren(xs[i]));
    ClassifierGroup(Get(groupData, "Ид"), Get(groupData, "Наименование"),
                    if |children| > 0 then Some(children) else None)
  }

  /** Read through `convertToArray`, every nested group is kept, in document order, however many there are. */
  lemma EverySubgroupKept(id: Value, name: Value, subgroups: seq<Value>)
    requires forall i :: 0 <= i < |subgroups| ==> subgroups[i].Obj?
    ensures var r := GroupOfAllChildren(GroupElement(id, name, subgroups));
      && (r.groups.Some? <==> |subgroups| > 0)
      && (r.groups.Some? ==> r.groups.value == seq(|subgroups|, i requires 0 <= i < |subgroups| => GroupOfAllChildren(subgroups[i])))
  {
    ConvertToArrayRecoversOccurrences(subgroups);
  }

  // ---------------------------------------------------------------------
  // Counterparties
  // ---------------------------------------------------------------------

  datatype CompanyInfo = CompanyInfo(officialName: Value, inn: Value, kpp: Value, okpo: Value)
  datatype PersonInfo = PersonInfo(fullName: Value)
  datatype Counterparty = Counterparty(id: Value, name: Value,
                                       companyInfo: Option<CompanyInfo>, personInfo: Option<PersonInfo>)

  /**
   * `parseCounterpartyXmlData`: a company when `ОфициальноеНаименование` is
   * truthy, a person otherwise. Reading `Ид` of an absent owner throws a
   * `TypeError`, which is `None` here.
   */
  function CounterpartyOf(xmlData: Value): (r: Option<Counterparty>)
    ensures r.None? <==> xmlData == Undef
    ensures r.Some? ==> r.value.id == Get(xmlData, "Ид") && r.value.name == Get(xmlData, "Наименование")
    ensures r.Some? ==> (r.value.companyInfo.Some? <==> Truthy(Get(xmlData, "ОфициальноеНаименование")))
    ensures r.Some? ==> (r.value.companyInfo.Some? <==> r.value.personInfo.None?)
    ensures r.Some? && r.value.companyInfo.Some? ==>
      r.value.companyInfo.value == CompanyInfo(Get(xmlData, "ОфициальноеНаименование"), Get(xmlData, "ИНН"),
                                               Get(xmlData, "КПП"), Get(xmlData, "ОКПО"))
    ensures r.Some? && r.value.personInfo.Some? ==>
      r.value.personInfo.value == PersonInfo(Get(xmlData, "ПолноеНаименование"))
  {
    if xmlData == Undef then None
    else
      var base := Counterparty(Get(xmlData, "Ид"), Get(xmlData, "Наименование"), None, None);
      if Truthy(Get(xmlData, "ОфициальноеНаименование")) then
        Some(base.(companyInfo := Some(CompanyInfo(Get(xmlData, "ОфициальноеНаименование"), Get(xmlData, "ИНН"),
                                                   Get(xmlData, "КПП"), Get(xmlData, "ОКПО")))))
      else
        Some(base.(personInfo := Some(PersonInfo(Get(xmlData, "ПолноеНаименование")))))
  }

  // ---------------------------------------------------------------------
  // Product: tax rates, property values, requisite values
  // ---------------------------------------------------------------------

  datatype TaxRate = TaxRate(name: Value, rate: Value)

  function TaxRateOf(taxRateXml: Value): TaxRate {
    TaxRate(Get(taxRateXml, "Наименование"), Get(taxRateXml, "Ставка"))
  }

  /** `productXml.СтавкиНалогов?.СтавкаНалога`. */
  function TaxRatesXml(productXml: Value): Value {
    Get(Get(productXml, "СтавкиНалогов"), "СтавкаНалога")
  }

  /**
   * `product.taxRates`: set when `СтавкаНалога` is truthy; one entry per
   * element of a list, in order, or one entry for a single element.
   */
  method ProductTaxRates(productXml: Value) returns (taxRates: Option<seq<TaxRate>>)
    ensures taxRates.Some? <==> Truthy(TaxRatesXml(productXml))
    ensures taxRates.Some? ==>
      var xs := ConvertToArray(TaxRatesXml(productXml));
      |taxRates.value| == |xs| && forall i :: 0 <= i < |xs| ==> taxRates.value[i] == TaxRateOf(xs[i])
  {
    var rates := TaxRatesXml(productXml);
    taxRates := None;
    if Truthy(rates) {
      if rates.List? {
        var acc: seq<TaxRate> := [];
        for k := 0 to |rates.items|
          invariant |acc| == k
          invariant forall i :: 0 <= i < k ==> acc[i] == TaxRateOf(rates.items[i])
        {
          acc := acc + [TaxRateOf(rates.items[k])];
        }
        taxRates := Some(acc);
      } else {
        taxRates := Some([TaxRateOf(rates)]);
      }
    }
  }

  /** `values` of a property or requisite value: a list is kept as it is, anything else is wrapped. */
  function ValuesOf(v: Value): seq<Value> {
    if v.List? then v.items else [v]
  }

  /** `ValuesOf` agrees with `convertToArray` except on an absent value, which it wraps as `[undefined]`. */
  lemma ValuesOfIsConvertToArray(v: Value)
    ensures v != Undef ==> ValuesOf(v) == ConvertToArray(v)
    ensures ValuesOf(Undef) == [Undef]
  {
  }

  datatype PropertyValue = PropertyValue(id: Value, values: seq<Value>)
  datatype RequisiteValue = RequisiteValue(name: Value, values: seq<Value>)

  function PropertyValueOf(x: Value): PropertyValue {
    PropertyValue(Get(x, "Ид"), ValuesOf(Get(x, "Значение")))
  }

  function RequisiteValueOf(x: Value): RequisiteValue {
    RequisiteValue(Get(x, "Наименование"), ValuesOf(Get(x, "Значение")))
  }

  /** `productXml.ЗначенияСвойств?.ЗначенияСвойства`. */
  function PropertyValuesXml(productXml: Value): Value {
    Get(Get(productXml, "ЗначенияСвойств"), "ЗначенияСвойства")
  }

  /** `productXml.ЗначенияРеквизитов?.ЗначениеРеквизита`. */
  function RequisiteValuesXml(productXml: Value): Value {
    Get(Get(productXml, "ЗначенияРеквизитов"), "ЗначениеРеквизита")
  }

  /**
   * `product.propertyValues`: set only when `ЗначенияСвойства` has a positive
   * `length`; then one entry per element, in order.
   */
  method ProductPropertyValues(productXml: Value) returns (propertyValues: Option<seq<PropertyValue>>)
    ensures propertyValues.Some? <==> HasLength(PropertyValuesXml(productXml))
    ensures propertyValues.Some? ==>
      var xs := Iterate(PropertyValuesXml(productXml));
      |propertyValues.value| == |xs| && forall i :: 0 <= i < |xs| ==> propertyValues.value[i] == PropertyValueOf(xs[i])
  {
    var pvs := PropertyValuesXml(productXml);
    propertyValues := None;
    if HasLength(pvs) {
      var xs := Iterate(pvs);
      var acc: seq<PropertyValue> := [];
      for k := 0 to |xs|
        invariant |acc| == k
        invariant forall i :: 0 <= i < k ==> acc[i] == PropertyValueOf(xs[i])
      {
        var propertyValue := xs[k];
        if Get(propertyValue, "Значение").List? {
          acc := acc + [PropertyValue(Get(propertyValue, "Ид"), Get(propertyValue, "Значение").items)];
        } else {
          acc := acc + [PropertyValue(Get(propertyValue, "Ид"), [Get(propertyValue, "Значение")])];
        }
      }
      propertyValues := Some(acc);
    }
  }

  /**
   * `product.requisiteValues`: set only when `ЗначениеРеквизита` has a
   * positive `length`; then one entry per element, in order.
   */
  method ProductRequisiteValues(productXml: Value) returns (requisiteValues: Option<seq<RequisiteValue>>)
    ensures requisiteValues.Some? <==> HasLength(RequisiteValuesXml(productXml))
    ensures requisiteValues.Some? ==>
      var xs := Iterate(RequisiteValuesXml(productXml));
      |requisiteValues.value| == |xs| && forall i :: 0 <= i < |xs| ==> requisiteValues.value[i] == RequisiteValueOf(xs[i])
  {
    var rvs := RequisiteValuesXml(productXml);
    requisiteValues := None;
    if HasLength(rvs) {
      var xs := Iterate(rvs);
      var acc: seq<RequisiteValue> := [];
      for k := 0 to |xs|
        invariant |acc| == k
        invariant forall i :: 0 <= i < k ==> acc[i] == RequisiteValueOf(xs[i])
      {
        var requisiteValue := xs[k];
        if Get(requisiteValue, "Значение").List? {
          acc := acc + [RequisiteValue(Get(requisiteValue, "Наименование"), Get(requisiteValue, "Значение").items)];
        } else {
          acc := acc + [RequisiteValue(Get(requisiteValue, "Наименование"), [Get(requisiteValue, "Значение")])];
        }
      }
      requisiteValues := Some(acc);
    }
  }

  /** A product element whose `ЗначенияСвойств` holds the given `ЗначенияСвойства` elements. */
  function ProductWithPropertyValues(occurrences: seq<Value>): Value {
    Obj(map["ЗначенияСвойств" := Obj(map["ЗначенияСвойства" := ChildValue(occurrences)])])
  }

  /** A product element whose `ЗначенияРеквизитов` holds the given `ЗначениеРеквизита` elements. */
  function ProductWithRequisiteValues(occurrences: seq<Value>): Value {
    Obj(map["ЗначенияРеквизитов" := Obj(map["ЗначениеРеквизита" := ChildValue(occurrences)])])
  }

  /**
   * As written, the `length > 0` test fails for a product with exactly one
   * property value, so by `ProductPropertyValues` it gets no `propertyValues`.
   */
  lemma SinglePropertyValueDropped(pv: map<string, Value>)
    ensures !HasLength(PropertyValuesXml(ProductWithPropertyValues([Obj(pv)])))
  {
  }

  /**
   * As written, the `length > 0` test fails for a product with exactly one
   * requisite value, so by `ProductRequisiteValues` it gets no `requisiteValues`.
   */
  lemma SingleRequisiteValueDropped(rv: map<string, Value>)
    ensures !HasLength(RequisiteValuesXml(ProductWithRequisiteValues([Obj(rv)])))
  {
  }

  /** `product.propertyValues` read through `convertToArray`: set when there is at least one. */
  function PropertyValuesAll(productXml: Value): (r: Option<seq<PropertyValue>>)
    ensures var xs := ConvertToArray(PropertyValuesXml(productXml));
      && (r.Some? <==> |xs| > 0)
      && (r.Some? ==> |r.value| == |xs| && forall i :: 0 <= i < |xs| ==> r.value[i] == PropertyValueOf(xs[i]))
  {
    var xs := ConvertToArray(PropertyValuesXml(productXml));
    if |xs| > 0 then Some(seq(|xs|, i requires 0 <= i < |xs| => PropertyValueOf(xs[i]))) else None
  }

  /** `product.requisiteValues` read through `convertToArray`: set when there is at least one. */
  function RequisiteValuesAll(productXml: Value): (r: Option<seq<RequisiteValue>>)
    ensures var xs := ConvertToArray(RequisiteValuesXml(productXml));
      && (r.Some? <==> |xs| > 0)
      && (r.Some? ==> |r.value| == |xs| && forall i :: 0 <= i < |xs| ==> r.value[i] == RequisiteValueOf(xs[i]))
  {
    var xs := ConvertToArray(RequisiteValuesXml(productXml));
    if |xs| > 0 then Some(seq(|xs|, i requires 0 <= i < |xs| => RequisiteValueOf(xs[i]))) else None
  }

  /** Read through `convertToArray`, every property value element is kept, in order, however many there are. */
  lemma EveryPropertyValueKept(occurrences: seq<Value>)
    requires forall i :: 0 <= i < |occurrences| ==> occurrences[i].Obj?
    ensures var r := PropertyValuesAll(ProductWithPropertyValues(occurrences));
      && (r.Some? <==> |occurrences| > 0)
      && (r.Some? ==> |r.value| == |occurrences|
                      && forall i :: 0 <= i < |occurrences| ==> r.value[i] == PropertyValueOf(occurrences[i]))
  {
    ConvertToArrayRecoversOccurrences(occurrences);
  }

  /** Read through `convertToArray`, every requisite value element is kept, in order, however many there are. */
  lemma EveryRequisiteValueKept(occurrences: seq<Value>)
    requires forall i :: 0 <= i < |occurrences| ==> occurrences[i].Obj?
    ensures var r := RequisiteValuesAll(ProductWithRequisiteValues(occurrences));
      && (r.Some? <==> |occurrences| > 0)
      && (r.Some? ==> |r.value| == |occurrences|
                      && forall i :: 0 <= i < |occurrences| ==> r.value[i] == RequisiteValueOf(occurrences[i]))
  {
    ConvertToArrayRecoversOccurrences(occurrences);
  }
}
