/**
 * `CommerceMlOffersParser` (src/offers-parser.ts): its collect-rule table,
 * which children of the offers package its header rule keeps, and the
 * price-type and offer listeners.
 */
module OffersParser {
  import opened Wrappers
  import opened CollectRules
  import opened Collector
  import opened ObjectTree
  import opened Utils
  import CollectorProperties

  const PackageTag := "ПакетПредложений"

  const PackagePath: Path := [Root, PackageTag]
  const WarehouseStart: Path := [Root, PackageTag, "Склады", "Склад"]
  const OfferStart: Path := [Root, PackageTag, "Предложения", "Предложение"]

  /** The children of `ПакетПредложений` the `offersPackage` rule includes, in table order. */
  const PackageChildren: seq<string> := ["Ид", "Наименование", "ИдКаталога", "ИдКлассификатора", "Владелец", "ТипыЦен"]

  /** The `rules` field. */
  function OffersRules(): (r: RuleTable)
    ensures |r| == 6
    ensures DistinctKeys(r) && DistinctStarts(r) && IncludesExtendStart(r)
    ensures StartsUnder(r, [Root])
    ensures forall i :: 0 <= i < |r| ==> |r[i].1.start| <= 4
    ensures r[3].0 == "offersPackage" && r[3].1.start == PackagePath && |r[3].1.includes| == 6
    ensures forall k :: 0 <= k < 6 ==> r[3].1.includes[k] == PackagePath + [PackageChildren[k]]
    ensures r[4] == ("warehouse", Rule(WarehouseStart, [WarehouseStart]))
    ensures r[5] == ("offer", Rule(OfferStart, [OfferStart]))
  {
    var r := [ ("commercialInformation", Rule([Root], [])),
      ("classifier", Rule([Root, "Классификатор"],
                          [ [Root, "Классификатор", "Ид"],
                            [Root, "Классификатор", "Наименование"],
                            [Root, "Классификатор", "Владелец"] ])),
      ("classifierProperty", Rule([Root, "Классификатор", "Свойства", "Свойство"],
                                  [ [Root, "Классификатор", "Свойства", "Свойство"] ])),
      ("offersPackage", Rule(PackagePath,
                             [ [Root, PackageTag, "Ид"],
                               [Root, PackageTag, "Наименование"],
                               [Root, PackageTag, "ИдКаталога"],
                               [Root, PackageTag, "ИдКлассификатора"],
                               [Root, PackageTag, "Владелец"],
                               [Root, PackageTag, "ТипыЦен"] ])),
      ("warehouse", Rule(WarehouseStart, [WarehouseStart])),
      ("offer", Rule(OfferStart, [OfferStart])) ];
    r
  }

  /**
   * A direct child of `ПакетПредложений` is written into a fragment exactly
   * when it is one of the six children the `offersPackage` rule includes.
   */
  lemma {:induction false} PackageChildCollectedIff(child: string)
    ensures ShallCollectAt(OffersRules(), PackagePath + [child]) <==> child in PackageChildren
  {
    var rules := OffersRules();
    var pos := PackagePath + [child];
    if child in PackageChildren {
      var k :| 0 <= k < 6 && PackageChildren[k] == child;
      assert IsPrefix(rules[3].1.includes[k], pos);
      assert Selects(rules[3].1, pos);
    } else {
      forall i | 0 <= i < |rules|
        ensures !Selects(rules[i].1, pos)
      {
        if i == 3 {
          forall j | 0 <= j < 6
            ensures !IsPrefix(rules[3].1.includes[j], pos)
          {
            assert rules[3].1.includes[j][2] == PackageChildren[j];
          }
        } else if i == 1 {
          forall j | 0 <= j < 3
            ensures !IsPrefix(rules[1].1.includes[j], pos)
          {
            assert rules[1].1.includes[j][1] != pos[1];
          }
        }
      }
    }
  }

  /**
   * Nothing below `Склады` or `Предложения` is selected by the `offersPackage`
   * rule, so the package header fragment never holds warehouses or offers.
   */
  lemma WarehousesAndOffersNotInPackage(section: string, rest: Path)
    requires section == "Склады" || section == "Предложения"
    ensures !Selects(OffersRules()[3].1, PackagePath + [section] + rest)
    ensures !ShallCollectAt(OffersRules(), PackagePath + [section])
  {
    var rules := OffersRules();
    var pos := PackagePath + [section] + rest;
    forall j | 0 <= j < 6
      ensures !IsPrefix(rules[3].1.includes[j], pos)
    {
      assert rules[3].1.includes[j][2] == PackageChildren[j];
      assert pos[2] == section;
    }
    PackageChildCollectedIff(section);
  }

  /** While `warehouse` is active, every descendant tag goes into its fragment. */
  lemma WarehouseSubtreeStaysInFragment(st: State, name: string, attrs: seq<(string, string)>)
    requires Inv(OffersRules(), st) && st.collect == "warehouse"
    ensures AfterOpen(OffersRules(), st, name, attrs)
      == st.(position := st.position + [name], openTag := name, collectCurrentNode := true,
             xml := st.xml + "<" + name + AttrsText(attrs) + ">",
             collectOpenTags := st.collectOpenTags + [name])
  {
    var rules := OffersRules();
    assert StartOf(rules, st.collect) == Some(WarehouseStart);
    CollectorProperties.WholeSubtreeCollected(rules, st, name, attrs, 4);
  }

  /** While `offer` is active, every descendant tag goes into its fragment. */
  lemma OfferSubtreeStaysInFragment(st: State, name: string, attrs: seq<(string, string)>)
    requires Inv(OffersRules(), st) && st.collect == "offer"
    ensures AfterOpen(OffersRules(), st, name, attrs)
      == st.(position := st.position + [name], openTag := name, collectCurrentNode := true,
             xml := st.xml + "<" + name + AttrsText(attrs) + ">",
             collectOpenTags := st.collectOpenTags + [name])
  {
    var rules := OffersRules();
    assert StartOf(rules, st.collect) == Some(OfferStart);
    CollectorProperties.WholeSubtreeCollected(rules, st, name, attrs, 5);
  }

  // ---------------------------------------------------------------------
  // Offers package: price types
  // ---------------------------------------------------------------------

  datatype Tax = Tax(name: Value, includedInSum: Value, excise: Value)
  datatype PriceType = PriceType(id: Value, name: Value, currency: Value, tax: Option<Tax>)

  /** One `ТипЦены` element as a price type; `tax` only when `Налог` is truthy. */
  function PriceTypeOf(priceTypeXml: Value): (r: PriceType)
    ensures r.tax.Some? <==> Truthy(Get(priceTypeXml, "Налог"))
  {
    var tax := Get(priceTypeXml, "Налог");
    PriceType(Get(priceTypeXml, "Ид"), Get(priceTypeXml, "Наименование"), Get(priceTypeXml, "Валюта"),
              if Truthy(tax) then Some(Tax(Get(tax, "Наименование"), Get(tax, "УчтеноВСумме"), Get(tax, "Акциз")))
              else None)
  }

  /** `offersPackageXml.ТипыЦен?.ТипЦены`. */
  function PriceTypesXml(offersPackageXml: Value): Value {
    Get(Get(offersPackageXml, "ТипыЦен"), "ТипЦены")
  }

  /**
   * The header fields of an offers package, with `offers` left empty as the
   * listener leaves it; `owner` is not part of this model.
   */
  datatype OffersPackage = OffersPackage(changesOnly: Value, id: Value, name: Value, catalogId: Value,
                                         classifierId: Value, offers: seq<Offer>, priceTypes: seq<PriceType>)

  /**
   * The `offersPackage` listener: the header fields, and one price type per
   * converted `ТипЦены` element, in document order, pushed by a loop.
   */
  method OffersPackageOf(offersPackageXml: Value) returns (offersPackage: OffersPackage)
    ensures offersPackage.id == Get(offersPackageXml, "Ид") && offersPackage.name == Get(offersPackageXml, "Наименование")
    ensures offersPackage.catalogId == Get(offersPackageXml, "ИдКаталога")
    ensures offersPackage.classifierId == Get(offersPackageXml, "ИдКлассификатора")
    ensures offersPackage.changesOnly == Get(offersPackageXml, "_СодержитТолькоИзменения")
    ensures var xs := ConvertToArray(PriceTypesXml(offersPackageXml));
      && |offersPackage.priceTypes| == |xs|
      && forall i :: 0 <= i < |xs| ==> offersPackage.priceTypes[i] == PriceTypeOf(xs[i])
    ensures PriceTypesXml(offersPackageXml) == Undef ==> offersPackage.priceTypes == []
    ensures offersPackage.offers == []
  {
    offersPackage := OffersPackage(Get(offersPackageXml, "_СодержитТолькоИзменения"), Get(offersPackageXml, "Ид"),
                                   Get(offersPackageXml, "Наименование"), Get(offersPackageXml, "ИдКаталога"),
                                   Get(offersPackageXml, "ИдКлассификатора"), [], []);
    var xs := ConvertToArray(PriceTypesXml(offersPackageXml));
    for k := 0 to |xs|
      invariant |offersPackage.priceTypes| == k
      invariant forall i :: 0 <= i < k ==> offersPackage.priceTypes[i] == PriceTypeOf(xs[i])
      invariant offersPackage.id == Get(offersPackageXml, "Ид") && offersPackage.name == Get(offersPackageXml, "Наименование")
      invariant offersPackage.catalogId == Get(offersPackageXml, "ИдКаталога")
      invariant offersPackage.classifierId == Get(offersPackageXml, "ИдКлассификатора")
      invariant offersPackage.changesOnly == Get(offersPackageXml, "_СодержитТолькоИзменения")
      invariant offersPackage.offers == []
    {
      var priceTypeXml := xs[k];
      var priceType := PriceType(Get(priceTypeXml, "Ид"), Get(priceTypeXml, "Наименование"),
                                 Get(priceTypeXml, "Валюта"), None);
      if Truthy(Get(priceTypeXml, "Налог")) {
        var taxXml := Get(priceTypeXml, "Налог");
        priceType := priceType.(tax := Some(Tax(Get(taxXml, "Наименование"), Get(taxXml, "УчтеноВСумме"),
                                                Get(taxXml, "Акциз"))));
      }
      offersPackage := offersPackage.(priceTypes := offersPackage.priceTypes + [priceType]);
    }
  }

  /** A package element whose `ТипыЦен` holds the given `ТипЦены` elements. */
  function PackageWithPriceTypes(occurrences: seq<Value>): Value {
    Obj(map["ТипыЦен" := Obj(map["ТипЦены" := ChildValue(occurrences)])])
  }

  /**
   * Whether a package has no, one or several price types, the converted
   * list holds them all in document order, so `priceTypes` has one entry each.
   */
  lemma EveryPriceTypeKept(occurrences: seq<Value>)
    requires forall i :: 0 <= i < |occurrences| ==> occurrences[i].Obj?
    ensures ConvertToArray(PriceTypesXml(PackageWithPriceTypes(occurrences))) == occurrences
  {
    ConvertToArrayRecoversOccurrences(occurrences);
  }

  // ---------------------------------------------------------------------
  // Offers
  // ---------------------------------------------------------------------

  datatype MeasurementUnit = MeasurementUnit(code: Value, fullName: Value, acronym: Value)
  datatype Price = Price(representation: Value, priceTypeId: Value, pricePerUnit: Value,
                         currency: Value, unitAcronym: Value, coefficient: Value)
  /** A stock entry; `quantity` is the attribute text, before `Number.parseInt`. */
  datatype Stock = Stock(warehouseId: Value, quantity: Value)
  datatype Offer = Offer(id: Value, name: Value, baseMeasurementUnit: MeasurementUnit, quantity: Value,
                         article: Option<Value>, prices: seq<Price>, stocks: seq<Stock>)

  function PriceOf(priceXml: Value): Price {
    Price(Get(priceXml, "Представление"), Get(priceXml, "ИдТипаЦены"), Get(priceXml, "ЦенаЗаЕдиницу"),
          Get(priceXml, "Валюта"), Get(priceXml, "Единица"), Get(priceXml, "Коэффициент"))
  }

  function StockOf(stockXml: Value): Stock {
    Stock(Get(stockXml, "_ИдСклада"), Get(stockXml, "_КоличествоНаСкладе"))
  }

  /** `offerXml.Цены?.Цена`. */
  function PricesXml(offerXml: Value): Value {
    Get(Get(offerXml, "Цены"), "Цена")
  }

  /**
   * The `offer` listener: `article` only when `Артикул` is truthy; `prices`
   * and `stocks` always, one entry per converted `Цена` and `Склад` element,
   * in document order.
   */
  method OfferOf(offerXml: Value) returns (offer: Offer)
    ensures offer.id == Get(offerXml, "Ид") && offer.name == Get(offerXml, "Наименование")
    ensures offer.quantity == Get(offerXml, "Количество")
    ensures offer.baseMeasurementUnit
      == MeasurementUnit(Get(Get(offerXml, "БазоваяЕдиница"), "_Код"),
                         Get(Get(offerXml, "БазоваяЕдиница"), "_НаименованиеПолное"),
                         Get(Get(offerXml, "БазоваяЕдиница"), "_МеждународноеСокращение"))
    ensures offer.article.Some? <==> Truthy(Get(offerXml, "Артикул"))
    ensures offer.article.Some? ==> offer.article.value == Get(offerXml, "Артикул")
    ensures var xs := ConvertToArray(PricesXml(offerXml));
      && |offer.prices| == |xs| && forall i :: 0 <= i < |xs| ==> offer.prices[i] == PriceOf(xs[i])
    ensures var xs := ConvertToArray(Get(offerXml, "Склад"));
      && |offer.stocks| == |xs| && forall i :: 0 <= i < |xs| ==> offer.stocks[i] == StockOf(xs[i])
  {
    var unitXml := Get(offerXml, "БазоваяЕдиница");
    offer := Offer(Get(offerXml, "Ид"), Get(offerXml, "Наименование"),
                   MeasurementUnit(Get(unitXml, "_Код"), Get(unitXml, "_НаименованиеПолное"),
                                   Get(unitXml, "_МеждународноеСокращение")),
                   Get(offerXml, "Количество"), None, [], []);
    if Truthy(Get(offerXml, "Артикул")) {
      offer := offer.(article := Some(Get(offerXml, "Артикул")));
    }

    var prices: seq<Price> := [];
    var priceXmls := ConvertToArray(PricesXml(offerXml));
    for k := 0 to |priceXmls|
      invariant |prices| == k
      invariant forall i :: 0 <= i < k ==> prices[i] == PriceOf(priceXmls[i])
    {
      var priceXml := priceXmls[k];
      prices := prices + [Price(Get(priceXml, "Представление"), Get(priceXml, "ИдТипаЦены"),
                                Get(priceXml, "ЦенаЗаЕдиницу"), Get(priceXml, "Валюта"),
                                Get(priceXml, "Единица"), Get(priceXml, "Коэффициент"))];
    }
    offer := offer.(prices := prices);

    var stocks: seq<Stock> := [];
    var stockXmls := ConvertToArray(Get(offerXml, "Склад"));
    for k := 0 to |stockXmls|
      invariant |stocks| == k
      invariant forall i :: 0 <= i < k ==> stocks[i] == StockOf(stockXmls[i])
    {
      var stockXml := stockXmls[k];
      stocks := stocks + [Stock(Get(stockXml, "_ИдСклада"), Get(stockXml, "_КоличествоНаСкладе"))];
    }
    offer := offer.(stocks := stocks);
  }

  /** An offer element holding the given `Цена` elements under `Цены` and the given `Склад` elements. */
  function OfferWith(priceOccurrences: seq<Value>, stockOccurrences: seq<Value>): Value {
    Obj(map["Цены" := Obj(map["Цена" := ChildValue(priceOccurrences)]),
            "Склад" := ChildValue(stockOccurrences)])
  }

  /**
   * Whether an offer has no, one or several prices and stocks, the converted
   * lists hold them all in document order, so `prices` and `stocks` have one
   * entry each, and are empty when the elements are absent.
   */
  lemma EveryPriceAndStockKept(priceOccurrences: seq<Value>, stockOccurrences: seq<Value>)
    requires forall i :: 0 <= i < |priceOccurrences| ==> priceOccurrences[i].Obj?
    requires forall i :: 0 <= i < |stockOccurrences| ==> stockOccurrences[i].Obj?
    ensures ConvertToArray(PricesXml(OfferWith(priceOccurrences, stockOccurrences))) == priceOccurrences
    ensures ConvertToArray(Get(OfferWith(priceOccurrences, stockOccurrences), "Склад")) == stockOccurrences
  {
    ConvertToArrayRecoversOccurrences(priceOccurrences);
    ConvertToArrayRecoversOccurrences(stockOccurrences);
  }
}
