# commerceml-parser: the rule-driven subtree collector

This project models the core of `commerceml-parser`, a streaming reader for
CommerceML 2 exchange files (the `КоммерческаяИнформация` documents exchanged
between 1C and online shops), and proves properties of that model.

The parser never builds the whole document. A SAX tokenizer reports open
tags, text and close tags. `CommerceMlAbstractParser` follows the tag path.
A small table of *collect rules* decides which subtrees it copies into a
fragment buffer. Each rule has a `start` path and a list of `include` paths.

- When a rule's start path opens, that rule becomes active. If another
  collection is still in flight, that one is emitted first.
- While a rule is active, a tag is written into the fragment when its path
  is some rule's start or lies under some rule's include entry. An open tag
  that starts no rule while the collector is idle only appends `>`, even on
  an included path.
- When the active rule's start path closes, the fragment is closed and
  emitted under the rule's key, and the collector is idle again.

The three concrete parsers, for catalogues (`import`), offers and orders,
share the collector and each supplies its own table. The import and offers
parsers also register listeners that turn each emitted fragment, once it has
been converted to an object tree, into plain records; the orders parser
registers none.

Files:

- `collect_rules.dfy` (`CollectRules`): rules, tables and the path
  predicates `isPositionEq` and `shallCollect` decide.
- `collector.dfy` (`Collector`): the collector as a function of its state.
  There is one step per notification, and `AfterEvents` folds a whole
  notification sequence. `Inv` is the collector's invariant.
- `collector_properties.dfy` (`CollectorProperties`): what the collector
  guarantees. This covers the invariant, preemption, emitting, what gets
  written, and whole balanced documents.
- `abstract_parser.dfy` (`AbstractParser`): the class itself, with the
  source's fields and handlers updating them in place. Each handler is
  proved to leave the fields as the matching step function says, and to
  keep the invariant.
- `object_tree.dfy` (`ObjectTree`): the object tree the listeners read
  (`undefined`, text, record, list), and the few JavaScript operations
  they apply to it.
- `utils.dfy` (`Utils`): `convertToArray`.
- `import_parser.dfy`, `offers_parser.dfy`, `orders_parser.dfy`: the three
  rule tables, facts about what they make the collector do, and the
  listeners' single-versus-list folding.

Behaviour of the code worth knowing, which the model keeps:

- Attribute values are written as ` key="value"` without escaping
  (src/abstract-parser.ts:120).
- `>` is appended on every open tag, even while the collector is idle
  (src/abstract-parser.ts:124). As a result, a fragment can begin with a
  stray `>` (`OrdersParser.StrayBracketBeforeNextDocument`).
- src/offers-parser.ts declares its table as a `rules` field and listens on
  an `eventEmitter`, while src/abstract-parser.ts reads `getCollectRules()`
  and emits on its SAX stream. The offers table is modelled as one more
  table of the same type.

## Model

| member | source | states |
|---|---|---|
| CollectRules.StartOf | src/abstract-parser.ts:183 | the active rule's start is found exactly when some rule has the key, it is that rule's start, and with distinct keys it is the start of every rule with that key |
| CollectRules.StartIsCollected | src/abstract-parser.ts:131-145 | a rule's own start path is always collected |
| Collector.ReduceLastPosition | src/abstract-parser.ts:194-196 | removes exactly the last element; an empty path stays empty |
| CollectorProperties.AfterStartsKeeps | src/abstract-parser.ts:107-112 | the start loop leaves the path, `openTag` and `collectCurrentNode` alone and only appends to the event log |
| CollectorProperties.AfterStartsNoMatch | src/abstract-parser.ts:107-112 | when no rule starts at the current path the start loop changes nothing |
| CollectorProperties.AfterStartsUnique | src/abstract-parser.ts:107-112 | when exactly one rule starts at the current path the start loop is one `startCollect` of its key |
| CollectorProperties.AfterStartsShape | src/abstract-parser.ts:147-153 | after the start loop the state is unchanged, or a rule starting at the current path is active with no tags open in the fragment |
| CollectorProperties.OpenKeepsInv | src/abstract-parser.ts:99-126 | `onOpenTag` keeps the invariant: idle with nothing open, or an existing key whose start is on the path, with exactly the collected tags below it open |
| CollectorProperties.CloseKeepsInv | src/abstract-parser.ts:176-192 | `onCloseTag` keeps the invariant |
| CollectorProperties.EventKeepsInv | src/abstract-parser.ts:53-63 | every tokenizer notification keeps the invariant |
| CollectorProperties.EventsKeepInv | src/abstract-parser.ts:99-192 | after any notification sequence `collect` is idle or a key of the table whose start is a prefix of the path, so one collection at a time |
| CollectorProperties.InitialInv | src/abstract-parser.ts:20-45 | the field initialisers satisfy the invariant |
| CollectorProperties.ClosingTagsReversed | src/abstract-parser.ts:155-160 | `emitCollected` closes the fragment's open tags in reverse order of opening |
| CollectorProperties.OpenEmits | src/abstract-parser.ts:147-153 | opening a tag emits exactly when a rule starts there while another collection is in flight; the in-flight fragment with its tags closed is logged and the starting rule's key becomes active |
| CollectorProperties.Preemption | src/abstract-parser.ts:108-112 | a start opening during a collection logs the in-flight fragment first, then makes its key active |
| CollectorProperties.CloseAtStartEmitsOne | src/abstract-parser.ts:176-186 | closing the active rule's start logs exactly one event, the buffer plus the closing tag, and returns to idle |
| CollectorProperties.CloseElsewhereEmitsNothing | src/abstract-parser.ts:176-192 | closing any other path logs nothing and keeps the active key |
| CollectorProperties.UncollectedOpen | src/abstract-parser.ts:114-124 | an open tag on an uncollected path writes only `>`, touches neither `collectOpenTags` nor the key, and logs nothing |
| CollectorProperties.UncollectedClose | src/abstract-parser.ts:177-181 | a close tag on an uncollected path writes nothing and leaves the fragment's open tags alone |
| CollectorProperties.CollectedOpen | src/abstract-parser.ts:114-124 | during a collection an open tag on a collected path is written with its attributes as ` key="value"` and pushed on `collectOpenTags` |
| CollectorProperties.WholeSubtreeCollected | src/abstract-parser.ts:131-145 | while a rule whose include list holds its start is active, every descendant that starts no rule is written into its fragment |
| CollectorProperties.TextAfterOpen | src/abstract-parser.ts:170-174 | text right after an open tag is written, through `encodeXML`, exactly when that tag was collected |
| CollectorProperties.TextAfterCloseDropped | src/abstract-parser.ts:170-191 | text right after a close tag is dropped |
| CollectorProperties.EventsSplit | src/abstract-parser.ts:53-63 | handling a notification sequence in two consecutive parts gives the same outcome as handling it at once |
| CollectorProperties.EventOnlyAppends | src/abstract-parser.ts:163 | a handler only appends to the event log |
| CollectorProperties.EventsOnlyAppend | src/abstract-parser.ts:163 | events already emitted are never changed or reordered |
| CollectorProperties.PositionFollowsWalk | src/abstract-parser.ts:103-196 | the path follows the opens (push the name) and closes (pop one) and nothing else |
| CollectorProperties.BalancedKeepsPosition | src/abstract-parser.ts:103-196 | a balanced notification sequence leaves the path unchanged |
| CollectorProperties.BalancedDocumentEndsIdle | src/abstract-parser.ts:176-186 | after a whole balanced document every collection has been emitted and nothing is left open |
| AbstractParser.Parser.constructor | src/abstract-parser.ts:20-45 | the fields start empty and idle, and the invariant holds |
| AbstractParser.Parser.IsPositionEq | src/abstract-parser.ts:198-224 | mode `eq` holds iff `p` is the current path; mode `begin` holds iff `p` is a prefix of it |
| AbstractParser.Parser.ShallCollect | src/abstract-parser.ts:131-145 | true iff some rule starts at the current path or has an include entry that is a prefix of it |
| AbstractParser.Parser.EmitCollected | src/abstract-parser.ts:155-168 | appends the closing tags in reverse order, logs exactly one `(collect, xml)` event, resets `collect`, `xml` and `collectOpenTags` |
| AbstractParser.Parser.StartCollect | src/abstract-parser.ts:147-153 | an in-flight collection is emitted before `key` becomes active |
| AbstractParser.Parser.OnOpenTag | src/abstract-parser.ts:99-126 | pushes exactly the tag name, leaves the fields as `Collector.AfterOpen` says, keeps the invariant, returns the buffer |
| AbstractParser.Parser.WriteAttributes | src/abstract-parser.ts:119-121 | appends every attribute as ` key="value"`, in order |
| AbstractParser.Parser.OnText | src/abstract-parser.ts:170-174 | leaves the fields as `Collector.AfterText` says and keeps the invariant |
| AbstractParser.Parser.OnCloseTag | src/abstract-parser.ts:176-192 | pops exactly the last path element, leaves the fields as `Collector.AfterClose` says, keeps the invariant |
| AbstractParser.Parser.Notify | src/abstract-parser.ts:53-63 | each notification leaves the fields as `Collector.AfterEvent` says and keeps the invariant |
| Utils.ConvertToArray | src/utils.ts:6-16 | `undefined` becomes `[]`, a list is returned unchanged, any other value `v` becomes `[v]` |
| Utils.ConvertToArrayIdempotent | src/utils.ts:6-16 | applying it to its own result changes nothing |
| Utils.ConvertToArrayRecoversOccurrences | src/utils.ts:6-16 | it recovers the occurrences of a child tag, in document order, whether there are none, one or several |
| ImportParser.ImportRules | src/import-parser.ts:240-281 | six rules with distinct keys and pairwise distinct starts, all under `КоммерческаяИнформация`; every include extends its rule's start |
| ImportParser.RootOpens | src/import-parser.ts:242-244 | opening the root starts `commercialInformation` and writes just the root's open tag |
| ImportParser.CommercialInformationEmittedOnClassifier | src/import-parser.ts:242-252 | `commercialInformation` is emitted as the closed root shell when `Классификатор` opens, and `classifier` becomes active |
| ImportParser.NestedGroupsStayInFragment | src/import-parser.ts:253-258 | while `classifierGroup` is active every descendant, nested `Группа` included, is written into its fragment and starts nothing |
| ImportParser.ProductSubtreeStaysInFragment | src/import-parser.ts:274-279 | while `product` is active every descendant is written into its fragment |
| ImportParser.GroupOf | src/import-parser.ts:50-68 | nested groups are read only when `Группы.Группа` has a positive length, one per element, and `groups` is set exactly then |
| ImportParser.ProcessGroup | src/import-parser.ts:50-68 | builds the group described by `GroupOf`, each nested group by a recursive call, in order |
| ImportParser.SingleSubgroupDropped | src/import-parser.ts:57 | a group with exactly one nested group gets no `groups` |
| ImportParser.GroupOfAllChildren | src/import-parser.ts:56-65 | nested groups read through `convertToArray`: `groups` is set iff there is at least one, with one entry each |
| ImportParser.EverySubgroupKept | src/import-parser.ts:56-65 | read through `convertToArray`, every nested group is kept in document order, however many there are |
| ImportParser.CounterpartyOf | src/import-parser.ts:214-235 | exactly one of `companyInfo` and `personInfo` is set, `companyInfo` iff `ОфициальноеНаименование` is truthy; an absent owner fails |
| ImportParser.ProductTaxRates | src/import-parser.ts:144-159 | `taxRates` is set iff `СтавкаНалога` is truthy; a list gives one entry per element in order, a single element one entry |
| ImportParser.ValuesOfIsConvertToArray | src/import-parser.ts:175-185 | a list `Значение` is kept as is and a single value is wrapped, as `convertToArray` does, except that an absent value becomes `[undefined]` |
| ImportParser.ProductPropertyValues | src/import-parser.ts:172-187 | `propertyValues` is set iff `ЗначенияСвойства` has a positive length, with one entry per element in order |
| ImportParser.ProductRequisiteValues | src/import-parser.ts:189-204 | `requisiteValues` is set iff `ЗначениеРеквизита` has a positive length, with one entry per element in order |
| ImportParser.SinglePropertyValueDropped | src/import-parser.ts:172 | a product with exactly one property value gets no `propertyValues` |
| ImportParser.SingleRequisiteValueDropped | src/import-parser.ts:189 | a product with exactly one requisite value gets no `requisiteValues` |
| ImportParser.PropertyValuesAll | src/import-parser.ts:172-187 | property values read through `convertToArray`: set iff there is at least one, one entry each, in order |
| ImportParser.RequisiteValuesAll | src/import-parser.ts:189-204 | requisite values read through `convertToArray`: set iff there is at least one, one entry each, in order |
| ImportParser.EveryPropertyValueKept | src/import-parser.ts:172-187 | read through `convertToArray`, every property value element is kept in order |
| ImportParser.EveryRequisiteValueKept | src/import-parser.ts:189-204 | read through `convertToArray`, every requisite value element is kept in order |
| OffersParser.OffersRules | src/offers-parser.ts:16-57 | six rules with distinct keys and pairwise distinct starts under the root; every include extends its start; `warehouse` and `offer` include their own start |
| OffersParser.PackageChildCollectedIff | src/offers-parser.ts:34-44 | a child of `ПакетПредложений` is collected iff it is `Ид`, `Наименование`, `ИдКаталога`, `ИдКлассификатора`, `Владелец` or `ТипыЦен` |
| OffersParser.WarehousesAndOffersNotInPackage | src/offers-parser.ts:34-44 | nothing under `Склады` or `Предложения` is selected by `offersPackage`, and those two tags are not collected |
| OffersParser.WarehouseSubtreeStaysInFragment | src/offers-parser.ts:45-50 | while `warehouse` is active its whole subtree is written into its fragment |
| OffersParser.OfferSubtreeStaysInFragment | src/offers-parser.ts:51-56 | while `offer` is active its whole subtree is written into its fragment |
| OffersParser.PriceTypeOf | src/offers-parser.ts:106-118 | a price type's `tax` is set iff `Налог` is truthy |
| OffersParser.OffersPackageOf | src/offers-parser.ts:93-121 | the header fields, `offers` empty, and one price type per converted `ТипЦены` element in order; none when `ТипыЦен` is absent |
| OffersParser.EveryPriceTypeKept | src/offers-parser.ts:105 | whether a package has no, one or several price types, all of them are converted, in order |
| OffersParser.OfferOf | src/offers-parser.ts:141-175 | the header fields and the whole base measurement unit are copied; `article` is set iff `Артикул` is truthy; `prices` and `stocks` always, one entry per converted element, in order |
| OffersParser.EveryPriceAndStockKept | src/offers-parser.ts:158-175 | whether an offer has no, one or several prices and stocks, all of them are converted, in order |
| OrdersParser.OrdersRules | src/orders-parser.ts:4-16 | two rules with distinct starts under the root; `commercialInfo` has no include, `document` includes its start, which is the root plus `Документ` |
| OrdersParser.RootOpens | src/orders-parser.ts:6-8 | opening the root starts `commercialInfo` and writes just the root's open tag |
| OrdersParser.DocumentPreemptsCommercialInfo | src/orders-parser.ts:6-14 | the first `Документ` emits the closed root shell as `commercialInfo` and makes `document` active |
| OrdersParser.DocumentSubtreeStaysInFragment | src/orders-parser.ts:9-14 | while `document` is active its whole `Документ` subtree is written into its fragment |
| OrdersParser.StrayBracketBeforeNextDocument | src/abstract-parser.ts:124 | between documents, an uncollected sibling leaves a `>` ahead of the next document's `<Документ` |

## Left out

- The SAX tokenizer, its `trim` and `normalize` options, and its wiring in the constructor. The model takes its output as a sequence of notifications (`Collector.Ev`).
- `parse`, `getStream` and `destroy`: stream piping and promise plumbing are I/O.
- The XML-to-object conversion by X2JS when a fragment is emitted. The event log records the fragment text. The listeners are modelled on an object tree of the shape the converter produces (`ObjectTree.Value`, `ObjectTree.ChildValue`).
- `encodeXML` of the `entities` library: it is a parameter (`encode`) that the model does not interpret.
- Listener registration (`parser.on`, `eventEmitter.on`) and the `callback`/`await` chains: these are event glue. Each modelled listener is a function or method from the object tree to the record it builds.
- An asynchronous batched emitter and `onEnd`: src/abstract-parser.ts:163 emits synchronously, and that is modelled.
- `new Date(...)` on `_ДатаФормирования` and `Number.parseInt` on `_КоличествоНаСкладе`: these are host-library conversions. `OffersParser.Stock.quantity` keeps the attribute text.
- OffersParser.OffersPackage: has no `owner`, because the offers parser parses it through a `parseCounterpartyXmlData` of `utils` that is not part of this model. Its `offers` field is modelled as the listener leaves it, empty.
- The `onCommercialInformation`, `onClassifier`, `onClassifierProperty`, `onCatalog`, `onWarehouse` listeners. The product fields other than the tax, property and requisite folding are also left out. Most are copied one to one; `barcode` and `manufacturer` are copied only when `Штрихкод` / `Изготовитель` is truthy, `manufacturer` as a new record of its `Ид` and `Наименование`. `onClassifierProperty` reads `Справочник` through the same `length > 0` test as the findings below.
- Looking up the active rule by a key missing from the table, which would throw in JavaScript. The invariant shows `collect` is always idle or a key of the table, so the lookup never misses.
- ObjectTree.Get: reading a property of `undefined` without `?.` throws in JavaScript. The model yields `undefined`, as `?.` does, so the mappers do not model that failure. Two such reads are in the modelled listeners: `parseCounterpartyXmlData` on an absent owner (src/import-parser.ts:216) is modelled with its failure (`ImportParser.CounterpartyOf` returns `None`), while `offerXml.БазоваяЕдиница._Код` on an offer without `БазоваяЕдиница` (src/offers-parser.ts:146) throws in JavaScript but yields `undefined` in `OffersParser.OfferOf`.
- ObjectTree.HasLength: an element that has a child literally named `length` is treated as having no length.

## Findings

| source | as written | input that shows it | evidently intended | confidence | as-written member | corrected member |
|---|---|---|---|---|---|---|
| src/import-parser.ts:57 | nested groups are read only when `Группы.Группа` has a positive `length` | a `Группа` whose `Группы` holds exactly one `Группа`; the converter gives that child as a record, which has no `length` | every nested group becomes an entry of `groups`, as `convertToArray` gives in the offers listeners | medium, not executed | ImportParser.SingleSubgroupDropped | ImportParser.EverySubgroupKept |
| src/import-parser.ts:172 | property values are read only when `ЗначенияСвойства` has a positive `length` | a `Товар` whose `ЗначенияСвойств` holds exactly one `ЗначенияСвойства` | a single property value gives a one-entry `propertyValues` | medium, not executed | ImportParser.SinglePropertyValueDropped | ImportParser.EveryPropertyValueKept |
| src/import-parser.ts:189 | requisite values are read only when `ЗначениеРеквизита` has a positive `length` | a `Товар` whose `ЗначенияРеквизитов` holds exactly one `ЗначениеРеквизита` | a single requisite value gives a one-entry `requisiteValues` | medium, not executed | ImportParser.SingleRequisiteValueDropped | ImportParser.EveryRequisiteValueKept |
