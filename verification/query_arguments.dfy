/** The query-argument compiler of the MongoDB connector
    (query-engine/connectors/mongodb-query-connector/src/query_arguments.rs).

    `MongoQueryArgs` collects a pre-join filter, joins, post-join filters,
    aggregation stages, post-aggregation ("having") filters, an ordering
    builder, skip, limit and a projection. Finalising resolves the ordering
    once; the arguments then run either as a plain `find` or as an
    aggregation pipeline whose stage order depends on whether the query is
    a group-by. */
module QueryArgs {
  import opened Wrappers
  import opened Strings
  import opened Bson
  import opened Join

  /** The connector's error type, carried through unchanged. */
  datatype ConnectorError = ConnectorError(message: string)

  /** A failure while compiling: a propagated conversion error, or a panic
      (a programming error the source reports with `expect`). */
  datatype QueryError = Conversion(error: ConnectorError) | Panic(message: string)

  const AlreadyFinalized := "Mongo args already finalized."

  datatype SortOrder = Ascending | Descending

  datatype OrderBy = OrderBy(field: ScalarField, sortOrder: SortOrder)

  /** A filter, as far as this compiler sees it: what
      `convert_filter(filter, false)?.render()` yields for it, namely the
      rendered predicate and the joins the predicate needs, or an error. */
  datatype Filter = Filter(rendering: Result<(Document, seq<JoinStage>), ConnectorError>)

  /** A model projection, as far as this compiler sees it: the result of `into_bson()`. */
  datatype ModelProjection = ModelProjection(bson: Result<Bson, ConnectorError>)

  datatype QueryArguments = QueryArguments(
    filter: Option<Filter>,
    orderBy: seq<OrderBy>,
    skip: Option<int>,
    take: Option<int>,
    ignoreSkip: bool,
    ignoreTake: bool)

  datatype AggregationSelection =
    | Field(field: ScalarField)
    | Count(all: bool, fields: seq<ScalarField>)
    | Average(fields: seq<ScalarField>)
    | Sum(fields: seq<ScalarField>)
    | Min(fields: seq<ScalarField>)
    | Max(fields: seq<ScalarField>)

  datatype OrderByBuilder = OrderByBuilder(orderBys: seq<OrderBy>, reverse: bool)

  datatype MongoQueryArgs = MongoQueryArgs(
    query: Option<Document>,
    joins: seq<JoinStage>,
    joinFilters: seq<Document>,
    aggregations: seq<Document>,
    aggregationFilters: seq<Document>,
    orderBuilder: Option<OrderByBuilder>,
    order: Option<Document>,
    skip: Option<int>,
    limit: Option<int>,
    projection: Option<Document>,
    isGroupByQuery: bool)

  function Default(): MongoQueryArgs {
    MongoQueryArgs(None, [], [], [], [], None, None, None, None, None, false)
  }

  // ---------------------------------------------------------------------
  // Pagination

  /** `skip`: dropped when ignored, passed through otherwise. */
  function Skip(skip: Option<int>, ignore: bool): (r: Option<int>)
    ensures ignore ==> r == None
    ensures !ignore ==> r == skip
  {
    if ignore then None else skip
  }

  /** `take`: dropped when ignored, otherwise its magnitude, so a limit is
      never negative; the sign survives only as the ordering's reverse flag. */
  function Take(take: Option<int>, ignore: bool): (r: Option<int>)
    ensures r.None? <==> ignore || take.None?
    ensures r.Some? ==> r.value >= 0 && (r.value == take.value || r.value == -take.value)
  {
    if ignore then None
    else match take
      case None => None
      case Some(t) => Some(if t < 0 then -t else t)
  }

  // ---------------------------------------------------------------------
  // Ordering

  /** Mongo's sort direction: 1 ascending, -1 descending, swapped when reversed. */
  function Direction(order: SortOrder, reverse: bool): (d: int)
    ensures d == 1 || d == -1
    ensures d == 1 <==> (order == Ascending) != reverse
  {
    match (order, reverse)
    case (Ascending, true) => -1
    case (Descending, true) => 1
    case (Ascending, false) => 1
    case (Descending, false) => -1
  }

  /** Under a group-by the ordered scalars live beneath the `_id` key. */
  function SortKey(o: OrderBy, isGroupBy: bool): string {
    if isGroupBy then "_id." + o.field.dbName else o.field.dbName
  }

  /** The requested `(key, direction)` pairs, in request order. */
  function SortPairs(orderBys: seq<OrderBy>, isGroupBy: bool, reverse: bool): (ps: Document) {
    if orderBys == [] then []
    else [(SortKey(orderBys[0], isGroupBy), Int(Direction(orderBys[0].sortOrder, reverse)))]
         + SortPairs(orderBys[1..], isGroupBy, reverse)
  }

  lemma {:induction false} SortPairsAt(orderBys: seq<OrderBy>, isGroupBy: bool, reverse: bool)
    ensures |SortPairs(orderBys, isGroupBy, reverse)| == |orderBys|
    ensures forall i :: 0 <= i < |orderBys| ==>
              SortPairs(orderBys, isGroupBy, reverse)[i]
                == (SortKey(orderBys[i], isGroupBy), Int(Direction(orderBys[i].sortOrder, reverse)))
  {
    if orderBys != [] {
      SortPairsAt(orderBys[1..], isGroupBy, reverse);
      forall i | 1 <= i < |orderBys|
        ensures SortPairs(orderBys, isGroupBy, reverse)[i]
                == (SortKey(orderBys[i], isGroupBy), Int(Direction(orderBys[i].sortOrder, reverse)))
      {
        assert orderBys[i] == orderBys[1..][i - 1];
      }
    }
  }

  lemma SortDocumentFacts(orderBys: seq<OrderBy>, isGroupBy: bool, reverse: bool)
    ensures var pairs := SortPairs(orderBys, isGroupBy, reverse);
            && (forall i :: 0 <= i < |orderBys| ==> Get(Extend([], pairs), SortKey(orderBys[i], isGroupBy)).Some?)
            && (DistinctKeys(pairs) ==> Extend([], pairs) == pairs)
  {
    var pairs := SortPairs(orderBys, isGroupBy, reverse);
    SortPairsAt(orderBys, isGroupBy, reverse);
    forall i | 0 <= i < |orderBys|
      ensures Get(Extend([], pairs), SortKey(orderBys[i], isGroupBy)).Some?
    {
      assert Keys(pairs)[i] == SortKey(orderBys[i], isGroupBy);
      GetLastPresent(pairs, SortKey(orderBys[i], isGroupBy));
    }
    if DistinctKeys(pairs) {
      assert [] + pairs == pairs;
      ExtendAppends([], pairs);
    }
  }

  /** `OrderByBuilder::build`: no sort document for an empty request;
      otherwise every requested key is present, each key's direction is the
      one requested last for it, and with no key requested twice the
      document is the request list itself. No join is ever returned. */
  function BuildOrder(b: OrderByBuilder, isGroupBy: bool): (r: (Option<Document>, seq<JoinStage>))
    ensures r.1 == []
    ensures r.0.None? <==> b.orderBys == []
    ensures r.0.Some? ==> forall k :: Get(r.0.value, k) == GetLast(SortPairs(b.orderBys, isGroupBy, b.reverse), k)
    ensures r.0.Some? ==> forall i :: 0 <= i < |b.orderBys| ==> Get(r.0.value, SortKey(b.orderBys[i], isGroupBy)).Some?
    ensures r.0.Some? && DistinctKeys(SortPairs(b.orderBys, isGroupBy, b.reverse)) ==>
              r.0.value == SortPairs(b.orderBys, isGroupBy, b.reverse)
  {
    if b.orderBys == [] then (None, [])
    else
      var pairs := SortPairs(b.orderBys, isGroupBy, b.reverse);
      var d := Extend([], pairs);
      SortDocumentFacts(b.orderBys, isGroupBy, b.reverse);
      (Some(d), [])
  }

  // ---------------------------------------------------------------------
  // Construction

  /** Where a rendered filter goes: without joins it is the pre-join query;
      with joins it becomes a post-join filter and its joins are added. */
  predicate RoutesFilter(filter: Option<Filter>, a: MongoQueryArgs)
    requires filter.Some? ==> filter.value.rendering.Ok?
  {
    match filter
    case None => a.query == None && a.joins == [] && a.joinFilters == []
    case Some(f) =>
      var (doc, filterJoins) := f.rendering.value;
      if filterJoins == [] then a.query == Some(doc) && a.joins == [] && a.joinFilters == []
      else a.query == None && a.joins == filterJoins && a.joinFilters == [doc]
  }

  /** What every argument set built by `new` and the builders satisfies:
      post-join filters exist only alongside joins (they come from a filter
      that needed them), and group-by mode only alongside a `$group` stage
      (the stage that switched it on). */
  predicate Consistent(a: MongoQueryArgs) {
    && (a.joinFilters != [] ==> a.joins != [])
    && (a.isGroupByQuery ==> a.aggregations != [])
  }

  /** `MongoQueryArgs::new`. */
  function New(args: QueryArguments): (r: Result<MongoQueryArgs, QueryError>)
    ensures r.Err? <==> args.filter.Some? && args.filter.value.rendering.Err?
    ensures r.Err? ==> r.error == Conversion(args.filter.value.rendering.error)
    ensures r.Ok? ==> RoutesFilter(args.filter, r.value)
    ensures r.Ok? ==> r.value.orderBuilder == Some(OrderByBuilder(args.orderBy, args.take.Some? && args.take.value < 0))
    ensures r.Ok? ==> r.value.skip == Skip(args.skip, args.ignoreSkip) && r.value.limit == Take(args.take, args.ignoreTake)
    ensures r.Ok? ==> r.value.aggregations == [] && r.value.aggregationFilters == [] && r.value.order == None
                      && r.value.projection == None && !r.value.isGroupByQuery
    ensures r.Ok? ==> Consistent(r.value)
  {
    var reverseOrder := match args.take case Some(t) => t < 0 case None => false;
    var orderBuilder := Some(OrderByBuilder(args.orderBy, reverseOrder));
    var routed: Result<(Option<Document>, seq<JoinStage>, seq<Document>), QueryError> :=
      match args.filter
      case None => Ok((None, [], []))
      case Some(filter) =>
        match filter.rendering
        case Err(e) => Err(Conversion(e))
        case Ok((doc, filterJoins)) =>
          if filterJoins != [] then Ok((None, [] + filterJoins, [] + [doc]))
          else Ok((Some(doc), [], []));
    match routed
    case Err(e) => Err(e)
    case Ok((query, joins, postFilters)) =>
      Ok(Default().(
        query := query,
        joinFilters := postFilters,
        joins := joins,
        orderBuilder := orderBuilder,
        skip := Skip(args.skip, args.ignoreSkip),
        limit := Take(args.take, args.ignoreTake)))
  }

  /** `with_model_projection`: the projection must render to a document. */
  function WithModelProjection(a: MongoQueryArgs, selected: ModelProjection): (r: Result<MongoQueryArgs, QueryError>)
    ensures r.Ok? <==> selected.bson.Ok? && selected.bson.value.Doc?
    ensures r.Ok? ==> r.value == a.(projection := Some(selected.bson.value.fields))
    ensures selected.bson.Err? ==> r == Err(Conversion(selected.bson.error))
  {
    match selected.bson
    case Err(e) => Err(Conversion(e))
    case Ok(b) =>
      match IntoDocument(b)
      case Err(e) => Err(e)
      case Ok(projection) => Ok(a.(projection := Some(projection)))
  }

  /** `into_document`: only a document value converts, and it converts to
      its own fields. */
  function IntoDocument(b: Bson): (r: Result<Document, QueryError>)
    ensures r.Ok? <==> b.Doc?
    ensures r.Ok? ==> Doc(r.value) == b
  {
    if b.Doc? then Ok(b.fields) else Err(Conversion(ConnectorError("value is not a document")))
  }

  // ---------------------------------------------------------------------
  // Grouping and aggregation

  /** The accumulator operator an aggregation selection asks for. */
  function OpName(sel: AggregationSelection): string
    requires !sel.Field?
  {
    match sel
    case Count(_, _) => "count"
    case Average(_) => "avg"
    case Sum(_) => "sum"
    case Min(_) => "min"
    case Max(_) => "max"
  }

  /** The accumulator `<op>_<db_name>: { $<op>: "$<db_name>" }`. */
  function Accumulator(op: string, field: ScalarField): (string, Bson) {
    (op + "_" + field.dbName, Doc(Single("$" + op, FieldRef(field.dbName))))
  }

  const CountAll: (string, Bson) := ("count_all", Doc(Single("$sum", Int(1))))

  /** `aggregation_pairs`: one accumulator per field, in field order. */
  function AggregationPairs(op: string, fields: seq<ScalarField>): (ps: Document)
    ensures |ps| == |fields|
    ensures forall i :: 0 <= i < |fields| ==> ps[i] == Accumulator(op, fields[i])
  {
    if fields == [] then []
    else
      var rest := AggregationPairs(op, fields[1..]);
      assert forall i :: 1 <= i < |fields| ==> fields[i] == fields[1..][i - 1];
      [Accumulator(op, fields[0])] + rest
  }

  /** The accumulators one selection asks for, in order: `count_all` first
      when an all-rows count is requested, then one per field; nothing for a
      plain field selection. */
  function SelectionPairs(sel: AggregationSelection): Document {
    match sel
    case Field(_) => []
    case Count(all, fields) => (if all then [CountAll] else []) + AggregationPairs("count", fields)
    case _ => AggregationPairs(OpName(sel), sel.fields)
  }

  /** Every accumulator requested by a list of selections, in request order. */
  function Accumulators(aggs: seq<AggregationSelection>): Document {
    if aggs == [] then [] else SelectionPairs(aggs[0]) + Accumulators(aggs[1..])
  }

  /** A pair is requested by a selection exactly when it is its `count_all`
      or the accumulator of the selection's operator on one of its fields. */
  lemma SelectionPairsMembership(sel: AggregationSelection, p: (string, Bson))
    ensures p in SelectionPairs(sel) <==>
              (sel.Count? && sel.all && p == CountAll)
              || (!sel.Field? && exists j :: 0 <= j < |sel.fields| && p == Accumulator(OpName(sel), sel.fields[j]))
  {
    if !sel.Field? {
      var pairs := AggregationPairs(OpName(sel), sel.fields);
      if p in pairs {
        var j :| 0 <= j < |pairs| && pairs[j] == p;
        assert p == Accumulator(OpName(sel), sel.fields[j]);
      }
    }
  }

  lemma {:induction false} AccumulatorsMembership(aggs: seq<AggregationSelection>, p: (string, Bson))
    ensures p in Accumulators(aggs) <==> exists i :: 0 <= i < |aggs| && p in SelectionPairs(aggs[i])
  {
    if aggs != [] {
      AccumulatorsMembership(aggs[1..], p);
      if p in Accumulators(aggs[1..]) {
        var i :| 0 <= i < |aggs[1..]| && p in SelectionPairs(aggs[1..][i]);
        assert aggs[1..][i] == aggs[i + 1];
      }
      if exists i :: 0 <= i < |aggs| && p in SelectionPairs(aggs[i]) {
        var i :| 0 <= i < |aggs| && p in SelectionPairs(aggs[i]);
        if i > 0 {
          assert aggs[i] == aggs[1..][i - 1];
        }
      }
    }
  }

  /** A per-field accumulator sums nothing, so it is never `count_all`, even
      for a field whose name makes the keys coincide. */
  lemma CountAllNotPerField(op: string, fields: seq<ScalarField>)
    ensures CountAll !in AggregationPairs(op, fields)
  {
    var ps := AggregationPairs(op, fields);
    forall i | 0 <= i < |ps|
      ensures ps[i] != CountAll
    {
      assert ps[i].1.fields[0].1.Str?;
    }
  }

  lemma SelectionCountAll(sel: AggregationSelection)
    ensures CountAll in SelectionPairs(sel) <==> sel.Count? && sel.all
  {
    match sel
    case Field(_) =>
    case Count(all, fields) =>
      CountAllNotPerField("count", fields);
      if all {
        assert SelectionPairs(sel)[0] == CountAll;
      }
    case _ =>
      CountAllNotPerField(OpName(sel), sel.fields);
  }

  /** `count_all` is requested exactly when some count selection sets `all`. */
  lemma CountAllRequested(aggs: seq<AggregationSelection>)
    ensures CountAll in Accumulators(aggs) <==> exists i :: 0 <= i < |aggs| && aggs[i].Count? && aggs[i].all
  {
    AccumulatorsMembership(aggs, CountAll);
    forall i | 0 <= i < |aggs|
      ensures CountAll in SelectionPairs(aggs[i]) <==> aggs[i].Count? && aggs[i].all
    {
      SelectionCountAll(aggs[i]);
    }
  }

  /** Accumulator names start with the operator's name, never with `_`. */
  predicate AccumulatorName(k: string) {
    |k| > 0 && k[0] != '_'
  }

  lemma AggregationPairsNamed(op: string, fields: seq<ScalarField>)
    requires AccumulatorName(op)
    ensures forall p :: p in AggregationPairs(op, fields) ==> AccumulatorName(p.0)
  {
    var ps := AggregationPairs(op, fields);
    forall i | 0 <= i < |ps|
      ensures AccumulatorName(ps[i].0)
    {
      assert ps[i].0 == op + "_" + fields[i].dbName;
      assert ps[i].0[0] == op[0];
    }
  }

  lemma {:induction false} AccumulatorsNamed(aggs: seq<AggregationSelection>)
    ensures forall p :: p in Accumulators(aggs) ==> AccumulatorName(p.0)
  {
    if aggs != [] {
      AccumulatorsNamed(aggs[1..]);
      var sel := aggs[0];
      match sel
      case Field(_) =>
      case Count(_, fields) =>
        AggregationPairsNamed("count", fields);
      case _ =>
        AggregationPairsNamed(OpName(sel), sel.fields);
    }
  }

  /** No accumulator is named `_id`. */
  lemma NoAccumulatorIsId(aggs: seq<AggregationSelection>)
    ensures "_id" !in Keys(Accumulators(aggs))
  {
    var acc := Accumulators(aggs);
    AccumulatorsNamed(aggs);
    forall i | 0 <= i < |acc|
      ensures Keys(acc)[i] != "_id"
    {
      assert acc[i] in acc;
    }
  }

  /** The `_id` of the `$group` stage: `null` for a whole-collection
      aggregate, else a document binding each grouping field to its value. */
  function GroupKey(byFields: seq<ScalarField>): (key: Bson)
    ensures byFields == [] <==> key == Null
    ensures byFields != [] ==> key.Doc?
    ensures byFields != [] ==> forall i :: 0 <= i < |byFields| ==>
              Get(key.fields, byFields[i].dbName) == Some(FieldRef(byFields[i].dbName))
    ensures byFields != [] ==> forall k :: k in Keys(key.fields) ==> exists i :: 0 <= i < |byFields| && byFields[i].dbName == k
    ensures byFields != [] && DistinctKeys(GroupPairs(byFields)) ==> key.fields == GroupPairs(byFields)
  {
    if byFields == [] then Null
    else
      GroupDocumentGet(byFields);
      GroupDocumentKeys(byFields);
      GroupDocumentInOrder(byFields);
      Doc(Extend([], GroupPairs(byFields)))
  }

  /** Inserting the grouping entries one by one into an empty document binds
      every grouping field to its reference. */
  lemma GroupDocumentGet(byFields: seq<ScalarField>)
    ensures forall i :: 0 <= i < |byFields| ==>
              Get(Extend([], GroupPairs(byFields)), byFields[i].dbName) == Some(FieldRef(byFields[i].dbName))
  {
    var pairs := GroupPairs(byFields);
    forall i | 0 <= i < |byFields|
      ensures Get(Extend([], pairs), byFields[i].dbName) == Some(FieldRef(byFields[i].dbName))
    {
      assert Keys(pairs)[i] == byFields[i].dbName;
      GetLastUniform(pairs, byFields[i].dbName, FieldRef);
    }
  }

  /** Those inserts add no key but the grouping fields' names. */
  lemma GroupDocumentKeys(byFields: seq<ScalarField>)
    ensures forall k :: k in Keys(Extend([], GroupPairs(byFields))) ==>
              exists i :: 0 <= i < |byFields| && byFields[i].dbName == k
  {
    var pairs := GroupPairs(byFields);
    forall k | k in Keys(Extend([], pairs))
      ensures exists i :: 0 <= i < |byFields| && byFields[i].dbName == k
    {
      ExtendKeyFromPairs(pairs, k);
      var i :| 0 <= i < |pairs| && Keys(pairs)[i] == k;
      assert byFields[i].dbName == k;
    }
  }

  /** With no name repeated, those inserts list the entries in field order. */
  lemma GroupDocumentInOrder(byFields: seq<ScalarField>)
    ensures DistinctKeys(GroupPairs(byFields)) ==> Extend([], GroupPairs(byFields)) == GroupPairs(byFields)
  {
    var pairs := GroupPairs(byFields);
    if DistinctKeys(pairs) {
      assert [] + pairs == pairs;
      ExtendAppends([], pairs);
    }
  }

  /** The grouping entries `db_name: "$db_name"`, in field order. */
  function GroupPairs(byFields: seq<ScalarField>): (ps: Document)
    ensures |ps| == |byFields|
    ensures forall i :: 0 <= i < |byFields| ==> ps[i] == (byFields[i].dbName, FieldRef(byFields[i].dbName))
  {
    if byFields == [] then []
    else
      var rest := GroupPairs(byFields[1..]);
      assert forall i :: 1 <= i < |byFields| ==> byFields[i] == byFields[1..][i - 1];
      [(byFields[0].dbName, FieldRef(byFields[0].dbName))] + rest
  }

  /** The body of the `$group` stage, built as the source does: `_id` first,
      then each selection's accumulators inserted in turn. */
  function GroupBody(byFields: seq<ScalarField>, aggs: seq<AggregationSelection>): Document {
    AddSelections(Single("_id", GroupKey(byFields)), aggs)
  }

  /** One selection's inserts into the `$group` body, in the source's order:
      `count_all` first when an all-rows count is asked for, then the
      per-field accumulators. They amount to extending by the selection's pairs. */
  function AddSelection(d: Document, sel: AggregationSelection): (r: Document)
    ensures r == Extend(d, SelectionPairs(sel))
  {
    match sel
    case Field(_) => d
    case Count(all, fields) =>
      if all then
        var withAll := Insert(d, CountAll.0, CountAll.1);
        assert Extend(d, [CountAll]) == Extend(withAll, []);
        ExtendConcat(d, [CountAll], AggregationPairs("count", fields));
        Extend(withAll, AggregationPairs("count", fields))
      else
        assert [] + AggregationPairs("count", fields) == AggregationPairs("count", fields);
        Extend(d, AggregationPairs("count", fields))
    case _ => Extend(d, AggregationPairs(OpName(sel), sel.fields))
  }

  /** The loop over the selections: the body after all of them is the
      starting document extended by every requested accumulator, in order. */
  function AddSelections(d: Document, aggs: seq<AggregationSelection>): (r: Document)
    ensures r == Extend(d, Accumulators(aggs))
    decreases |aggs|
  {
    if aggs == [] then d
    else
      var r := AddSelections(AddSelection(d, aggs[0]), aggs[1..]);
      ExtendConcat(d, SelectionPairs(aggs[0]), Accumulators(aggs[1..]));
      r
  }

  /** What a `$group` stage for `byFields` and `aggs` holds: exactly one key
      `$group`, whose body starts with `_id` bound to the group key and binds
      every other key to the accumulator requested last under that name
      (so exactly the requested accumulators are present); when no two
      accumulators share a name, the body is `_id` followed by them in
      request order. */
  ghost predicate IsGroupStage(stage: Document, byFields: seq<ScalarField>, aggs: seq<AggregationSelection>) {
    |stage| == 1 && stage[0].0 == "$group" && stage[0].1.Doc?
    && var body := stage[0].1.fields;
    && |body| > 0 && body[0] == ("_id", GroupKey(byFields))
    && (forall k :: k != "_id" ==> Get(body, k) == GetLast(Accumulators(aggs), k))
    && (DistinctKeys(Accumulators(aggs)) ==> body == [("_id", GroupKey(byFields))] + Accumulators(aggs))
  }

  lemma GroupBodyFirst(byFields: seq<ScalarField>, aggs: seq<AggregationSelection>)
    ensures var body := GroupBody(byFields, aggs);
            |body| > 0 && body[0] == ("_id", GroupKey(byFields))
  {
    NoAccumulatorIsId(aggs);
    ExtendKeepsFirst(Single("_id", GroupKey(byFields)), Accumulators(aggs));
  }

  lemma GroupBodyGet(byFields: seq<ScalarField>, aggs: seq<AggregationSelection>)
    ensures forall k :: k != "_id" ==> Get(GroupBody(byFields, aggs), k) == GetLast(Accumulators(aggs), k)
  {
    var key := GroupKey(byFields);
    assert GroupBody(byFields, aggs) == Extend(Single("_id", key), Accumulators(aggs));
    ExtendSingleGet("_id", key, Accumulators(aggs));
  }

  lemma GroupBodyDistinct(byFields: seq<ScalarField>, aggs: seq<AggregationSelection>)
    requires DistinctKeys(Accumulators(aggs))
    ensures GroupBody(byFields, aggs) == Single("_id", GroupKey(byFields)) + Accumulators(aggs)
  {
    var start := Single("_id", GroupKey(byFields));
    var acc := Accumulators(aggs);
    NoAccumulatorIsId(aggs);
    DistinctCons("_id", GroupKey(byFields), acc);
    ExtendAppends(start, acc);
  }

  lemma GroupBodyShape(byFields: seq<ScalarField>, aggs: seq<AggregationSelection>)
    ensures IsGroupStage(Single("$group", Doc(GroupBody(byFields, aggs))), byFields, aggs)
  {
    GroupBodyFirst(byFields, aggs);
    GroupBodyGet(byFields, aggs);
    if DistinctKeys(Accumulators(aggs)) {
      GroupBodyDistinct(byFields, aggs);
    }
  }

  /** Key collisions resolve to the later accumulator: counting all rows
      together with a field named `all` leaves only the field's count under
      `count_all`. */
  lemma CountAllShadowed()
    ensures Get(GroupBody([], [Count(true, [ScalarField("all", false)])]), "count_all")
            == Some(Doc(Single("$count", FieldRef("all"))))
  {
    var aggs := [Count(true, [ScalarField("all", false)])];
    assert "count_all"[0] != "_id"[0];
    GroupBodyGet([], aggs);
    CountAllField();
  }

  lemma CountAllField()
    ensures GetLast(Accumulators([Count(true, [ScalarField("all", false)])]), "count_all")
            == Some(Doc(Single("$count", FieldRef("all"))))
  {
    var f := ScalarField("all", false);
    var aggs := [Count(true, [f])];
    var perField := Accumulator("count", f);
    assert perField.0 == "count_all";
    assert AggregationPairs("count", [f]) == [perField];
    assert aggs[1..] == [];
    assert Accumulators(aggs) == [CountAll, perField];
    assert GetLast([perField], "count_all") == Some(perField.1);
    assert [CountAll, perField][1..] == [perField];
    assert GetLast([CountAll, perField], "count_all") == Some(perField.1);
    assert "$" + "count" == "$count";
  }

  /** `with_groupings`: appends exactly one `$group` stage and switches to
      group-by mode exactly when grouping fields are given. */
  function WithGroupings(a: MongoQueryArgs, byFields: seq<ScalarField>, aggs: seq<AggregationSelection>): (r: MongoQueryArgs)
    ensures |r.aggregations| == |a.aggregations| + 1 && r.aggregations[..|a.aggregations|] == a.aggregations
    ensures IsGroupStage(r.aggregations[|a.aggregations|], byFields, aggs)
    ensures r.isGroupByQuery == (a.isGroupByQuery || byFields != [])
    ensures r.(aggregations := a.aggregations, isGroupByQuery := a.isGroupByQuery) == a
  {
    var isGroupBy := if byFields == [] then a.isGroupByQuery else true;
    var stage := Single("$group", Doc(GroupBody(byFields, aggs)));
    GroupBodyShape(byFields, aggs);
    a.(aggregations := a.aggregations + [stage], isGroupByQuery := isGroupBy)
  }

  /** `with_having`: a rendered having filter becomes one more post-aggregation
      filter; the joins it would need are dropped; a render error propagates. */
  function WithHaving(a: MongoQueryArgs, having: Option<Filter>): (r: Result<MongoQueryArgs, QueryError>)
    ensures having.None? ==> r == Ok(a)
    ensures having.Some? ==> (r.Err? <==> having.value.rendering.Err?)
    ensures having.Some? && r.Err? ==> r.error == Conversion(having.value.rendering.error)
    ensures having.Some? && r.Ok? ==>
              && r.value.aggregationFilters == a.aggregationFilters + [having.value.rendering.value.0]
              && r.value.(aggregationFilters := a.aggregationFilters) == a
  {
    match having
    case None => Ok(a)
    case Some(filter) =>
      match filter.rendering
      case Err(e) => Err(Conversion(e))
      case Ok((filterDoc, _)) => Ok(a.(aggregationFilters := a.aggregationFilters + [filterDoc]))
  }

  // ---------------------------------------------------------------------
  // Finalising and running

  /** `finalize`: takes the ordering builder, which must still be there,
      resolves the sort document against the current group-by mode and adds
      the (always empty) list of ordering joins. */
  function Finalize(a: MongoQueryArgs): (r: Result<MongoQueryArgs, QueryError>)
    ensures r.Err? <==> a.orderBuilder.None?
    ensures r.Err? ==> r.error == Panic(AlreadyFinalized)
    ensures r.Ok? ==> r.value.orderBuilder == None && r.value.joins == a.joins
    ensures r.Ok? ==> (r.value.order.Some? <==> a.orderBuilder.value.orderBys != [])
    ensures r.Ok? ==> r.value.order == BuildOrder(a.orderBuilder.value, a.isGroupByQuery).0
    ensures r.Ok? ==> r.value.(order := a.order, orderBuilder := a.orderBuilder) == a
  {
    match a.orderBuilder
    case None => Err(Panic(AlreadyFinalized))
    case Some(builder) =>
      var (order, joins) := BuildOrder(builder, a.isGroupByQuery);
      assert a.joins + joins == a.joins;
      Ok(a.(orderBuilder := None, joins := a.joins + joins, order := order))
  }

  /** The builders keep an argument set consistent. */
  lemma BuildersKeepConsistent(a: MongoQueryArgs, selected: ModelProjection, byFields: seq<ScalarField>,
                               aggs: seq<AggregationSelection>, having: Option<Filter>)
    requires Consistent(a)
    ensures WithModelProjection(a, selected).Ok? ==> Consistent(WithModelProjection(a, selected).value)
    ensures Consistent(WithGroupings(a, byFields, aggs))
    ensures WithHaving(a, having).Ok? ==> Consistent(WithHaving(a, having).value)
    ensures Finalize(a).Ok? ==> Consistent(Finalize(a).value)
  {
  }

  /** After a grouping on some fields, finalising orders the groups: each
      requested field is sorted under `_id.`, and no other key is sorted on.
      Without grouping fields the plain names are used. */
  lemma FinalizedSortKeys(a: MongoQueryArgs, byFields: seq<ScalarField>, aggs: seq<AggregationSelection>)
    requires a.orderBuilder.Some? && !a.isGroupByQuery
    ensures var f := Finalize(WithGroupings(a, byFields, aggs));
            var obs := a.orderBuilder.value.orderBys;
            var prefix := if byFields != [] then "_id." else "";
            && f.Ok? && (f.value.order.Some? <==> obs != [])
            && (f.value.order.Some? ==>
                  && (forall i :: 0 <= i < |obs| ==> Get(f.value.order.value, prefix + obs[i].field.dbName).Some?)
                  && (forall k :: k in Keys(f.value.order.value) ==>
                        exists i :: 0 <= i < |obs| && k == prefix + obs[i].field.dbName))
  {
    var g := WithGroupings(a, byFields, aggs);
    var b := a.orderBuilder.value;
    var isGroupBy := byFields != [];
    assert g.isGroupByQuery == isGroupBy && g.orderBuilder == a.orderBuilder;
    var prefix := if isGroupBy then "_id." else "";
    assert forall i :: 0 <= i < |b.orderBys| ==> SortKey(b.orderBys[i], isGroupBy) == prefix + b.orderBys[i].field.dbName;
    var f := Finalize(g);
    if f.value.order.Some? {
      var order := f.value.order.value;
      var pairs := SortPairs(b.orderBys, isGroupBy, b.reverse);
      forall k | k in Keys(order)
        ensures exists i :: 0 <= i < |b.orderBys| && k == prefix + b.orderBys[i].field.dbName
      {
        GetPresent(order, k);
        GetLastPresent(pairs, k);
        SortPairsAt(b.orderBys, isGroupBy, b.reverse);
        var i :| 0 <= i < |pairs| && Keys(pairs)[i] == k;
        assert k == SortKey(b.orderBys[i], isGroupBy);
      }
    }
  }

  /** Finalising twice panics. */
  lemma FinalizeTwicePanics(a: MongoQueryArgs)
    requires Finalize(a).Ok?
    ensures Finalize(Finalize(a).value) == Err(Panic(AlreadyFinalized))
  {
  }

  function FilterStage(filter: Document): Document {
    Single("$match", Doc(filter))
  }

  function MatchStages(filters: seq<Document>): (ss: seq<Document>)
    ensures |ss| == |filters|
    ensures forall i :: 0 <= i < |filters| ==> ss[i] == FilterStage(filters[i])
  {
    if filters == [] then []
    else
      var rest := MatchStages(filters[1..]);
      assert forall i :: 1 <= i < |filters| ==> filters[i] == filters[1..][i - 1];
      [FilterStage(filters[0])] + rest
  }

  function OptionalStage(op: string, value: Option<Bson>): seq<Document> {
    match value
    case None => []
    case Some(v) => [Single(op, v)]
  }

  function DocOption(d: Option<Document>): Option<Bson> {
    match d
    case None => None
    case Some(doc) => Some(Doc(doc))
  }

  function IntOption(n: Option<int>): Option<Bson> {
    match n
    case None => None
    case Some(v) => Some(Int(v))
  }

  /** The stages every pipeline starts with: the pre-join `$match`, the joins
      in list order, then the post-join `$match`es. */
  function LeadingStages(a: MongoQueryArgs): seq<Document> {
    OptionalStage("$match", DocOption(a.query)) + BuildAll(a.joins) + MatchStages(a.joinFilters)
  }

  /** `$sort`, `$skip`, `$limit`, `$project`, each when present. */
  function WindowStages(a: MongoQueryArgs): seq<Document> {
    OptionalStage("$sort", DocOption(a.order)) + OptionalStage("$skip", IntOption(a.skip))
    + OptionalStage("$limit", IntOption(a.limit)) + OptionalStage("$project", DocOption(a.projection))
  }

  /** The aggregation stages followed by the having `$match`es. */
  function AggregationStages(a: MongoQueryArgs): seq<Document> {
    a.aggregations + MatchStages(a.aggregationFilters)
  }

  /** The canonical pipeline: aggregation before the window for a group-by
      (sort, skip, limit and projection apply to the groups), after it
      otherwise (the aggregation summarises the selected page of rows). */
  function CanonicalStages(a: MongoQueryArgs): (s: seq<Document>)
    ensures var lead, agg, win := |LeadingStages(a)|, |AggregationStages(a)|, |WindowStages(a)|;
            && |s| == lead + agg + win
            && s[..lead] == LeadingStages(a)
            && (a.isGroupByQuery ==> s[lead..lead + agg] == AggregationStages(a) && s[lead + agg..] == WindowStages(a))
            && (!a.isGroupByQuery ==> s[lead..lead + win] == WindowStages(a) && s[lead + win..] == AggregationStages(a))
  {
    Arrange(LeadingStages(a), AggregationStages(a), WindowStages(a), a.isGroupByQuery)
  }

  /** The leading stages, then the aggregation and the window in the order `groupFirst` picks. */
  function Arrange(lead: seq<Document>, agg: seq<Document>, win: seq<Document>, groupFirst: bool): (s: seq<Document>)
    ensures |s| == |lead| + |agg| + |win| && s[..|lead|] == lead
    ensures groupFirst ==> s[|lead|..|lead| + |agg|] == agg && s[|lead| + |agg|..] == win
    ensures !groupFirst ==> s[|lead|..|lead| + |win|] == win && s[|lead| + |win|..] == agg
  {
    if groupFirst then
      ThreeParts(lead, agg, win);
      lead + (agg + win)
    else
      ThreeParts(lead, win, agg);
      lead + (win + agg)
  }

  /** The join stages of the pipeline: each join built in turn, its
      `$lookup` followed by its `$unwind` when it has one. */
  method JoinStages(joins: seq<JoinStage>) returns (stages: seq<Document>)
    ensures stages == BuildAll(joins)
  {
    stages := [];
    var i := 0;
    while i < |joins|
      invariant 0 <= i <= |joins|
      invariant stages == BuildAll(joins[..i])
    {
      var (join, unwind) := Build(joins[i]);
      BuildAllAppend(joins[..i], [joins[i]]);
      BuildAllCons([joins[i]]);
      assert joins[..i + 1] == joins[..i] + [joins[i]];
      stages := stages + [join];
      match unwind {
        case Some(u) => stages := stages + [u];
        case None =>
      }
      i := i + 1;
    }
    assert joins[..i] == joins;
  }

  /** The `$sort`, `$skip`, `$limit` and `$project` pushes, in that order. */
  method WindowPushes(a: MongoQueryArgs) returns (stages: seq<Document>)
    ensures stages == WindowStages(a)
  {
    stages := [];
    if a.order.Some? {
      stages := stages + [Single("$sort", Doc(a.order.value))];
    }
    if a.skip.Some? {
      stages := stages + [Single("$skip", Int(a.skip.value))];
    }
    if a.limit.Some? {
      stages := stages + [Single("$limit", Int(a.limit.value))];
    }
    if a.projection.Some? {
      stages := stages + [Single("$project", Doc(a.projection.value))];
    }
  }

  /** `execute_pipeline_query`'s stage list, assembled in the order the
      source pushes and extends it. */
  method PipelineStages(a: MongoQueryArgs) returns (stages: seq<Document>)
    ensures stages == CanonicalStages(a)
  {
    stages := [];
    if a.query.Some? {
      stages := stages + [FilterStage(a.query.value)];
    }
    var joinStages := JoinStages(a.joins);
    stages := stages + joinStages;
    stages := stages + MatchStages(a.joinFilters);
    assert stages == LeadingStages(a);
    var window := WindowPushes(a);
    if a.isGroupByQuery {
      stages := stages + a.aggregations;
      stages := stages + MatchStages(a.aggregationFilters);
      AppendAssoc(LeadingStages(a), a.aggregations, MatchStages(a.aggregationFilters));
      stages := stages + window;
      AppendAssoc(LeadingStages(a), AggregationStages(a), window);
    } else {
      stages := stages + window;
      stages := stages + a.aggregations;
      stages := stages + MatchStages(a.aggregationFilters);
      AppendAssoc(LeadingStages(a), window, a.aggregations);
      AppendAssoc(LeadingStages(a) + window, a.aggregations, MatchStages(a.aggregationFilters));
      AppendAssoc(LeadingStages(a), window, AggregationStages(a));
    }
  }

  /** What `find_documents` hands to the driver. */
  datatype FindOptions = FindOptions(projection: Option<Document>, limit: Option<int>, skip: Option<int>, sort: Option<Document>)

  datatype Execution =
    | FindQuery(filter: Option<Document>, options: FindOptions)
    | AggregateQuery(stages: seq<Document>, allowDiskUse: bool)

  /** `find_documents`: finalise (panicking on a second call), then run a
      plain `find` exactly when there are neither joins nor aggregations,
      and the canonical pipeline otherwise. */
  method FindDocuments(a: MongoQueryArgs) returns (r: Result<Execution, QueryError>)
    ensures r.Err? <==> a.orderBuilder.None?
    ensures r.Err? ==> r.error == Panic(AlreadyFinalized)
    ensures r.Ok? ==> (r.value.FindQuery? <==> a.joins == [] && a.aggregations == [])
    ensures r.Ok? && r.value.FindQuery? ==>
              var order := BuildOrder(a.orderBuilder.value, a.isGroupByQuery).0;
              r.value == FindQuery(a.query, FindOptions(a.projection, a.limit, a.skip, order))
    ensures r.Ok? && r.value.AggregateQuery? ==>
              var order := BuildOrder(a.orderBuilder.value, a.isGroupByQuery).0;
              r.value.stages == CanonicalStages(a.(orderBuilder := None, order := order)) && r.value.allowDiskUse
  {
    var finalized := Finalize(a);
    if finalized.Err? {
      return Err(finalized.error);
    }
    var f := finalized.value;
    if f.joins == [] && f.aggregations == [] {
      r := Ok(FindQuery(f.query, FindOptions(f.projection, f.limit, f.skip, f.order)));
    } else {
      var stages := PipelineStages(f);
      r := Ok(AggregateQuery(stages, true));
    }
  }

  // ---------------------------------------------------------------------
  // Properties of the canonical pipeline

  /** The stages a plain `find` with these options amounts to. */
  function FindAsStages(filter: Option<Document>, options: FindOptions): seq<Document> {
    OptionalStage("$match", DocOption(filter)) + OptionalStage("$sort", DocOption(options.sort))
    + OptionalStage("$skip", IntOption(options.skip)) + OptionalStage("$limit", IntOption(options.limit))
    + OptionalStage("$project", DocOption(options.projection))
  }

  /** In a consistent argument set without joins or aggregation stages, the
      pipeline is the plain `find` followed by the having `$match`es: the
      `find` form runs everything but the having filters. */
  lemma FindModeMatchesPipeline(a: MongoQueryArgs)
    requires Consistent(a) && a.joins == [] && a.aggregations == []
    ensures CanonicalStages(a)
            == FindAsStages(a.query, FindOptions(a.projection, a.limit, a.skip, a.order)) + MatchStages(a.aggregationFilters)
  {
    var m := OptionalStage("$match", DocOption(a.query));
    var so := OptionalStage("$sort", DocOption(a.order));
    var sk := OptionalStage("$skip", IntOption(a.skip));
    var li := OptionalStage("$limit", IntOption(a.limit));
    var pr := OptionalStage("$project", DocOption(a.projection));
    var hv := MatchStages(a.aggregationFilters);
    var w := WindowStages(a);
    assert !a.isGroupByQuery && a.joinFilters == [];
    assert LeadingStages(a) == m by {
      assert BuildAll([]) == [];
      assert MatchStages([]) == [];
    }
    assert AggregationStages(a) == hv;
    assert CanonicalStages(a) == m + (w + hv);
    AppendAssoc(m, w, hv);
    AppendAssoc(m, so + sk + li, pr);
    AppendAssoc(m, so + sk, li);
    AppendAssoc(m, so, sk);
  }

  /** A having filter added without any grouping leaves no join and no
      aggregation stage, so `find_documents` runs a plain `find`, and the
      having filter, the one stage the pipeline would add, is not applied. */
  lemma HavingWithoutGroupingIgnored(args: QueryArguments, having: Filter)
    requires args.filter.None? && having.rendering.Ok?
    ensures var a := WithHaving(New(args).value, Some(having)).value;
            var f := Finalize(a).value;
            && a.joins == [] && a.aggregations == [] && a.aggregationFilters == [having.rendering.value.0]
            && CanonicalStages(f)
               == FindAsStages(f.query, FindOptions(f.projection, f.limit, f.skip, f.order))
                  + [FilterStage(having.rendering.value.0)]
  {
    var a := WithHaving(New(args).value, Some(having)).value;
    var f := Finalize(a).value;
    FindModeMatchesPipeline(f);
    assert MatchStages([having.rendering.value.0]) == [FilterStage(having.rendering.value.0)];
  }

  /** The two modes differ only in the order of stages, not in which stages run. */
  lemma ModesArePermutations(a: MongoQueryArgs)
    ensures multiset(CanonicalStages(a.(isGroupByQuery := true))) == multiset(CanonicalStages(a.(isGroupByQuery := false)))
  {
    var g, n := a.(isGroupByQuery := true), a.(isGroupByQuery := false);
    assert LeadingStages(g) == LeadingStages(n);
    assert AggregationStages(g) == AggregationStages(n);
    assert WindowStages(g) == WindowStages(n);
  }

  /** The joins of the pipeline hold one `$lookup` per join node, in pre-order. */
  lemma PipelineJoinLookups(a: MongoQueryArgs)
    ensures LookupNames(BuildAll(a.joins)) == PreorderNames(a.joins)
    ensures |LookupNames(BuildAll(a.joins))| == NodeCount(a.joins)
  {
    BuildAllLookupNames(a.joins);
    LookupCount(a.joins);
  }
}
