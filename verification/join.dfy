/** The correlated join planner of the MongoDB connector
    (query-engine/connectors/mongodb-query-connector/src/join.rs).

    A `JoinStage` is a tree: one relation to follow from the current
    collection, plus the joins to perform on the documents it brings in.
    `Build` turns the tree into one `$lookup` stage whose sub-pipeline
    correlates the right-hand keys with variables bound from the left-hand
    document and then runs the nested joins. */
module Join {
  import opened Wrappers
  import opened Strings
  import opened Bson

  /** A scalar field as the planner reads it: its database name and whether it holds a list. */
  datatype ScalarField = ScalarField(dbName: string, isList: bool)

  /** What the planner reads from a relation field: the relation's name and
      kind, the related model's collection, and the paired key fields on the
      left (source) and right (related) side. */
  datatype RelationField = RelationField(
    relationName: string,
    isManyToMany: bool,
    relatedCollection: string,
    leftScalars: seq<ScalarField>,
    rightScalars: seq<ScalarField>)

  datatype JoinStage = JoinStage(source: RelationField, alias: Option<string>, nested: seq<JoinStage>)

  function New(source: RelationField): (j: JoinStage)
    ensures j.source == source && j.alias == None && j.nested == []
  {
    JoinStage(source, None, [])
  }

  function SetAlias(j: JoinStage, alias: string): (r: JoinStage)
    ensures r.alias == Some(alias)
    ensures r.source == j.source && r.nested == j.nested
  {
    j.(alias := Some(alias))
  }

  function PushNested(j: JoinStage, stage: JoinStage): (r: JoinStage)
    ensures |r.nested| == |j.nested| + 1 && r.nested[..|j.nested|] == j.nested && r.nested[|j.nested|] == stage
    ensures r.source == j.source && r.alias == j.alias
  {
    j.(nested := j.nested + [stage])
  }

  function ExtendNested(j: JoinStage, stages: seq<JoinStage>): (r: JoinStage)
    ensures |r.nested| == |j.nested| + |stages|
    ensures r.nested[..|j.nested|] == j.nested && r.nested[|j.nested|..] == stages
    ensures r.source == j.source && r.alias == j.alias
  {
    j.(nested := j.nested + stages)
  }

  /** The field the joined documents are stored under: the alias, else the relation name. */
  function AsName(j: JoinStage): string {
    if j.alias.Some? then j.alias.value else j.source.relationName
  }

  /** The name of the `let` variable bound to the i-th left key. */
  function LeftVar(i: nat): string {
    "left_" + Dec(i)
  }

  lemma LeftVarInjective(i: nat, k: nat)
    requires LeftVar(i) == LeftVar(k)
    ensures i == k
  {
    PrefixCancel("left_", Dec(i), Dec(k));
    DecInjective(i, k);
  }

  // ---------------------------------------------------------------------
  // What the generated expressions mean

  /** A value as an aggregation expression sees it: present, or missing. */
  datatype Operand = Present(value: Bson) | Missing

  /** The value of `name` in a document, missing when there is none. */
  function FieldValue(d: Document, name: string): Operand {
    match Get(d, name)
    case Some(v) => Present(v)
    case None => Missing
  }

  /** A name a `$`-reference can use for a field: MongoDB reads `$$x` as the
      variable `x`, so a field reference never begins with two dollars. */
  predicate PlainName(name: string) {
    name == [] || name[0] != '$'
  }

  /** An operand of an aggregation expression: `"$$v"` reads the variable
      `v`, `"$f"` reads the field `f` of the current document, and anything
      else is a literal. */
  function EvalRef(e: Bson, vars: Document, row: Document): Operand {
    if e.Str? && |e.s| >= 2 && e.s[..2] == "$$" then FieldValue(vars, e.s[2..])
    else if e.Str? && |e.s| >= 1 && e.s[0] == '$' then FieldValue(row, e.s[1..])
    else Present(e)
  }

  lemma FieldRefReads(name: string, vars: Document, row: Document)
    requires PlainName(name)
    ensures EvalRef(FieldRef(name), vars, row) == FieldValue(row, name)
  {
    assert FieldRef(name).s[1..] == name;
    if |name| > 0 {
      assert FieldRef(name).s[1] == name[0];
    }
  }

  lemma VariableReads(v: string, vars: Document, row: Document)
    ensures EvalRef(Str("$$" + v), vars, row) == FieldValue(vars, v)
  {
    assert ("$$" + v)[..2] == "$$" && ("$$" + v)[2..] == v;
  }

  /** The value of a one-key document `{ key: value }`. */
  function SingleValue(b: Bson, key: string): Option<Bson> {
    if b.Doc? && |b.fields| == 1 && b.fields[0].0 == key then Some(b.fields[0].1) else None
  }

  /** The two operands of `{ op: [a, b] }`. */
  function Operands(b: Bson, op: string): Option<(Bson, Bson)> {
    match SingleValue(b, op)
    case Some(Arr(items)) => if |items| == 2 then Some((items[0], items[1])) else None
    case _ => None
  }

  /** `{ $eq: [a, b] }` and `{ $in: [a, b] }` on a document under some
      variables; `$in` fails unless its second operand is an array. None for
      any other shape, or for a failing `$in`. */
  function EvalPredicate(p: Bson, vars: Document, row: Document): Option<bool> {
    match Operands(p, "$eq")
    case Some((a, b)) => Some(EvalRef(a, vars, row) == EvalRef(b, vars, row))
    case None =>
      match Operands(p, "$in")
      case Some((a, b)) =>
        (match EvalRef(b, vars, row)
         case Present(Arr(xs)) => Some(EvalRef(a, vars, row).Present? && EvalRef(a, vars, row).value in xs)
         case _ => None)
      case None => None
  }

  /** The name `$type` reports for a value. */
  function TypeName(v: Operand): string {
    match v
    case Missing => "missing"
    case Present(Null) => "null"
    case Present(Int(_)) => "int"
    case Present(Str(_)) => "string"
    case Present(Arr(_)) => "array"
    case Present(Doc(_)) => "object"
  }

  /** A term of a comparison: `{ $type: x }`, or an operand. */
  function EvalTerm(e: Bson, vars: Document, row: Document): Operand {
    match SingleValue(e, "$type")
    case Some(x) => Present(Str(TypeName(EvalRef(x, vars, row))))
    case None => EvalRef(e, vars, row)
  }

  /** `{ $cond: { if: { $ne: [a, b] }, then: t, else: f } }` on a document;
      None for any other shape. */
  function EvalCond(e: Bson, vars: Document, row: Document): Option<Operand> {
    match SingleValue(e, "$cond")
    case Some(Doc(body)) =>
      if |body| == 3 && body[0].0 == "if" && body[1].0 == "then" && body[2].0 == "else" then
        match Operands(body[0].1, "$ne")
        case Some((a, b)) =>
          Some(if EvalTerm(a, vars, row) != EvalTerm(b, vars, row) then EvalRef(body[1].1, vars, row)
               else EvalRef(body[2].1, vars, row))
        case None => None
      else None
    case _ => None
  }

  /** What the i-th key predicate computes on a related document `row` with
      the `let` variables `vars`: for a plain relation, whether the right key
      equals `left_i`; for a many-to-many one, whether the scalar side is an
      element of the list side, failing when the list side is not an array. */
  function KeyPredicateMeaning(manyToMany: bool, right: ScalarField, i: nat, vars: Document, row: Document): Option<bool> {
    var r, l := FieldValue(row, right.dbName), FieldValue(vars, LeftVar(i));
    if !manyToMany then Some(r == l)
    else
      var (elem, list) := if right.isList then (l, r) else (r, l);
      match list
      case Present(Arr(xs)) => Some(elem.Present? && elem.value in xs)
      case _ => None
  }

  /** The `$expr` predicate relating the i-th right key to `$$left_i`:
      equality for a plain relation, membership for a many-to-many one, with
      the list-valued side as the container. */
  function KeyPredicate(manyToMany: bool, right: ScalarField, i: nat): Bson {
    var rightRef := FieldRef(right.dbName);
    var leftVar := Str("$$" + LeftVar(i));
    if manyToMany then
      if right.isList then Doc(Single("$in", Arr([leftVar, rightRef])))
      else Doc(Single("$in", Arr([rightRef, leftVar])))
    else
      Doc(Single("$eq", Arr([rightRef, leftVar])))
  }

  /** The key predicate computes `KeyPredicateMeaning` on every document. */
  lemma KeyPredicateComputes(manyToMany: bool, right: ScalarField, i: nat, vars: Document, row: Document)
    requires PlainName(right.dbName)
    ensures EvalPredicate(KeyPredicate(manyToMany, right, i), vars, row) == KeyPredicateMeaning(manyToMany, right, i, vars, row)
  {
    FieldRefReads(right.dbName, vars, row);
    VariableReads(LeftVar(i), vars, row);
  }

  /** The `$addFields` entry that replaces a non-array value of `name` by `[]`. */
  function EmptyUnlessArray(name: string): Bson {
    var rightRef := FieldRef(name);
    Doc(Single("$cond", Doc([
      ("if", Doc(Single("$ne", Arr([Doc(Single("$type", rightRef)), Str("array")])))),
      ("then", Arr([])),
      ("else", rightRef)])))
  }

  /** On any document the normaliser keeps an array stored under `name`
      and turns anything else, a missing value included, into `[]`. */
  lemma EmptyUnlessArrayNormalizes(name: string, vars: Document, row: Document)
    requires PlainName(name)
    ensures var v := FieldValue(row, name);
            EvalCond(EmptyUnlessArray(name), vars, row) == Some(if v.Present? && v.value.Arr? then v else Present(Arr([])))
  {
    FieldRefReads(name, vars, row);
    assert "array"[0] == 'a' && "array"[..2] != "$$";
    assert EvalRef(Arr([]), vars, row) == Present(Arr([]));
  }

  function Docs(ds: seq<Document>): (bs: seq<Bson>)
    ensures |bs| == |ds| && forall i :: 0 <= i < |ds| ==> bs[i] == Doc(ds[i])
  {
    if ds == [] then [] else [Doc(ds[0])] + Docs(ds[1..])
  }

  /** The inverse of `Docs`: defined when every item is a document. */
  function AsDocs(items: seq<Bson>): (r: Option<seq<Document>>)
    ensures r.Some? <==> forall i :: 0 <= i < |items| ==> items[i].Doc?
    ensures r.Some? ==> Docs(r.value) == items
  {
    if items == [] then Some([])
    else if !items[0].Doc? then None
    else
      match AsDocs(items[1..])
      case None => None
      case Some(rest) =>
        assert forall i :: 1 <= i < |items| ==> items[i] == items[1..][i - 1];
        Some([items[0].fields] + rest)
  }

  /** The four parts of a `$lookup` stage. */
  datatype Lookup = Lookup(from: string, letVars: Document, pipeline: seq<Document>, asName: string)

  function LookupStage(l: Lookup): Document {
    Single("$lookup", Doc([
      ("from", Str(l.from)),
      ("let", Doc(l.letVars)),
      ("pipeline", Arr(Docs(l.pipeline))),
      ("as", Str(l.asName))]))
  }

  /** Reads a `$lookup` stage back into its parts. */
  function ParseLookup(d: Document): (r: Option<Lookup>)
    ensures r.Some? ==> LookupStage(r.value) == d
  {
    if |d| == 1 && d[0].0 == "$lookup" && d[0].1.Doc? && |d[0].1.fields| == 4 then
      var b := d[0].1.fields;
      if b[0].0 == "from" && b[0].1.Str? && b[1].0 == "let" && b[1].1.Doc?
         && b[2].0 == "pipeline" && b[2].1.Arr? && b[3].0 == "as" && b[3].1.Str?
      then
        match AsDocs(b[2].1.items)
        case None => None
        case Some(p) =>
          assert b == [b[0], b[1], b[2], b[3]];
          Some(Lookup(b[0].1.s, b[1].1.fields, p, b[3].1.s))
      else None
    else None
  }

  lemma {:induction false} AsDocsDocs(ds: seq<Document>)
    ensures AsDocs(Docs(ds)) == Some(ds)
  {
    if ds != [] {
      AsDocsDocs(ds[1..]);
      assert Docs(ds)[1..] == Docs(ds[1..]);
      assert [ds[0]] + ds[1..] == ds;
    }
  }

  /** Rendering a lookup and reading it back is the identity. */
  lemma ParseLookupStage(l: Lookup)
    ensures ParseLookup(LookupStage(l)) == Some(l)
  {
    AsDocsDocs(l.pipeline);
  }

  /** Reads the predicate list out of `{ $match: { $expr: { $and: ops } } }`. */
  function MatchOps(d: Document): Option<seq<Bson>> {
    if |d| == 1 && d[0].0 == "$match" then
      match SingleValue(d[0].1, "$expr")
      case None => None
      case Some(e) =>
        match SingleValue(e, "$and")
        case Some(Arr(ops)) => Some(ops)
        case _ => None
    else None
  }

  /** `let` binds `left_i` to the i-th left key, for every left key, in order. */
  predicate BindsLeftKeys(letVars: Document, left: seq<ScalarField>) {
    |letVars| == |left| && forall i :: 0 <= i < |left| ==> letVars[i] == (LeftVar(i), FieldRef(left[i].dbName))
  }

  /** An `$addFields` stage with one array-normalising entry per right key and nothing else. */
  predicate NormalizesArrays(stage: Document, right: seq<ScalarField>) {
    |stage| == 1 && stage[0].0 == "$addFields" && stage[0].1.Doc?
    && (forall i :: 0 <= i < |right| ==> Get(stage[0].1.fields, right[i].dbName) == Some(EmptyUnlessArray(right[i].dbName)))
    && (forall k :: k in Keys(stage[0].1.fields) ==> exists i :: 0 <= i < |right| && right[i].dbName == k)
  }

  /** A `$match` stage holding exactly one predicate per right key, the i-th correlating with `$$left_i`. */
  predicate CorrelatesKeys(stage: Document, rel: RelationField) {
    var ops := MatchOps(stage);
    ops.Some? && |ops.value| == |rel.rightScalars|
    && forall i :: 0 <= i < |rel.rightScalars| ==> ops.value[i] == KeyPredicate(rel.isManyToMany, rel.rightScalars[i], i)
  }

  /** The `let` document: `left_i` bound to `"$" + db_name` of the i-th left key. */
  function LetVars(left: seq<ScalarField>): (vars: Document)
    ensures BindsLeftKeys(vars, left)
    ensures DistinctKeys(vars)
  {
    var vars := LetVarsFrom(left, 0);
    LetVarsFromBinds(left, 0);
    assert DistinctKeys(vars) by {
      forall i, k | 0 <= i < k < |vars|
        ensures vars[i].0 != vars[k].0
      {
        if vars[i].0 == vars[k].0 {
          LeftVarInjective(i, k);
        }
      }
    }
    vars
  }

  /** The `let` entries for `left`, numbering the variables from `k`. */
  function LetVarsFrom(left: seq<ScalarField>, k: nat): Document {
    if left == [] then [] else [(LeftVar(k), FieldRef(left[0].dbName))] + LetVarsFrom(left[1..], k + 1)
  }

  lemma {:induction false} LetVarsFromBinds(left: seq<ScalarField>, k: nat)
    ensures |LetVarsFrom(left, k)| == |left|
    ensures forall i :: 0 <= i < |left| ==> LetVarsFrom(left, k)[i] == (LeftVar(k + i), FieldRef(left[i].dbName))
  {
    if left != [] {
      LetVarsFromBinds(left[1..], k + 1);
      forall i | 1 <= i < |left|
        ensures LetVarsFrom(left, k)[i] == (LeftVar(k + i), FieldRef(left[i].dbName))
      {
        assert left[i] == left[1..][i - 1] && k + i == (k + 1) + (i - 1);
      }
    }
  }

  /** The source fills the `let` document by inserting `left_0`, `left_1`, ...
      one after another; since these names are pairwise distinct, no insert
      overwrites an earlier one and the result is exactly `LetVars`. */
  lemma InsertedLetVars(left: seq<ScalarField>)
    ensures Extend([], LetVars(left)) == LetVars(left)
  {
    var pairs := LetVars(left);
    assert [] + pairs == pairs;
    ExtendAppends([], pairs);
  }

  /** One array-normalising entry per right key, in key order. */
  function NormalizingEntries(right: seq<ScalarField>): (pairs: Document)
    ensures |pairs| == |right|
    ensures forall i :: 0 <= i < |right| ==> pairs[i] == (right[i].dbName, EmptyUnlessArray(right[i].dbName))
  {
    seq(|right|, i requires 0 <= i < |right| => (right[i].dbName, EmptyUnlessArray(right[i].dbName)))
  }

  /** With no right key named twice, inserting the entries one by one lists them in order. */
  lemma NormalizingEntriesInOrder(right: seq<ScalarField>)
    ensures (forall i, j :: 0 <= i < j < |right| ==> right[i].dbName != right[j].dbName) ==>
              Extend([], NormalizingEntries(right)) == NormalizingEntries(right)
  {
    var pairs := NormalizingEntries(right);
    if forall i, j :: 0 <= i < j < |right| ==> right[i].dbName != right[j].dbName {
      assert DistinctKeys(pairs);
      assert [] + pairs == pairs;
      ExtendAppends([], pairs);
    }
  }

  /** The `$addFields` body built by inserting one entry per right key: it
      normalises every right key, binds no key twice, and with no name
      repeated it is exactly one entry per right key, in key order. */
  function AddFields(right: seq<ScalarField>): (r: Document)
    ensures NormalizesArrays(Single("$addFields", Doc(r)), right)
    ensures DistinctKeys(r)
    ensures (forall i, j :: 0 <= i < j < |right| ==> right[i].dbName != right[j].dbName) ==> r == NormalizingEntries(right)
  {
    var r := Extend([], NormalizingEntries(right));
    NormalizingEntriesNormalize(right);
    ExtendDistinct([], NormalizingEntries(right));
    NormalizingEntriesInOrder(right);
    r
  }

  /** Inserting the entries one by one gives each right key its normalising
      entry and adds no other key. */
  lemma NormalizingEntriesNormalize(right: seq<ScalarField>)
    ensures NormalizesArrays(Single("$addFields", Doc(Extend([], NormalizingEntries(right)))), right)
  {
    var pairs := NormalizingEntries(right);
    var r := Extend([], pairs);
    forall i | 0 <= i < |right|
      ensures Get(r, right[i].dbName) == Some(EmptyUnlessArray(right[i].dbName))
    {
      assert Keys(pairs)[i] == right[i].dbName;
      GetLastUniform(pairs, right[i].dbName, EmptyUnlessArray);
    }
    forall k | k in Keys(r)
      ensures exists i :: 0 <= i < |right| && right[i].dbName == k
    {
      ExtendKeyFromPairs(pairs, k);
      var i :| 0 <= i < |pairs| && Keys(pairs)[i] == k;
      assert right[i].dbName == k;
    }
  }

  function MatchStage(ops: seq<Bson>): Document {
    Single("$match", Doc(Single("$expr", Doc(Single("$and", Arr(ops))))))
  }

  lemma MatchStageCorrelates(rel: RelationField)
    ensures CorrelatesKeys(MatchStage(KeyPredicates(rel)), rel)
  {
  }

  /** One predicate per right key, in order. */
  function KeyPredicates(rel: RelationField): (ops: seq<Bson>)
    ensures |ops| == |rel.rightScalars|
  {
    seq(|rel.rightScalars|, i requires 0 <= i < |rel.rightScalars| => KeyPredicate(rel.isManyToMany, rel.rightScalars[i], i))
  }

  /** How many normalisation stages precede the `$match`: one `$addFields` for a many-to-many relation. */
  function NormalizeCount(rel: RelationField): nat {
    if rel.isManyToMany then 1 else 0
  }

  /** The correlated sub-pipeline of a join: the `$addFields` normalisation
      (many-to-many only), the `$match` on the key predicates, then the
      stages of the nested joins. */
  function SubPipeline(rel: RelationField, nestedStages: seq<Document>): (p: seq<Document>)
    ensures |p| == NormalizeCount(rel) + 1 + |nestedStages|
    ensures rel.isManyToMany ==> NormalizesArrays(p[0], rel.rightScalars)
    ensures CorrelatesKeys(p[NormalizeCount(rel)], rel)
    ensures p[NormalizeCount(rel) + 1..] == nestedStages
  {
    var ops := KeyPredicates(rel);
    MatchStageCorrelates(rel);
    var normalize := if rel.isManyToMany then [Single("$addFields", Doc(AddFields(rel.rightScalars)))] else [];
    var p := normalize + [MatchStage(ops)] + nestedStages;
    assert p[|normalize|] == MatchStage(ops);
    assert p[|normalize| + 1..] == nestedStages;
    p
  }

  /** The parts of the `$lookup` stage `JoinStage::build` renders. */
  function BuildLookup(j: JoinStage): Lookup
    decreases j, 1
  {
    Lookup(j.source.relatedCollection, LetVars(j.source.leftScalars), SubPipeline(j.source, BuildAll(j.nested)), AsName(j))
  }

  /** `JoinStage::build`: the `$lookup` document and the `$unwind` document,
      which is always absent. */
  function Build(j: JoinStage): (r: (Document, Option<Document>))
    ensures r.1 == None
    decreases j, 2
  {
    (LookupStage(BuildLookup(j)), None)
  }

  /** The built join document reads back as a `$lookup` with the parts of `BuildLookup`. */
  lemma BuildParses(j: JoinStage)
    ensures ParseLookup(Build(j).0) == Some(BuildLookup(j))
  {
    ParseLookupStage(BuildLookup(j));
  }

  /** What one built `$lookup` holds: `from` is the related collection, `as`
      is the alias or else the relation name, `let` binds the left keys
      positionally, and the sub-pipeline is the optional `$addFields`, the
      correlating `$match` and then the nested joins' stages in list order. */
  lemma BuildShape(j: JoinStage)
    ensures ParseLookup(Build(j).0).Some?
    ensures var l := ParseLookup(Build(j).0).value;
            var m := NormalizeCount(j.source);
            && l.from == j.source.relatedCollection
            && l.asName == (if j.alias.Some? then j.alias.value else j.source.relationName)
            && BindsLeftKeys(l.letVars, j.source.leftScalars)
            && |l.pipeline| == m + 1 + |j.nested|
            && (j.source.isManyToMany ==> NormalizesArrays(l.pipeline[0], j.source.rightScalars))
            && CorrelatesKeys(l.pipeline[m], j.source)
            && l.pipeline[m + 1..] == BuildAll(j.nested)
  {
    BuildParses(j);
  }

  /** The stages a list of joins contributes, in list order: each join's
      `$lookup` followed by its `$unwind` when there is one. */
  function BuildAll(ns: seq<JoinStage>): (r: seq<Document>)
    ensures |r| == |ns|
    decreases ns, 0
  {
    if ns == [] then []
    else
      var built := Build(ns[0]);
      var first := match built.1 case Some(unwind) => [built.0, unwind] case None => [built.0];
      first + BuildAll(ns[1..])
  }

  lemma BuildAllCons(ns: seq<JoinStage>)
    requires ns != []
    ensures BuildAll(ns) == [Build(ns[0]).0] + BuildAll(ns[1..])
  {
    assert Build(ns[0]).1 == None;
  }

  /** Each join contributes exactly its own `$lookup`, at its own position. */
  lemma {:induction false} BuildAllElements(ns: seq<JoinStage>)
    ensures forall i :: 0 <= i < |ns| ==> BuildAll(ns)[i] == Build(ns[i]).0
  {
    if ns != [] {
      var rest := BuildAll(ns[1..]);
      BuildAllCons(ns);
      BuildAllElements(ns[1..]);
      forall i | 1 <= i < |ns|
        ensures BuildAll(ns)[i] == Build(ns[i]).0
      {
        assert ns[i] == ns[1..][i - 1];
        assert BuildAll(ns)[i] == rest[i - 1];
      }
    }
  }

  /** The `as` names of the `$lookup` stages in a stage list and, recursively,
      in their sub-pipelines, depth-first and in order. */
  function LookupNames(stages: seq<Document>): seq<string> {
    ItemLookupNames(Docs(stages))
  }

  function ItemLookupNames(items: seq<Bson>): seq<string> {
    if items == [] then [] else BsonLookupNames(items[0]) + ItemLookupNames(items[1..])
  }

  function BsonLookupNames(b: Bson): seq<string> {
    match b
    case Doc(d) =>
      if |d| == 1 && d[0].0 == "$lookup" && d[0].1.Doc? && |d[0].1.fields| == 4
         && d[0].1.fields[2].1.Arr? && d[0].1.fields[3].1.Str?
      then [d[0].1.fields[3].1.s] + ItemLookupNames(d[0].1.fields[2].1.items)
      else []
    case _ => []
  }

  /** The alias-or-relation names of a join tree, in depth-first pre-order. */
  function PreorderNames(ns: seq<JoinStage>): seq<string>
    decreases ns, 0
  {
    if ns == [] then [] else NodeNames(ns[0]) + PreorderNames(ns[1..])
  }

  function NodeNames(n: JoinStage): seq<string>
    decreases n, 1
  {
    [AsName(n)] + PreorderNames(n.nested)
  }

  /** The number of `JoinStage` nodes in a forest. */
  function NodeCount(ns: seq<JoinStage>): nat
    decreases ns, 0
  {
    if ns == [] then 0 else 1 + NodeCount(ns[0].nested) + NodeCount(ns[1..])
  }

  lemma {:induction false} PreorderNamesCount(ns: seq<JoinStage>)
    ensures |PreorderNames(ns)| == NodeCount(ns)
    decreases ns
  {
    if ns != [] {
      PreorderNamesCount(ns[0].nested);
      PreorderNamesCount(ns[1..]);
    }
  }

  lemma {:induction false} ItemLookupNamesAppend(a: seq<Bson>, b: seq<Bson>)
    ensures ItemLookupNames(a + b) == ItemLookupNames(a) + ItemLookupNames(b)
  {
    if a != [] {
      assert (a + b)[0] == a[0];
      assert (a + b)[1..] == a[1..] + b;
      ItemLookupNamesAppend(a[1..], b);
    } else {
      assert a + b == b;
    }
  }

  lemma {:induction false} LookupNamesAppend(a: seq<Document>, b: seq<Document>)
    ensures LookupNames(a + b) == LookupNames(a) + LookupNames(b)
  {
    DocsAppend(a, b);
    ItemLookupNamesAppend(Docs(a), Docs(b));
  }

  lemma DocsAppend(a: seq<Document>, b: seq<Document>)
    ensures Docs(a + b) == Docs(a) + Docs(b)
  {
    var l, r := Docs(a + b), Docs(a) + Docs(b);
    forall i | 0 <= i < |l|
      ensures l[i] == r[i]
    {
      assert (a + b)[i] == if i < |a| then a[i] else b[i - |a|];
    }
  }

  /** A stage whose operator is not `$lookup` contributes no lookup name. */
  lemma NonLookupStage(d: Document)
    requires |d| >= 1 && d[0].0 != "$lookup"
    ensures LookupNames([d]) == []
  {
    assert Docs([d]) == [Doc(d)];
    assert BsonLookupNames(Doc(d)) == [];
    assert [Doc(d)][1..] == [];
    assert ItemLookupNames([Doc(d)]) == BsonLookupNames(Doc(d)) + ItemLookupNames([]);
  }

  /** The `$addFields` and `$match` stages in front of the nested joins hold no `$lookup`. */
  lemma SubPipelineLookupNames(rel: RelationField, nestedStages: seq<Document>)
    ensures LookupNames(SubPipeline(rel, nestedStages)) == LookupNames(nestedStages)
  {
    var p := SubPipeline(rel, nestedStages);
    var m := NormalizeCount(rel);
    NonLookupStage(p[m]);
    assert p == p[..m] + [p[m]] + nestedStages;
    LookupNamesAppend(p[..m] + [p[m]], nestedStages);
    LookupNamesAppend(p[..m], [p[m]]);
    if m == 1 {
      NonLookupStage(p[0]);
      assert p[..m] == [p[0]];
    } else {
      assert Docs(p[..m]) == [];
    }
  }

  lemma {:induction false} BuildLookupNames(n: JoinStage)
    ensures BsonLookupNames(Doc(Build(n).0)) == NodeNames(n)
    decreases n, 1
  {
    BuildAllLookupNames(n.nested);
    SubPipelineLookupNames(n.source, BuildAll(n.nested));
  }

  /** The built stages of a join forest hold exactly one `$lookup` per
      `JoinStage` node, nested as the tree is and listed in pre-order. */
  lemma {:induction false} BuildAllLookupNames(ns: seq<JoinStage>)
    ensures LookupNames(BuildAll(ns)) == PreorderNames(ns)
    decreases ns, 0
  {
    if ns != [] {
      BuildAllCons(ns);
      LookupNamesAppend([Build(ns[0]).0], BuildAll(ns[1..]));
      assert Docs([Build(ns[0]).0]) == [Doc(Build(ns[0]).0)];
      BuildLookupNames(ns[0]);
      BuildAllLookupNames(ns[1..]);
    }
  }

  /** Hence the number of `$lookup` documents equals the number of join nodes. */
  lemma LookupCount(ns: seq<JoinStage>)
    ensures |LookupNames(BuildAll(ns))| == NodeCount(ns)
  {
    BuildAllLookupNames(ns);
    PreorderNamesCount(ns);
  }

  lemma BuildAllAppend(a: seq<JoinStage>, b: seq<JoinStage>)
    ensures BuildAll(a + b) == BuildAll(a) + BuildAll(b)
  {
    var l, r := BuildAll(a + b), BuildAll(a) + BuildAll(b);
    BuildAllElements(a + b);
    BuildAllElements(a);
    BuildAllElements(b);
    forall i | 0 <= i < |l|
      ensures l[i] == r[i]
    {
      if i < |a| {
        assert (a + b)[i] == a[i];
      } else {
        assert (a + b)[i] == b[i - |a|];
      }
    }
  }

  /** Extending the nested joins appends their stages to the end of the
      sub-pipeline and leaves the existing stages in place. */
  lemma ExtendNestedPipeline(j: JoinStage, stages: seq<JoinStage>)
    ensures BuildLookup(ExtendNested(j, stages)).pipeline == BuildLookup(j).pipeline + BuildAll(stages)
  {
    BuildAllAppend(j.nested, stages);
    SubPipelineAppend(j.source, BuildAll(j.nested), BuildAll(stages));
  }

  lemma SubPipelineAppend(rel: RelationField, x: seq<Document>, y: seq<Document>)
    ensures SubPipeline(rel, x + y) == SubPipeline(rel, x) + y
  {
    var normalize := if rel.isManyToMany then [Single("$addFields", Doc(AddFields(rel.rightScalars)))] else [];
    AppendAssoc(normalize + [MatchStage(KeyPredicates(rel))], x, y);
  }

  /** Pushing one nested join appends exactly its `$lookup` to the sub-pipeline. */
  lemma PushNestedPipeline(j: JoinStage, stage: JoinStage)
    ensures BuildLookup(PushNested(j, stage)).pipeline == BuildLookup(j).pipeline + [Build(stage).0]
  {
    assert PushNested(j, stage) == ExtendNested(j, [stage]);
    ExtendNestedPipeline(j, [stage]);
    BuildAllCons([stage]);
  }
}
