/** The field-list serialisers of the schema lowering
    (libs/datamodel/core/src/transform/dml_to_ast/lower.rs): turning the
    fields of an `@@id`, `@@index` or `@@unique` attribute back into schema
    syntax, `[a, b(length: 10, sort: Desc)]`. */
module Lower {
  import opened Wrappers

  datatype SortOrder = Asc | Desc

  datatype PrimaryKeyField = PrimaryKeyField(name: string, sortOrder: Option<SortOrder>, length: Option<nat>)

  datatype IndexField = IndexField(name: string, sortOrder: Option<SortOrder>, length: Option<nat>)

  datatype ArgumentValue = Numeric(n: nat) | Constant(c: string)

  /** A named argument, `length: 10` or `sort: Desc`. */
  datatype Argument = Argument(name: string, value: ArgumentValue)

  /** The two expression forms a field reference lowers to: a bare name, or a
      call-like form carrying arguments. Source spans are left out. */
  datatype Expression = ConstantValue(value: string) | Function(fname: string, args: seq<Argument>)

  function LengthArgument(length: nat): Argument {
    Argument("length", Numeric(length))
  }

  function SortArgument(order: SortOrder): Argument {
    Argument("sort", Constant(match order case Asc => "Asc" case Desc => "Desc"))
  }

  /** The argument list rules shared by both serialisers: the length first,
      when there is one, then the sort order, when one is to be shown; no
      arguments means a bare name. */
  function FieldExpression(name: string, length: Option<nat>, shownSort: Option<SortOrder>): (e: Expression)
    ensures e.ConstantValue? <==> length.None? && shownSort.None?
    ensures e.ConstantValue? ==> e.value == name
    ensures e.Function? ==> e.fname == name && |e.args| == (if length.Some? then 1 else 0) + (if shownSort.Some? then 1 else 0)
    ensures e.Function? && length.Some? ==> e.args[0] == LengthArgument(length.value)
    ensures e.Function? && shownSort.Some? ==> e.args[|e.args| - 1] == SortArgument(shownSort.value)
  {
    var lengthArgs := match length case Some(l) => [LengthArgument(l)] case None => [];
    var sortArgs := match shownSort case Some(o) => [SortArgument(o)] case None => [];
    var args := lengthArgs + sortArgs;
    if args == [] then ConstantValue(name) else Function(name, args)
  }

  /** `field_array`: every name becomes a bare constant, in order. */
  function FieldArray(fields: seq<string>): (r: seq<Expression>)
    ensures |r| == |fields|
    ensures forall i :: 0 <= i < |fields| ==> r[i] == ConstantValue(fields[i])
  {
    if fields == [] then []
    else
      var rest := FieldArray(fields[1..]);
      assert forall i :: 1 <= i < |fields| ==> fields[i] == fields[1..][i - 1];
      [ConstantValue(fields[0])] + rest
  }

  /** The sort order a primary-key field shows: only a descending one. */
  function PkShownSort(order: Option<SortOrder>): Option<SortOrder> {
    if order == Some(Desc) then Some(Desc) else None
  }

  function PkFieldExpression(f: PrimaryKeyField): (e: Expression)
    ensures e.ConstantValue? <==> f.length.None? && f.sortOrder != Some(Desc)
  {
    FieldExpression(f.name, f.length, PkShownSort(f.sortOrder))
  }

  /** `pk_field_array`: one expression per field, in order. */
  function PkFieldArray(fields: seq<PrimaryKeyField>): (r: seq<Expression>)
    ensures |r| == |fields|
    ensures forall i :: 0 <= i < |fields| ==> r[i] == PkFieldExpression(fields[i])
  {
    if fields == [] then []
    else
      var rest := PkFieldArray(fields[1..]);
      assert forall i :: 1 <= i < |fields| ==> fields[i] == fields[1..][i - 1];
      [PkFieldExpression(fields[0])] + rest
  }

  /** The sort order an index field shows: any order when asked to always
      render it, else only a descending one. */
  function IndexShownSort(order: Option<SortOrder>, alwaysRenderSortOrder: bool): Option<SortOrder> {
    if alwaysRenderSortOrder then order
    else match order
      case Some(Desc) => Some(Desc)
      case _ => None
  }

  function IndexFieldExpression(f: IndexField, alwaysRenderSortOrder: bool): (e: Expression)
    ensures alwaysRenderSortOrder ==> (e.ConstantValue? <==> f.length.None? && f.sortOrder.None?)
    ensures !alwaysRenderSortOrder ==> (e.ConstantValue? <==> f.length.None? && f.sortOrder != Some(Desc))
  {
    FieldExpression(f.name, f.length, IndexShownSort(f.sortOrder, alwaysRenderSortOrder))
  }

  /** `index_field_array`: one expression per field, in order. */
  function IndexFieldArray(fields: seq<IndexField>, alwaysRenderSortOrder: bool): (r: seq<Expression>)
    ensures |r| == |fields|
    ensures forall i :: 0 <= i < |fields| ==> r[i] == IndexFieldExpression(fields[i], alwaysRenderSortOrder)
  {
    if fields == [] then []
    else
      var rest := IndexFieldArray(fields[1..], alwaysRenderSortOrder);
      assert forall i :: 1 <= i < |fields| ==> fields[i] == fields[1..][i - 1];
      [IndexFieldExpression(fields[0], alwaysRenderSortOrder)] + rest
  }

  // ---------------------------------------------------------------------
  // Reading the syntax back

  function ReadSort(a: Argument): Option<SortOrder> {
    if a.name != "sort" then None
    else match a.value
      case Constant(c) => if c == "Asc" then Some(Asc) else if c == "Desc" then Some(Desc) else None
      case Numeric(_) => None
  }

  function ReadLength(a: Argument): Option<nat> {
    if a.name != "length" then None
    else match a.value
      case Numeric(n) => Some(n)
      case Constant(_) => None
  }

  /** Reads a field reference as the schema parser would: a bare name, or a
      name with `length`, `sort` or both, in that order. Anything else is
      rejected. */
  function ReadField(e: Expression): Option<IndexField> {
    match e
    case ConstantValue(name) => Some(IndexField(name, None, None))
    case Function(name, args) =>
      if |args| == 1 then
        match (ReadLength(args[0]), ReadSort(args[0]))
        case (Some(l), _) => Some(IndexField(name, None, Some(l)))
        case (None, Some(o)) => Some(IndexField(name, Some(o), None))
        case (None, None) => None
      else if |args| == 2 then
        match (ReadLength(args[0]), ReadSort(args[1]))
        case (Some(l), Some(o)) => Some(IndexField(name, Some(o), Some(l)))
        case _ => None
      else None
  }

  function ReadFields(es: seq<Expression>): Option<seq<IndexField>> {
    if es == [] then Some([])
    else match (ReadField(es[0]), ReadFields(es[1..]))
      case (Some(f), Some(rest)) => Some([f] + rest)
      case _ => None
  }

  /** Rendering every sort order loses nothing: the syntax reads back as the field. */
  lemma IndexFieldRoundTrip(f: IndexField)
    ensures ReadField(IndexFieldExpression(f, true)) == Some(f)
  {
  }

  /** Rendering only descending orders reads back with an ascending order dropped. */
  lemma IndexFieldDescOnlyRoundTrip(f: IndexField)
    ensures ReadField(IndexFieldExpression(f, false)) == Some(f.(sortOrder := IndexShownSort(f.sortOrder, false)))
  {
  }

  lemma PkFieldRoundTrip(f: PrimaryKeyField)
    ensures ReadField(PkFieldExpression(f)) == Some(IndexField(f.name, PkShownSort(f.sortOrder), f.length))
  {
  }

  lemma {:induction false} IndexFieldArrayRoundTrip(fields: seq<IndexField>)
    ensures ReadFields(IndexFieldArray(fields, true)) == Some(fields)
  {
    if fields != [] {
      var es := IndexFieldArray(fields, true);
      assert es[1..] == IndexFieldArray(fields[1..], true);
      IndexFieldRoundTrip(fields[0]);
      IndexFieldArrayRoundTrip(fields[1..]);
      assert [fields[0]] + fields[1..] == fields;
    }
  }

  /** A list reads back exactly when each element does, element by element. */
  lemma {:induction false} ReadFieldsAt(es: seq<Expression>)
    ensures ReadFields(es).Some? <==> forall i :: 0 <= i < |es| ==> ReadField(es[i]).Some?
    ensures ReadFields(es).Some? ==>
              && |ReadFields(es).value| == |es|
              && forall i :: 0 <= i < |es| ==> ReadFields(es).value[i] == ReadField(es[i]).value
  {
    if es != [] {
      ReadFieldsAt(es[1..]);
      assert forall i :: 1 <= i < |es| ==> es[i] == es[1..][i - 1];
    }
  }

  /** The names of `field_array` read back as plain fields, in order. */
  lemma FieldArrayRoundTrip(fields: seq<string>)
    ensures ReadFields(FieldArray(fields)).Some?
    ensures |ReadFields(FieldArray(fields)).value| == |fields|
    ensures forall i :: 0 <= i < |fields| ==> ReadFields(FieldArray(fields)).value[i] == IndexField(fields[i], None, None)
  {
    ReadFieldsAt(FieldArray(fields));
  }

  /** An index field seen as a primary-key field, with the same name, order and length. */
  function AsPrimaryKeyField(f: IndexField): PrimaryKeyField {
    PrimaryKeyField(f.name, f.sortOrder, f.length)
  }

  /** Without `always_render_sort_order`, an index renders exactly like a
      primary key on the same fields. */
  lemma IndexMatchesPk(fields: seq<IndexField>)
    ensures IndexFieldArray(fields, false)
            == PkFieldArray(seq(|fields|, i requires 0 <= i < |fields| => AsPrimaryKeyField(fields[i])))
  {
    var pks := seq(|fields|, i requires 0 <= i < |fields| => AsPrimaryKeyField(fields[i]));
    forall i | 0 <= i < |fields|
      ensures IndexFieldExpression(fields[i], false) == PkFieldExpression(pks[i])
    {
      assert IndexShownSort(fields[i].sortOrder, false) == PkShownSort(pks[i].sortOrder);
    }
  }
}
