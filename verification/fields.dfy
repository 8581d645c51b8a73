/**
 * Field collection (`FieldInfo::new`, `StructInfo::from`, `data_from_fields`): every named
 * field of a struct becomes a `FieldInfo` carrying its declared type, the classification of that
 * type and its parsed attributes; unnamed fields are dropped and declaration order is kept.
 */
module Fields {

  import opened Wrappers
  import opened Syntax
  import opened Classify
  import opened Attributes

  datatype FieldInfo = FieldInfo(ident: string, ty: Ty, special: Option<SpecialField>,
                                 attributes: seq<AttributeInfo>)

  datatype StructInfo = StructInfo(ident: string, fields: seq<FieldInfo>)

  predicate IsVecField(f: FieldInfo)
  {
    f.special.Some? && f.special.value.VecOf?
  }

  predicate IsOptionField(f: FieldInfo)
  {
    f.special.Some? && f.special.value.OptionOf?
  }

  /** `xs.iter().map(f).flatten().collect()`: the `Some` results of `f`, in order. */
  function FilterMap<A, B>(xs: seq<A>, f: A -> Option<B>): (r: seq<B>)
    ensures |r| <= |xs|
    ensures forall y :: y in r ==> exists i :: 0 <= i < |xs| && f(xs[i]) == Some(y)
  {
    if |xs| == 0 then []
    else
      var rest := FilterMap(xs[1..], f);
      assert forall y :: y in rest ==> exists i :: 0 <= i < |xs| && f(xs[i]) == Some(y) by {
        forall y | y in rest ensures exists i :: 0 <= i < |xs| && f(xs[i]) == Some(y) {
          var j :| 0 <= j < |xs[1..]| && f(xs[1..][j]) == Some(y);
          assert f(xs[j + 1]) == Some(y);
        }
      }
      match f(xs[0])
      case Some(y) => [y] + rest
      case None => rest
  }

  /** Filtering distributes over concatenation, so relative order is kept. */
  lemma {:induction false} FilterMapAppend<A, B>(xs: seq<A>, ys: seq<A>, f: A -> Option<B>)
    ensures FilterMap(xs + ys, f) == FilterMap(xs, f) + FilterMap(ys, f)
  {
    if |xs| == 0 {
      assert xs + ys == ys;
    } else {
      assert (xs + ys)[1..] == xs[1..] + ys;
      FilterMapAppend(xs[1..], ys, f);
    }
  }

  /** When `f` never yields `None`, nothing is dropped and positions are kept. */
  lemma {:induction false} FilterMapAllSome<A, B>(xs: seq<A>, f: A -> Option<B>)
    requires forall i :: 0 <= i < |xs| ==> f(xs[i]).Some?
    ensures |FilterMap(xs, f)| == |xs|
    ensures forall i :: 0 <= i < |xs| ==> Some(FilterMap(xs, f)[i]) == f(xs[i])
  {
    if |xs| > 0 {
      FilterMapAllSome(xs[1..], f);
    }
  }

  /** `FieldInfo::new`: `None` exactly for a field without an identifier. */
  function NewFieldInfo(field: Field): (r: Option<FieldInfo>)
    ensures r.None? <==> field.ident.None?
    ensures r.Some? ==>
      && r.value.ident == field.ident.value
      && r.value.ty == field.ty
      && r.value.special == SpecialFieldInfo(field.ty)
      && r.value.attributes == FilterMap(field.attrs, ParseAttribute)
  {
    var attributes := FilterMap(field.attrs, ParseAttribute);
    match field.ident
    case Some(ident) => Some(FieldInfo(ident, field.ty, SpecialFieldInfo(field.ty), attributes))
    case None => None
  }

  /** `StructInfo::from`: the named fields of a struct; no fields for an enum or a union. */
  function StructInfoFrom(input: DeriveInput): (r: StructInfo)
    ensures r.ident == input.ident
    ensures !input.data.StructData? ==> r.fields == []
    ensures input.data.StructData? ==> r.fields == FilterMap(input.data.fields, NewFieldInfo)
  {
    var fields := match input.data
      case StructData(fields) => FilterMap(fields, NewFieldInfo)
      case _ => [];
    StructInfo(input.ident, fields)
  }

  /** Collected fields of a struct whose fields all have names: one per declared field, in the
      declared order, each with the declared name and type. */
  lemma NamedFieldsCollectedInOrder(name: string, fields: seq<Field>)
    requires forall i :: 0 <= i < |fields| ==> fields[i].ident.Some?
    ensures |StructInfoFrom(DeriveInput(name, StructData(fields))).fields| == |fields|
    ensures forall i :: 0 <= i < |fields| ==>
      var f := StructInfoFrom(DeriveInput(name, StructData(fields))).fields[i];
      f.ident == fields[i].ident.value && f.ty == fields[i].ty && f.special == SpecialFieldInfo(fields[i].ty)
  {
    FilterMapAllSome(fields, NewFieldInfo);
  }

  /** An element that `f` maps to `None` contributes nothing wherever it stands. */
  lemma FilterMapSkips<A, B>(before: seq<A>, x: A, after: seq<A>, f: A -> Option<B>)
    requires f(x).None?
    ensures FilterMap(before + [x] + after, f) == FilterMap(before + after, f)
  {
    FilterMapAppend(before + [x], after, f);
    FilterMapAppend(before, [x], f);
    FilterMapAppend(before, after, f);
    assert FilterMap([x], f) == FilterMap([x][1..], f);
  }

  /** An unnamed field contributes nothing wherever it stands. */
  lemma UnnamedFieldDropped(name: string, before: seq<Field>, unnamed: Field, after: seq<Field>)
    requires unnamed.ident.None?
    ensures StructInfoFrom(DeriveInput(name, StructData(before + [unnamed] + after))).fields
         == StructInfoFrom(DeriveInput(name, StructData(before + after))).fields
  {
    FilterMapSkips(before, unnamed, after, NewFieldInfo);
  }

  /** `data_from_fields`: one emitted item per collected field, in field order. */
  function DataFromFields<T>(fields: seq<FieldInfo>, extract: FieldInfo -> T): (r: seq<T>)
    ensures |r| == |fields|
    ensures forall i :: 0 <= i < |fields| ==> r[i] == extract(fields[i])
  {
    if |fields| == 0 then [] else [extract(fields[0])] + DataFromFields(fields[1..], extract)
  }
}
