/**
 * The six per-field emitters of the derive macro and the `derive` entry point that maps each of
 * them over the collected fields. Emitted Rust tokens are represented by abstract fragments; an
 * emitter that produces an empty token stream yields `Nothing`.
 */
module Emit {

  import opened Wrappers
  import opened Syntax
  import opened Classify
  import opened Attributes
  import opened Fields

  /** The initialiser `builder()` gives a slot: `Vec::new()` or `None`. */
  datatype InitialValue = EmptyVec | NoneValue

  /** How `build` reads a slot: `self.f.clone()` or `self.f.clone().unwrap()`. */
  datatype Extraction = CloneAsStored | CloneUnwrap

  datatype Fragment =
    | Nothing                                              // an empty token stream
    | StorageSlot(name: string, storedTy: Ty)              // `name: storedTy,` in the builder struct
    | DefaultInit(name: string, init: InitialValue)        // `name: <init>,` in `builder()`
    | SetterFn(name: string, paramTy: Ty)                  // `fn name(&mut self, name: paramTy)` storing `Some(name)`
    | MissingCheck(name: string)                           // `if self.name.is_none() { missing_fields.push("name"); }`
    | AppenderFn(name: string, slot: string, elemTy: Ty)   // `fn name(&mut self, name: elemTy)` pushing onto `self.slot`
    | FieldAssign(name: string, extraction: Extraction)    // `name: self.name.clone()[.unwrap()],` in `build`
    | IdentPanic(text: string)                             // `format_ident!` panicked on `text`: expansion aborts

  predicate IsIdentStart(c: char)
  {
    ('a' <= c <= 'z') || ('A' <= c <= 'Z') || c == '_' || c as int > 127
  }

  predicate IsIdentContinue(c: char)
  {
    IsIdentStart(c) || ('0' <= c <= '9')
  }

  /** Text that `format_ident!` accepts as an identifier: non-empty, starting with a letter or
      `_`, continuing with letters, digits or `_`. Every non-ASCII character is taken as a
      letter. */
  predicate IsIdent(text: string)
  {
    |text| > 0 && IsIdentStart(text[0]) && forall i :: 1 <= i < |text| ==> IsIdentContinue(text[i])
  }

  /** `field_definition`: every field is stored as `Option<declared type>`, Vec fields included. */
  function FieldDefinition(f: FieldInfo): (r: Fragment)
    ensures r.StorageSlot? && r.name == f.ident
    ensures SpecialFieldInfo(r.storedTy) == Some(OptionOf(f.ty))
  {
    StorageSlot(f.ident, Generic("Option", f.ty))
  }

  /** `default_builder`: Vec-classified fields start as an empty vector, all others as `None`. */
  function DefaultBuilder(f: FieldInfo): (r: Fragment)
    ensures r.DefaultInit? && r.name == f.ident
    ensures r.init == EmptyVec <==> IsVecField(f)
  {
    match f.special
    case Some(VecOf(_)) => DefaultInit(f.ident, EmptyVec)
    case _ => DefaultInit(f.ident, NoneValue)
  }

  /** `setter`: a setter taking the whole declared type for every field that is not a Vec. */
  function Setter(f: FieldInfo): (r: Fragment)
    ensures r.SetterFn? <==> !IsVecField(f)
    ensures r.SetterFn? ==> r.name == f.ident && r.paramTy == f.ty
    ensures !r.SetterFn? ==> r == Nothing
  {
    match f.special
    case Some(VecOf(_)) => Nothing
    case _ => SetterFn(f.ident, f.ty)
  }

  /** `validation`: an absence check is emitted for Option-classified fields only. */
  function Validation(f: FieldInfo): (r: Fragment)
    ensures r.MissingCheck? <==> IsOptionField(f)
    ensures r.MissingCheck? ==> r.name == f.ident
    ensures !r.MissingCheck? ==> r == Nothing
  {
    match f.special
    case Some(OptionOf(_)) => MissingCheck(f.ident)
    case _ => Nothing
  }

  ghost predicate HasEach(attributes: seq<AttributeInfo>)
  {
    exists i :: 0 <= i < |attributes| && attributes[i].tag == "each"
  }

  /** `attributes.iter().find(|attr| attr.tag == "each")`: the first attribute tagged `each`. */
  function FindEach(attributes: seq<AttributeInfo>): (r: Option<AttributeInfo>)
    ensures r.Some? <==> HasEach(attributes)
    ensures r.Some? ==> exists i :: 0 <= i < |attributes| && attributes[i] == r.value
                                    && r.value.tag == "each"
                                    && forall j :: 0 <= j < i ==> attributes[j].tag != "each"
  {
    if |attributes| == 0 then None
    else if attributes[0].tag == "each" then Some(attributes[0])
    else
      var r := FindEach(attributes[1..]);
      assert HasEach(attributes[1..]) <==> HasEach(attributes) by {
        if HasEach(attributes) {
          var i :| 0 <= i < |attributes| && attributes[i].tag == "each";
          assert attributes[1..][i - 1].tag == "each";
        }
        if HasEach(attributes[1..]) {
          var i :| 0 <= i < |attributes[1..]| && attributes[1..][i].tag == "each";
          assert attributes[i + 1].tag == "each";
        }
      }
      assert r.Some? ==> exists i :: 0 <= i < |attributes| && attributes[i] == r.value
                                    && r.value.tag == "each"
                                    && forall j :: 0 <= j < i ==> attributes[j].tag != "each" by {
        if r.Some? {
          var i :| 0 <= i < |attributes[1..]| && attributes[1..][i] == r.value
                   && r.value.tag == "each"
                   && forall j :: 0 <= j < i ==> attributes[1..][j].tag != "each";
          assert attributes[i + 1] == r.value;
          forall j | 0 <= j < i + 1 ensures attributes[j].tag != "each" {
            if j > 0 { assert attributes[j] == attributes[1..][j - 1]; }
          }
        }
      }
      r
  }

  /** `each`: an appender for a Vec-classified field that carries an `each` attribute, named by
      the first such attribute's value and taking one element of the Vec's inner type. When that
      value is not an identifier, `format_ident!` panics instead. */
  function Each(f: FieldInfo): (r: Fragment)
    ensures r.AppenderFn? <==>
      IsVecField(f) && HasEach(f.attributes) && IsIdent(FindEach(f.attributes).value.value)
    ensures r.IdentPanic? <==>
      IsVecField(f) && HasEach(f.attributes) && !IsIdent(FindEach(f.attributes).value.value)
    ensures r.AppenderFn? ==>
      && r.name == FindEach(f.attributes).value.value
      && r.slot == f.ident
      && f.special == Some(VecOf(r.elemTy))
    ensures r.IdentPanic? ==> r.text == FindEach(f.attributes).value.value
    ensures !r.AppenderFn? && !r.IdentPanic? ==> r == Nothing
  {
    match f.special
    case Some(VecOf(inner)) =>
      (match FindEach(f.attributes)
       case Some(attr) =>
         if IsIdent(attr.value) then AppenderFn(attr.value, f.ident, inner) else IdentPanic(attr.value)
       case None => Nothing)
    case _ => Nothing
  }

  /** `build`: Option-classified fields are copied as stored, every other field is unwrapped. */
  function Build(f: FieldInfo): (r: Fragment)
    ensures r.FieldAssign? && r.name == f.ident
    ensures r.extraction == CloneAsStored <==> IsOptionField(f)
  {
    match f.special
    case Some(OptionOf(_)) => FieldAssign(f.ident, CloneAsStored)
    case _ => FieldAssign(f.ident, CloneUnwrap)
  }

  /** What `derive` splices into its output: the names and the six fragment lists. */
  datatype Generated = Generated(
    structName: string,
    builderName: string,
    fieldDefinitions: seq<Fragment>,
    defaultBuilders: seq<Fragment>,
    setters: seq<Fragment>,
    validations: seq<Fragment>,
    eachBuilders: seq<Fragment>,
    fieldBuilders: seq<Fragment>)

  /** `derive`: the builder is named after the struct with `Builder` appended, and every pass
      yields one fragment per collected field. */
  function Derive(input: DeriveInput): (g: Generated)
    ensures g.structName == input.ident && g.builderName == input.ident + "Builder"
    ensures var n := |StructInfoFrom(input).fields|;
      && |g.fieldDefinitions| == n && |g.defaultBuilders| == n && |g.setters| == n
      && |g.validations| == n && |g.eachBuilders| == n && |g.fieldBuilders| == n
    ensures var fs := StructInfoFrom(input).fields;
      forall i :: 0 <= i < |fs| ==>
        && g.fieldDefinitions[i] == FieldDefinition(fs[i])
        && g.defaultBuilders[i] == DefaultBuilder(fs[i])
        && g.setters[i] == Setter(fs[i])
        && g.validations[i] == Validation(fs[i])
        && g.eachBuilders[i] == Each(fs[i])
        && g.fieldBuilders[i] == Build(fs[i])
  {
    var fields := StructInfoFrom(input).fields;
    Generated(
      input.ident,
      input.ident + "Builder",
      DataFromFields(fields, FieldDefinition),
      DataFromFields(fields, DefaultBuilder),
      DataFromFields(fields, Setter),
      DataFromFields(fields, Validation),
      DataFromFields(fields, Each),
      DataFromFields(fields, Build))
  }

  /** The passes agree field by field: slot, default and assignment name the i-th field; a field
      has a setter exactly when it defaults to `None`; an appender only where there is no setter
      and the default is an empty vector; an absence check exactly where `build` copies the slot
      as stored. */
  lemma DerivePassesAgree(input: DeriveInput, i: nat)
    requires i < |StructInfoFrom(input).fields|
    ensures var f := StructInfoFrom(input).fields[i];
            var g := Derive(input);
      && g.fieldDefinitions[i].name == f.ident
      && g.defaultBuilders[i].name == f.ident
      && g.fieldBuilders[i].name == f.ident
      && (g.setters[i].SetterFn? <==> g.defaultBuilders[i].init == NoneValue)
      && (g.eachBuilders[i].AppenderFn? ==> g.setters[i] == Nothing && g.defaultBuilders[i].init == EmptyVec)
      && (g.validations[i].MissingCheck? <==> g.fieldBuilders[i].extraction == CloneAsStored)
  {
    var fields := StructInfoFrom(input).fields;
    var f := fields[i];
    var g := Derive(input);
    assert g.fieldDefinitions[i] == FieldDefinition(f);
    assert g.defaultBuilders[i] == DefaultBuilder(f);
    assert g.setters[i] == Setter(f);
    assert g.validations[i] == Validation(f);
    assert g.eachBuilders[i] == Each(f);
    assert g.fieldBuilders[i] == Build(f);
  }

  /** `#[builder(each = "name")]` on a `Vec<T>` field yields the appender `name(T)` when `name` is
      an identifier, and the panic of `format_ident!` otherwise; a field carrying only malformed
      attributes gets no appender. */
  lemma EachFromAttribute(ident: string, inner: Ty, name: string, attrs: seq<Attribute>)
    requires '"' !in name
    ensures var field := Field([TagValueAttribute("builder", "each", name)] + attrs, Some(ident), Generic("Vec", inner));
            Each(NewFieldInfo(field).value) == if IsIdent(name) then AppenderFn(name, ident, inner) else IdentPanic(name)
    ensures (forall i :: 0 <= i < |attrs| ==> ParseAttribute(attrs[i]).None?) ==>
            Each(NewFieldInfo(Field(attrs, Some(ident), Generic("Vec", inner))).value) == Nothing
  {
    var each := TagValueAttribute("builder", "each", name);
    ParseTagValue("builder", "each", name);
    var parsed := FilterMap([each] + attrs, ParseAttribute);
    assert ([each] + attrs)[1..] == attrs;
    assert parsed[0] == AttributeInfo("builder", "each", name);
    if forall i :: 0 <= i < |attrs| ==> ParseAttribute(attrs[i]).None? {
      NoneFiltered(attrs);
    }
  }

  /** Values that are not identifiers make the expansion panic: empty, containing a space, or a
      number. */
  lemma EachPanicsOnNonIdentifier(ident: string, inner: Ty)
    ensures Each(FieldInfo(ident, Generic("Vec", inner), Some(VecOf(inner)),
                           [AttributeInfo("builder", "each", "")])) == IdentPanic("")
    ensures Each(FieldInfo(ident, Generic("Vec", inner), Some(VecOf(inner)),
                           [AttributeInfo("builder", "each", "a b")])) == IdentPanic("a b")
    ensures Each(FieldInfo(ident, Generic("Vec", inner), Some(VecOf(inner)),
                           [AttributeInfo("builder", "each", "5")])) == IdentPanic("5")
  {
    assert !IsIdentContinue(" "[0]);
    assert !IsIdent("a b") by { assert !IsIdentContinue("a b"[1]); }
  }

  lemma {:induction false} NoneFiltered(attrs: seq<Attribute>)
    requires forall i :: 0 <= i < |attrs| ==> ParseAttribute(attrs[i]).None?
    ensures FilterMap(attrs, ParseAttribute) == []
  {
    if |attrs| > 0 {
      NoneFiltered(attrs[1..]);
    }
  }
}
