/**
 * Run-time behaviour of the builder that the derive macro generates: `Struct::builder()` fills
 * every slot from its emitted default, setters overwrite a slot, `each` appenders push onto one,
 * and `build` runs the emitted absence checks, then either reports the missing names or
 * assembles the struct from the emitted field assignments.
 */
module Runtime {

  import opened Wrappers
  import opened Fields
  import opened Emit
  import opened Text

  /** The value held in one builder slot: an `Option` of the declared type, or (for a Vec field,
      which `builder()` initialises with `Vec::new()`) the elements pushed so far. */
  datatype Slot<V> = Single(opt: Option<V>) | Many(items: seq<V>)

  /** One field of the assembled struct: a copied `Option`, an unwrapped value or the elements. */
  datatype FieldValue<V> = Stored(opt: Option<V>) | Unwrapped(value: V) | Items(items: seq<V>)

  /** The outcome of `build`: the struct's field values, the `Err` message, or a panic raised by
      `unwrap()` on the named field. */
  datatype BuildResult<V> = Built(values: seq<FieldValue<V>>) | Failed(message: string) | Panicked(field: string)

  /** Slots agree with the classification: exactly the Vec fields hold a vector. */
  ghost predicate SlotsFit<V>(fields: seq<FieldInfo>, slots: seq<Slot<V>>)
  {
    && |slots| == |fields|
    && forall i :: 0 <= i < |fields| ==> (IsVecField(fields[i]) <==> slots[i].Many?)
  }

  /** The value an emitted default initialiser evaluates to. */
  function InitialSlot<V>(init: InitialValue): (s: Slot<V>)
    ensures s.Many? <==> init == EmptyVec
    ensures s == Single(None) || s == Many([])
  {
    match init
    case EmptyVec => Many([])
    case NoneValue => Single(None)
  }

  /** The value an emitted field assignment evaluates to; `None` when `unwrap()` panics. A Vec
      slot is taken as the vector itself. */
  function Extract<V>(extraction: Extraction, s: Slot<V>): (r: Option<FieldValue<V>>)
    ensures r.None? <==> extraction == CloneUnwrap && s == Single(None)
    ensures s.Many? ==> r == Some(Items(s.items))
    ensures s.Single? && extraction == CloneAsStored ==> r == Some(Stored(s.opt))
    ensures s.Single? && s.opt.Some? && extraction == CloneUnwrap ==> r == Some(Unwrapped(s.opt.value))
  {
    match s
    case Many(items) => Some(Items(items))
    case Single(opt) =>
      match extraction
      case CloneAsStored => Some(Stored(opt))
      case CloneUnwrap =>
        match opt
        case Some(v) => Some(Unwrapped(v))
        case None => None
  }

  /** Whether the emitted check of field `f` pushes its name: it has a check and its slot is `None`. */
  predicate Reports<V>(f: FieldInfo, s: Slot<V>)
  {
    Validation(f).MissingCheck? && s == Single(None)
  }

  /** The names pushed onto `missing_fields` by the emitted checks, run in field order. */
  function MissingFields<V>(fields: seq<FieldInfo>, slots: seq<Slot<V>>): (r: seq<string>)
    requires |fields| == |slots|
    ensures |r| <= |fields|
    ensures forall k :: 0 <= k < |r| ==>
      exists i :: 0 <= i < |fields| && fields[i].ident == r[k] && IsOptionField(fields[i]) && slots[i] == Single(None)
  {
    if |fields| == 0 then []
    else
      var n := |fields| - 1;
      var prefix := MissingFields(fields[..n], slots[..n]);
      var last := if Reports(fields[n], slots[n]) then [fields[n].ident] else [];
      var r := prefix + last;
      assert forall k :: 0 <= k < |r| ==>
        exists i :: 0 <= i < |fields| && fields[i].ident == r[k] && IsOptionField(fields[i]) && slots[i] == Single(None) by {
        forall k | 0 <= k < |r|
          ensures exists i :: 0 <= i < |fields| && fields[i].ident == r[k] && IsOptionField(fields[i]) && slots[i] == Single(None)
        {
          if k < |prefix| {
            assert r[k] == prefix[k];
            var i :| 0 <= i < n && fields[..n][i].ident == prefix[k] && IsOptionField(fields[..n][i]) && slots[..n][i] == Single(None);
            assert fields[..n][i] == fields[i] && slots[..n][i] == slots[i];
          } else {
            assert r[k] == fields[n].ident;
            assert Reports(fields[n], slots[n]);
          }
        }
      }
      r
  }

  /** `format!("Missing fields: {}", missing_fields.join(","))`. */
  function MissingMessage(missing: seq<string>): (r: string)
    ensures |r| >= 16 && r[..16] == "Missing fields: "
    ensures r[16..] == Join(missing, ',')
  {
    "Missing fields: " + Join(missing, ',')
  }

  /** The emitted field assignments evaluated in field order; the first `unwrap()` of `None`
      panics. */
  function Assemble<V>(fields: seq<FieldInfo>, slots: seq<Slot<V>>): (r: BuildResult<V>)
    requires |fields| == |slots|
    ensures !r.Failed?
    ensures r.Built? ==> |r.values| == |fields|
    ensures r.Panicked? ==>
      exists i :: 0 <= i < |fields| && r.field == fields[i].ident && Panics(fields[i], slots[i])
  {
    if |fields| == 0 then Built([])
    else
      var n := |fields| - 1;
      var prefix := Assemble(fields[..n], slots[..n]);
      assert prefix.Panicked? ==>
        exists i :: 0 <= i < |fields| && prefix.field == fields[i].ident && Panics(fields[i], slots[i]) by {
        if prefix.Panicked? {
          var i :| 0 <= i < n && prefix.field == fields[..n][i].ident && Panics(fields[..n][i], slots[..n][i]);
          assert fields[..n][i] == fields[i] && slots[..n][i] == slots[i];
        }
      }
      if !prefix.Built? then prefix
      else
        match Extract(Build(fields[n]).extraction, slots[n])
        case Some(v) => Built(prefix.values + [v])
        case None => Panicked(fields[n].ident)
  }

  /** The body of the generated `build`. */
  function BuildOutcome<V>(fields: seq<FieldInfo>, slots: seq<Slot<V>>): (r: BuildResult<V>)
    requires |fields| == |slots|
    ensures r.Failed? <==> MissingFields(fields, slots) != []
    ensures r.Failed? ==> r.message == MissingMessage(MissingFields(fields, slots))
    ensures !r.Failed? ==> r == Assemble(fields, slots)
  {
    var missing := MissingFields(fields, slots);
    if missing == [] then Assemble(fields, slots) else Failed(MissingMessage(missing))
  }

  /** `unwrap()` panics on field `f`: it is not Option-classified and its slot is `None`. */
  ghost predicate Panics<V>(f: FieldInfo, s: Slot<V>)
  {
    !IsOptionField(f) && s == Single(None)
  }

  /** The checks of two runs of fields report one after the other. */
  lemma {:induction false} MissingFieldsAppend<V>(f1: seq<FieldInfo>, s1: seq<Slot<V>>,
                                                  f2: seq<FieldInfo>, s2: seq<Slot<V>>)
    requires |f1| == |s1| && |f2| == |s2|
    ensures MissingFields(f1 + f2, s1 + s2) == MissingFields(f1, s1) + MissingFields(f2, s2)
    decreases |f2|
  {
    if |f2| == 0 {
      assert f1 + f2 == f1 && s1 + s2 == s1;
    } else {
      var n := |f2| - 1;
      assert (f1 + f2)[..|f1| + n] == f1 + f2[..n];
      assert (s1 + s2)[..|s1| + n] == s1 + s2[..n];
      MissingFieldsAppend(f1, s1, f2[..n], s2[..n]);
    }
  }

  /** A name is reported exactly for an Option-classified field whose slot is `None`. */
  lemma {:induction false} MissingFieldsMembers<V>(fields: seq<FieldInfo>, slots: seq<Slot<V>>, x: string)
    requires |fields| == |slots|
    ensures x in MissingFields(fields, slots) <==>
      exists i :: 0 <= i < |fields| && fields[i].ident == x && IsOptionField(fields[i]) && slots[i] == Single(None)
  {
    var r := MissingFields(fields, slots);
    if x in r {
      var k :| 0 <= k < |r| && r[k] == x;
    } else if |fields| > 0 {
      var n := |fields| - 1;
      var prefix := MissingFields(fields[..n], slots[..n]);
      var last := if Reports(fields[n], slots[n]) then [fields[n].ident] else [];
      assert r == prefix + last;
      MissingFieldsMembers(fields[..n], slots[..n], x);
      forall i | 0 <= i < |fields| && fields[i].ident == x && IsOptionField(fields[i])
        ensures slots[i] != Single(None)
      {
        if i < n {
          assert fields[..n][i] == fields[i] && slots[..n][i] == slots[i];
          assert x !in prefix;
        } else {
          assert x !in last;
        }
      }
    }
  }

  /** Nothing is reported when every Option-classified field has been given a value. */
  lemma NothingMissing<V>(fields: seq<FieldInfo>, slots: seq<Slot<V>>)
    requires |fields| == |slots|
    requires forall i :: 0 <= i < |fields| && IsOptionField(fields[i]) ==> slots[i] != Single(None)
    ensures MissingFields(fields, slots) == []
  {
  }

  /** A panic in the assignments before the last one is the result of the whole assembly. */
  lemma AssembleStopsAfterPanic<V>(fields: seq<FieldInfo>, slots: seq<Slot<V>>)
    requires |fields| == |slots| && |fields| > 0
    requires Assemble(fields[..|fields| - 1], slots[..|slots| - 1]).Panicked?
    ensures Assemble(fields, slots) == Assemble(fields[..|fields| - 1], slots[..|slots| - 1])
  {
  }

  /** A prefix of a prefix is a prefix. */
  lemma PrefixOfPrefix<T>(s: seq<T>, n: nat, k: nat)
    requires k <= n <= |s|
    ensures s[..n][..k] == s[..k]
  {
  }

  /** Once a prefix of the assignments has panicked, the whole assembly ends in that panic. */
  lemma {:induction false} AssemblePanicStays<V>(fields: seq<FieldInfo>, slots: seq<Slot<V>>, k: nat)
    requires |fields| == |slots| && k <= |fields|
    requires Assemble(fields[..k], slots[..k]).Panicked?
    ensures Assemble(fields, slots) == Assemble(fields[..k], slots[..k])
    decreases |fields| - k
  {
    if k < |fields| {
      var n := |fields| - 1;
      var fs, ss := fields[..n], slots[..n];
      PrefixOfPrefix(fields, n, k);
      PrefixOfPrefix(slots, n, k);
      AssemblePanicStays(fs, ss, k);
      AssembleStopsAfterPanic(fields, slots);
    } else {
      assert fields[..k] == fields && slots[..k] == slots;
    }
  }

  /** Assembly succeeds exactly when no field panics; it then holds one value per field, each what
      its assignment evaluates to; otherwise it panics on the first panicking field. */
  lemma {:induction false} AssembleCases<V>(fields: seq<FieldInfo>, slots: seq<Slot<V>>)
    requires |fields| == |slots|
    ensures Assemble(fields, slots).Built? <==> forall i :: 0 <= i < |fields| ==> !Panics(fields[i], slots[i])
    ensures Assemble(fields, slots).Built? ==>
      forall i :: 0 <= i < |fields| ==>
        Some(Assemble(fields, slots).values[i]) == Extract(Build(fields[i]).extraction, slots[i])
    ensures Assemble(fields, slots).Panicked? ==>
      exists i :: 0 <= i < |fields| && Panics(fields[i], slots[i])
                  && Assemble(fields, slots).field == fields[i].ident
                  && forall j :: 0 <= j < i ==> !Panics(fields[j], slots[j])
  {
    if |fields| > 0 {
      var n := |fields| - 1;
      var fs, ss := fields[..n], slots[..n];
      AssembleCases(fs, ss);
      assert forall i :: 0 <= i < n ==> fs[i] == fields[i] && ss[i] == slots[i];
      var r := Assemble(fields, slots);
      match Assemble(fs, ss)
      case Built(values) =>
        if r.Panicked? {
          assert Panics(fields[n], slots[n]);
        }
      case Panicked(name) =>
        var i :| 0 <= i < n && Panics(fs[i], ss[i]) && name == fs[i].ident
                 && forall j :: 0 <= j < i ==> !Panics(fs[j], ss[j]);
        assert Panics(fields[i], slots[i]);
      case Failed(_) =>
        assert false;
    }
  }

  /** What the generated `build` returns, for slots that agree with the classification: it fails
      exactly when some Option-classified field is unset, with "Missing fields: " followed by the
      missing names joined by commas; it succeeds exactly when, in addition, no other
      non-Vec field is unset, copying Option fields as stored, Vec fields' elements and the
      unwrapped value of every other field. */
  lemma BuildOutcomeCases<V>(fields: seq<FieldInfo>, slots: seq<Slot<V>>)
    requires SlotsFit(fields, slots)
    ensures var r := BuildOutcome(fields, slots);
            var missing := MissingFields(fields, slots);
      && (r.Failed? <==> missing != [])
      && (r.Failed? ==> r.message == "Missing fields: " + Join(missing, ','))
      && (r.Built? <==> missing == [] && forall i :: 0 <= i < |fields| ==> !Panics(fields[i], slots[i]))
      && (r.Built? ==> |r.values| == |fields|)
      && (r.Built? ==> forall i :: 0 <= i < |fields| ==>
            r.values[i] == if IsOptionField(fields[i]) then Stored(slots[i].opt)
                           else if IsVecField(fields[i]) then Items(slots[i].items)
                           else Unwrapped(slots[i].opt.value))
  {
    AssembleCases(fields, slots);
  }

  /** The names after the message's prefix can be recovered by splitting at the commas. */
  lemma MissingMessageNames(missing: seq<string>)
    requires |missing| > 0
    requires forall i :: 0 <= i < |missing| ==> ',' !in missing[i]
    ensures |MissingMessage(missing)| >= 16
    ensures MissingMessage(missing)[..16] == "Missing fields: "
    ensures Split(MissingMessage(missing)[16..], ',') == missing
  {
    SplitJoin(missing, ',');
    assert MissingMessage(missing)[16..] == Join(missing, ',');
  }

  /** The generated builder: one slot per field of the struct. */
  class Builder<V> {
    const fields: seq<FieldInfo>
    var slots: seq<Slot<V>>

    ghost predicate Valid()
      reads this
    {
      SlotsFit(fields, slots)
    }

    /** `Struct::builder()`: each slot holds what its emitted default evaluates to. */
    constructor (fields: seq<FieldInfo>)
      ensures Valid() && this.fields == fields
      ensures |slots| == |fields|
      ensures forall i :: 0 <= i < |fields| ==> slots[i] == InitialSlot(DefaultBuilder(fields[i]).init)
      ensures forall i :: 0 <= i < |fields| ==> slots[i] == if IsVecField(fields[i]) then Many([]) else Single(None)
    {
      this.fields := fields;
      slots := seq(|fields|, i requires 0 <= i < |fields| => InitialSlot(DefaultBuilder(fields[i]).init));
    }

    /** The emitted setter of field `i`: `self.f = Some(value); self`. */
    method Set(i: nat, value: V) returns (self: Builder<V>)
      requires Valid() && i < |fields| && Setter(fields[i]).SetterFn?
      modifies this
      ensures Valid() && self == this
      ensures slots == old(slots)[i := Single(Some(value))]
    {
      slots := slots[i := Single(Some(value))];
      self := this;
    }

    /** The emitted `each` appender of field `i`: `self.f.push(value); self`. */
    method Append(i: nat, value: V) returns (self: Builder<V>)
      requires Valid() && i < |fields| && Each(fields[i]).AppenderFn?
      modifies this
      ensures Valid() && self == this
      ensures slots == old(slots)[i := Many(old(slots)[i].items + [value])]
    {
      slots := slots[i := Many(slots[i].items + [value])];
      self := this;
    }

    /** The generated `build`: only reads the slots, so calling it again gives the same result. */
    method Build() returns (r: BuildResult<V>)
      requires Valid()
      ensures r == BuildOutcome(fields, slots)
    {
      var missing := CollectMissing();
      if missing != [] {
        return Failed("Missing fields: " + Join(missing, ','));
      }
      r := AssembleSlots();
    }

    /** The emitted absence checks, run in field order, pushing onto `missing_fields`. */
    method CollectMissing() returns (missing: seq<string>)
      requires Valid()
      ensures missing == MissingFields(fields, slots)
    {
      missing := [];
      var i := 0;
      while i < |fields|
        invariant 0 <= i <= |fields|
        invariant missing == MissingFields(fields[..i], slots[..i])
      {
        var check := Emit.Validation(fields[i]);
        if check.MissingCheck? && slots[i] == Single(None) {
          missing := missing + [check.name];
        }
        assert fields[..i + 1][..i] == fields[..i] && slots[..i + 1][..i] == slots[..i];
        i := i + 1;
      }
      assert fields[..i] == fields && slots[..i] == slots;
    }

    /** The emitted field assignments, evaluated in field order into the struct literal. */
    method AssembleSlots() returns (r: BuildResult<V>)
      requires Valid()
      ensures r == Assemble(fields, slots)
    {
      var values: seq<FieldValue<V>> := [];
      var i := 0;
      while i < |fields|
        invariant 0 <= i <= |fields|
        invariant Assemble(fields[..i], slots[..i]) == Built(values)
      {
        var assign := Emit.Build(fields[i]);
        assert fields[..i + 1][..i] == fields[..i] && slots[..i + 1][..i] == slots[..i];
        match Extract(assign.extraction, slots[i]) {
          case Some(v) =>
            values := values + [v];
          case None =>
            AssemblePanicStays(fields, slots, i + 1);
            return Panicked(assign.name);
        }
        i := i + 1;
      }
      assert fields[..i] == fields && slots[..i] == slots;
      r := Built(values);
    }
  }
}
