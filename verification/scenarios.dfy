/**
 * Client code driving generated builders, as a user of the derive macro would: each method
 * derives the builder of a small struct and states what its calls return.
 */
module Scenarios {

  import opened Wrappers
  import opened Syntax
  import opened Classify
  import opened Attributes
  import opened Fields
  import opened Emit
  import opened Runtime

  /** `struct Command { a: String, b: Option<String> }` */
  function RequiredAndOptional(): DeriveInput
  {
    DeriveInput("Command", StructData([
      Field([], Some("a"), Named("String")),
      Field([], Some("b"), Generic("Option", Named("String")))]))
  }

  /** `struct Command { #[builder(each = "item")] items: Vec<String> }` */
  function RepeatedWithEach(): DeriveInput
  {
    DeriveInput("Command", StructData([
      Field([TagValueAttribute("builder", "each", "item")], Some("items"), Generic("Vec", Named("String")))]))
  }

  /** The collected fields of `RequiredAndOptional()`. */
  function CommandFields(): seq<FieldInfo>
  {
    [FieldInfo("a", Named("String"), None, []),
     FieldInfo("b", Generic("Option", Named("String")), Some(OptionOf(Named("String"))), [])]
  }

  /** The collected fields of `RepeatedWithEach()`. */
  function ItemsFields(): seq<FieldInfo>
  {
    [FieldInfo("items", Generic("Vec", Named("String")), Some(VecOf(Named("String"))),
               [AttributeInfo("builder", "each", "item")])]
  }

  lemma RequiredAndOptionalFields()
    ensures StructInfoFrom(RequiredAndOptional()).fields == CommandFields()
  {
    var fields := RequiredAndOptional().data.fields;
    NamedFieldsCollectedInOrder("Command", fields);
    assert FilterMap(fields[0].attrs, ParseAttribute) == [];
    assert FilterMap(fields[1].attrs, ParseAttribute) == [];
  }

  lemma RepeatedWithEachFields()
    ensures StructInfoFrom(RepeatedWithEach()).fields == ItemsFields()
  {
    var fields := RepeatedWithEach().data.fields;
    NamedFieldsCollectedInOrder("Command", fields);
    ParseTagValue("builder", "each", "item");
    assert FilterMap(fields[0].attrs, ParseAttribute) == [AttributeInfo("builder", "each", "item")] by {
      assert fields[0].attrs[1..] == [];
    }
  }

  /** The emitted checks of a single field. */
  lemma MissingOfOne<V>(f: FieldInfo, s: Slot<V>)
    ensures MissingFields([f], [s]) == if Reports(f, s) then [f.ident] else []
  {
    assert [f][..0] == [] && [s][..0] == [];
  }

  /** The emitted assignments of a single field. */
  lemma AssembleOne<V>(f: FieldInfo, s: Slot<V>)
    ensures Assemble([f], [s]) == match Extract(Build(f).extraction, s)
                                  case Some(v) => Built([v])
                                  case None => Panicked(f.ident)
  {
    assert [f][..0] == [] && [s][..0] == [];
  }

  lemma TwoFields<V>(fields: seq<FieldInfo>, slots: seq<Slot<V>>)
    requires |fields| == 2 && |slots| == 2
    ensures MissingFields(fields, slots) == MissingFields([fields[0]], [slots[0]]) + MissingFields([fields[1]], [slots[1]])
    ensures Assemble(fields, slots) == var first := Assemble([fields[0]], [slots[0]]);
      if !first.Built? then first
      else match Extract(Build(fields[1]).extraction, slots[1])
           case Some(v) => Built(first.values + [v])
           case None => Panicked(fields[1].ident)
  {
    assert fields == [fields[0]] + [fields[1]] && slots == [slots[0]] + [slots[1]];
    MissingFieldsAppend([fields[0]], [slots[0]], [fields[1]], [slots[1]]);
    assert fields[..1] == [fields[0]] && slots[..1] == [slots[0]];
  }

  /** Only `a` set: as written, the unset optional `b` is reported and the build fails. */
  lemma OnlyRequiredSet(x: string)
    ensures BuildOutcome(CommandFields(), [Single(Some(x)), Single(None)])
         == Failed("Missing fields: b")
  {
    var fields := CommandFields();
    var slots: seq<Slot<string>> := [Single(Some(x)), Single(None)];
    TwoFields(fields, slots);
    MissingOfOne(fields[0], slots[0]);
    MissingOfOne(fields[1], slots[1]);
    assert MissingFields(fields, slots) == ["b"];
  }

  /** Only `b` set: no name is reported, and `unwrap()` of the unset required `a` panics. */
  lemma OnlyOptionalSet(y: string)
    ensures BuildOutcome(CommandFields(), [Single(None), Single(Some(y))])
         == Panicked("a")
  {
    var fields := CommandFields();
    var slots: seq<Slot<string>> := [Single(None), Single(Some(y))];
    TwoFields(fields, slots);
    MissingOfOne(fields[0], slots[0]);
    MissingOfOne(fields[1], slots[1]);
    AssembleOne(fields[0], slots[0]);
  }

  /** Both set: the struct is built from the unwrapped `a` and the stored `b`. */
  lemma BothSet(x: string, y: string)
    ensures BuildOutcome(CommandFields(), [Single(Some(x)), Single(Some(y))])
         == Built([Unwrapped(x), Stored(Some(y))])
  {
    var fields := CommandFields();
    var slots: seq<Slot<string>> := [Single(Some(x)), Single(Some(y))];
    TwoFields(fields, slots);
    MissingOfOne(fields[0], slots[0]);
    MissingOfOne(fields[1], slots[1]);
    AssembleOne(fields[0], slots[0]);
  }

  /** Setting the required `a` and leaving the optional `b` unset. */
  method SetRequiredOnly(x: string)
  {
    RequiredAndOptionalFields();
    var builder := new Builder<string>(StructInfoFrom(RequiredAndOptional()).fields);
    assert builder.slots == [Single(None), Single(None)];
    var _ := builder.Set(0, x);
    assert builder.slots == [Single(Some(x)), Single(None)];
    var r := builder.Build();
    OnlyRequiredSet(x);
    assert r == Failed("Missing fields: b");
  }

  /** Setting both fields and building twice gives the same struct. */
  method SetBothBuildTwice(x: string, y: string)
  {
    RequiredAndOptionalFields();
    var builder := new Builder<string>(StructInfoFrom(RequiredAndOptional()).fields);
    assert builder.slots == [Single(None), Single(None)];
    var _ := builder.Set(0, x);
    var _ := builder.Set(1, y);
    assert builder.slots == [Single(Some(x)), Single(Some(y))];
    var r1 := builder.Build();
    var r2 := builder.Build();
    BothSet(x, y);
    assert r1 == r2 == Built([Unwrapped(x), Stored(Some(y))]);
  }

  /** Setting only the optional `b`. */
  method SetOptionalOnly(y: string)
  {
    RequiredAndOptionalFields();
    var builder := new Builder<string>(StructInfoFrom(RequiredAndOptional()).fields);
    assert builder.slots == [Single(None), Single(None)];
    var _ := builder.Set(1, y);
    assert builder.slots == [Single(None), Single(Some(y))];
    var r := builder.Build();
    OnlyOptionalSet(y);
    assert r == Panicked("a");
  }

  /** The `items` field gets the appender `item(String)`. */
  lemma ItemsAppender()
    ensures Each(ItemsFields()[0]) == AppenderFn("item", "items", Named("String"))
  {
    var attrs := ItemsFields()[0].attributes;
    assert FindEach(attrs) == Some(attrs[0]);
  }

  /** Building over a Vec slot copies its elements. */
  lemma BuildItems(items: seq<string>)
    ensures BuildOutcome(ItemsFields(), [Many(items)]) == Built([Items(items)])
  {
    MissingOfOne(ItemsFields()[0], Many(items));
    AssembleOne(ItemsFields()[0], Many(items));
  }

  /** A Vec field with `each = "item"` starts empty and builds to an empty vector. */
  method BuildWithoutItems()
  {
    RepeatedWithEachFields();
    var builder := new Builder<string>(StructInfoFrom(RepeatedWithEach()).fields);
    assert builder.slots == [Many([])];
    var r := builder.Build();
    BuildItems([]);
    assert r == Built([Items([])]);
  }

  /** Appending "x" then "y" builds `["x", "y"]`. */
  method AppendItems()
  {
    RepeatedWithEachFields();
    ItemsAppender();
    var builder := new Builder<string>(StructInfoFrom(RepeatedWithEach()).fields);
    assert builder.slots == [Many([])];
    var _ := builder.Append(0, "x");
    assert [] + ["x"] == ["x"];
    assert builder.slots == [Many(["x"])];
    var _ := builder.Append(0, "y");
    assert ["x"] + ["y"] == ["x", "y"];
    assert builder.slots == [Many(["x", "y"])];
    var r := builder.Build();
    BuildItems(["x", "y"]);
    assert r == Built([Items(["x", "y"])]);
  }
}
