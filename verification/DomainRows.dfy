/** Which row of a product block holds which value of a field, and which value is loaded from them. */
module DomainRows {
  import opened Wrappers
  import opened DomainTypes
  import opened DomainValues

  /** The values of a slot, in order. */
  function Values(s: Slot): seq<string> {
    if s.Scalar? then [s.value] else if s.Items? then s.items else []
  }

  /** After saving a field has as many rows as values, in order. The first of them are the rows that it had, with
      their keys; the others are new. So rows that a shorter list leaves over are gone. */
  lemma RowOfEachValue(fs: seq<ValueField>, ss: seq<Slot>, olds: seq<ValueRow>, i: nat, k: nat)
    requires |fs| == |ss| && i < |fs|
    requires forall i, j | 0 <= i < j < |fs| :: fs[i].name != fs[j].name
    ensures |Of(SavedValues(fs, ss, olds), fs[i].name)| == |Values(ss[i])|
    ensures
      var rows, mine := Of(SavedValues(fs, ss, olds), fs[i].name), Of(olds, fs[i].name);
      k < |rows| ==>
        && rows[k].value == Values(ss[i])[k] && rows[k].field == fs[i].name
        && rows[k].key == if k < |mine| then mine[k].key else None
  {
    SavedRows(fs, ss, olds, i);
    var rows, mine := Of(SavedValues(fs, ss, olds), fs[i].name), Of(olds, fs[i].name);
    assert Wanted(ss[i]) == Values(ss[i]);
    if k < |mine| {
      assert mine[k] in mine;
    }
  }

  /** A value is missing only when its field must have one and no row is for that field. */
  lemma SlotIsLoaded(f: ValueField, rows: seq<ValueRow>)
    ensures LoadSlot(f, rows).None? <==> f.kind == Required && forall i | 0 <= i < |rows| :: rows[i].field != f.name
  {
    OfNone(rows, f.name);
  }

  lemma {:induction false} OfNone(rows: seq<ValueRow>, field: Name)
    ensures Of(rows, field) == [] <==> forall i | 0 <= i < |rows| :: rows[i].field != field
    decreases |rows|
  {
    if rows != [] {
      OfNone(rows[1..], field);
      assert forall i | 0 <= i < |rows| :: rows[i] == if i == 0 then rows[0] else rows[1..][i - 1];
    }
  }

  /** A field that is no list is loaded with the last of its rows. */
  lemma LastRowIsLoaded(f: ValueField, before: seq<ValueRow>, row: ValueRow, after: seq<ValueRow>)
    requires f.kind != Listed && row.field == f.name && forall r | r in after :: r.field != f.name
    ensures LoadSlot(f, before + [row] + after) == Some(Scalar(row.value))
  {
    OfConcat(before + [row], after, f.name);
    OfConcat(before, [row], f.name);
    assert [row][1..] == [] && Of([], f.name) == [];
    OfNone(after, f.name);
  }

  /** A list is loaded with all of its rows, in their order. */
  lemma RowsAreLoaded(f: ValueField, before: seq<ValueRow>, row: ValueRow)
    requires f.kind == Listed
    ensures LoadSlot(f, []) == Some(Items([]))
    ensures
      var was, now := LoadSlot(f, before), LoadSlot(f, before + [row]);
      && was.Some? && was.value.Items? && now.Some? && now.value.Items?
      && now.value.items == was.value.items + if row.field == f.name then [row.value] else []
  {
    OfConcat(before, [row], f.name);
    assert [row][1..] == [] && Of([], f.name) == [];
    assert Strings([]) == [];
  }
}
