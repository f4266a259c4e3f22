/** Saving the values of a product block in the rows it already has, and loading them again. */
module DomainValues {
  import opened Wrappers
  import opened DomainTypes
  import opened Sequences

  /** The rows of a field, in order. */
  function Of(rows: seq<ValueRow>, field: Name): (r: seq<ValueRow>)
    ensures forall x | x in r :: x in rows && x.field == field
  {
    if rows == [] then []
    else if rows[0].field == field then [rows[0]] + Of(rows[1..], field)
    else Of(rows[1..], field)
  }

  function Strings(rows: seq<ValueRow>): (r: seq<string>)
    ensures |r| == |rows|
  {
    seq(|rows|, i requires 0 <= i < |rows| => rows[i].value)
  }

  /** What has to be stored for a slot. */
  function Wanted(s: Slot): seq<string> {
    match s
    case Nothing => []
    case Scalar(v) => [v]
    case Items(vs) => vs
  }

  /** The row for the k-th value: the k-th row there was, with that value, or else a new row. */
  function RowFor(field: Name, value: string, olds: seq<ValueRow>, k: nat): ValueRow {
    if k < |olds| then olds[k].(value := value) else ValueRow(None, field, value)
  }

  function Reused(field: Name, wanted: seq<string>, olds: seq<ValueRow>): (r: seq<ValueRow>)
    ensures |r| == |wanted|
  {
    seq(|wanted|, k requires 0 <= k < |wanted| => RowFor(field, wanted[k], olds, k))
  }

  function SavedValues(fs: seq<ValueField>, ss: seq<Slot>, olds: seq<ValueRow>): seq<ValueRow>
    requires |fs| == |ss|
  {
    if fs == [] then []
    else Reused(fs[0].name, Wanted(ss[0]), Of(olds, fs[0].name)) + SavedValues(fs[1..], ss[1..], olds)
  }

  /** What a field is loaded with. There is no object without a required value. */
  function LoadSlot(f: ValueField, rows: seq<ValueRow>): Option<Slot> {
    var mine := Of(rows, f.name);
    if f.kind == Listed then Some(Items(Strings(mine)))
    else if mine != [] then Some(Scalar(mine[|mine| - 1].value))
    else if f.kind == Optional then Some(Nothing)
    else None
  }

  function LoadSlots(fs: seq<ValueField>, rows: seq<ValueRow>): (r: Option<seq<Slot>>)
    ensures r.Some? <==> forall i | 0 <= i < |fs| :: LoadSlot(fs[i], rows).Some?
    ensures r.Some? ==> |r.value| == |fs| && forall i | 0 <= i < |fs| :: Some(r.value[i]) == LoadSlot(fs[i], rows)
  {
    if fs == [] then Some([])
    else
      var rest := LoadSlots(fs[1..], rows);
      var s := LoadSlot(fs[0], rows);
      assert forall i | 1 <= i < |fs| :: fs[i] == fs[1..][i - 1];
      if s.Some? && rest.Some? then Some([s.value] + rest.value) else None
  }

  // ---- the loops ----------------------------------------------------------------------------------

  /** The rows by field name. */
  ghost predicate Groups(current: map<Name, seq<ValueRow>>, rows: seq<ValueRow>) {
    forall n :: if n in current then current[n] == Of(rows, n) && Of(rows, n) != [] else Of(rows, n) == []
  }

  lemma {:induction false} OfConcat(a: seq<ValueRow>, b: seq<ValueRow>, n: Name)
    ensures Of(a + b, n) == Of(a, n) + Of(b, n)
    decreases |a|
  {
    if a == [] {
      assert a + b == b;
    } else {
      assert (a + b)[1..] == a[1..] + b;
      OfConcat(a[1..], b, n);
    }
  }

  lemma OfOneMore(rows: seq<ValueRow>, i: nat, n: Name)
    requires i < |rows|
    ensures Of(rows[..i + 1], n) == Of(rows[..i], n) + if rows[i].field == n then [rows[i]] else []
  {
    assert rows[..i + 1] == rows[..i] + [rows[i]];
    OfConcat(rows[..i], [rows[i]], n);
    assert [rows[i]][1..] == [];
  }

  method GroupRows(rows: seq<ValueRow>) returns (current: map<Name, seq<ValueRow>>)
    ensures Groups(current, rows)
  {
    current := map[];
    for i := 0 to |rows|
      invariant Groups(current, rows[..i])
    {
      var row := rows[i];
      var before := if row.field in current then current[row.field] else [];
      current := current[row.field := before + [row]];
      forall n {
        OfOneMore(rows, i, n);
      }
    }
    assert rows[..|rows|] == rows;
  }

  /** The list of values next to the list of rows, as long as either lasts. */
  method SaveList(field: Name, wanted: seq<string>, olds: seq<ValueRow>) returns (r: seq<ValueRow>)
    ensures r == Reused(field, wanted, olds)
  {
    r := [];
    var k := 0;
    while k < |wanted| || k < |olds|
      invariant k <= |wanted| ==> r == Reused(field, wanted, olds)[..k]
      invariant k > |wanted| ==> r == Reused(field, wanted, olds)
      decreases |wanted| + |olds| - k
    {
      if k < |wanted| {
        if k < |olds| {
          r := r + [olds[k].(value := wanted[k])];
        } else {
          r := r + [ValueRow(None, field, wanted[k])];
        }
      }
      k := k + 1;
    }
  }

  lemma {:induction false} SavedConcat(
    fs: seq<ValueField>, ss: seq<Slot>, olds: seq<ValueRow>, i: nat)
    requires |fs| == |ss| && i < |fs|
    ensures SavedValues(fs[..i + 1], ss[..i + 1], olds)
         == SavedValues(fs[..i], ss[..i], olds) + Reused(fs[i].name, Wanted(ss[i]), Of(olds, fs[i].name))
  {
    hide Reused, Of, Wanted;
    var fs', ss' := fs[..i + 1], ss[..i + 1];
    if i == 0 {
      assert fs'[1..] == [] && ss'[1..] == [];
    } else {
      assert fs'[1..] == fs[1..][..i] && ss'[1..] == ss[1..][..i];
      assert fs[..i][1..] == fs[1..][..i - 1] && ss[..i][1..] == ss[1..][..i - 1];
      SavedConcat(fs[1..], ss[1..], olds, i - 1);
    }
  }

  method SaveInstanceValues(fs: seq<ValueField>, ss: seq<Slot>, olds: seq<ValueRow>) returns (r: seq<ValueRow>)
    requires SlotsFit(fs, ss)
    ensures r == SavedValues(fs, ss, olds)
  {
    var current := GroupRows(olds);
    r := [];
    for i := 0 to |fs|
      invariant r == SavedValues(fs[..i], ss[..i], olds)
    {
      var name := fs[i].name;
      SavedConcat(fs, ss, olds, i);
      if !ss[i].Nothing? {
        if fs[i].kind == Listed {
          var more := SaveList(name, ss[i].items, if name in current then current[name] else []);
          r := r + more;
        } else if name in current {
          r := r + [current[name][0].(value := ss[i].value)];
        } else {
          r := r + [ValueRow(None, name, ss[i].value)];
        }
      }
    }
    assert fs[..|fs|] == fs && ss[..|ss|] == ss;
  }

  /** `dict` holds what the fields get from the rows. */
  ghost predicate Loads(dict: map<Name, Slot>, fs: seq<ValueField>, rows: seq<ValueRow>) {
    forall i | 0 <= i < |fs| ::
      LoadSlot(fs[i], rows) == if fs[i].name in dict then Some(dict[fs[i].name]) else None
  }

  lemma LoadsOneMore(dict: map<Name, Slot>, more: map<Name, Slot>, fs: seq<ValueField>,
      rows: seq<ValueRow>, k: nat)
    requires k < |rows| && Loads(dict, fs, rows[..k])
    requires var row := rows[k];
      && (forall n | n != row.field :: n in dict <==> n in more)
      && (forall n | n != row.field && n in dict :: dict[n] == more[n])
      && row.field in more
      && forall i | 0 <= i < |fs| && fs[i].name == row.field ::
           more[row.field] == if fs[i].kind == Listed && row.field in dict && dict[row.field].Items?
                              then Items(dict[row.field].items + [row.value]) else Scalar(row.value)
    ensures Loads(more, fs, rows[..k + 1])
  {
    hide Of;
    forall i | 0 <= i < |fs|
      ensures LoadSlot(fs[i], rows[..k + 1]) == if fs[i].name in more then Some(more[fs[i].name]) else None
    {
      OfOneMore(rows, k, fs[i].name);
      var n := fs[i].name;
      var mine, row := Of(rows[..k], n), rows[k];
      assert LoadSlot(fs[i], rows[..k]) == if n in dict then Some(dict[n]) else None;
      if row.field == n {
        assert Of(rows[..k + 1], n) == mine + [row];
        if fs[i].kind == Listed {
          assert Strings(mine + [row]) == Strings(mine) + [row.value];
        }
      } else {
        assert Of(rows[..k + 1], n) == mine;
      }
    }
  }

  /** Lists start empty, and optional values are there as `None`. */
  method DefaultSlots(fs: seq<ValueField>) returns (dict: map<Name, Slot>, listNames: set<Name>)
    requires forall i, j | 0 <= i < j < |fs| :: fs[i].name != fs[j].name
    ensures Loads(dict, fs, []) && ListsThere(dict, fs, listNames)
  {
    dict, listNames := map[], {};
    for i := 0 to |fs|
      invariant forall n | n in dict :: exists j :: 0 <= j < i && fs[j].name == n
      invariant forall j | 0 <= j < i ::
        LoadSlot(fs[j], []) == if fs[j].name in dict then Some(dict[fs[j].name]) else None
      invariant listNames == set j | 0 <= j < i && fs[j].kind == Listed :: fs[j].name
      invariant forall n | n in listNames :: n in dict && dict[n].Items?
    {
      assert fs[i].name !in dict;
      if fs[i].kind == Listed {
        dict := dict[fs[i].name := Items([])];
        listNames := listNames + {fs[i].name};
      } else if fs[i].kind == Optional {
        dict := dict[fs[i].name := Nothing];
      }
    }
  }

  /** The names of the list fields, which hold lists. */
  ghost predicate ListsThere(dict: map<Name, Slot>, fs: seq<ValueField>, listNames: set<Name>) {
    && listNames == (set j | 0 <= j < |fs| && fs[j].kind == Listed :: fs[j].name)
    && forall n | n in listNames :: n in dict && dict[n].Items?
  }

  method LoadInstanceValues(fs: seq<ValueField>, rows: seq<ValueRow>) returns (dict: map<Name, Slot>)
    requires forall i, j | 0 <= i < j < |fs| :: fs[i].name != fs[j].name
    ensures Loads(dict, fs, rows)
  {
    var listNames;
    dict, listNames := DefaultSlots(fs);
    assert rows[..0] == [];
    for k := 0 to |rows|
      invariant Loads(dict, fs, rows[..k]) && ListsThere(dict, fs, listNames)
    {
      var row, before := rows[k], dict;
      if row.field in listNames {
        dict := dict[row.field := Items(dict[row.field].items + [row.value])];
      } else {
        dict := dict[row.field := Scalar(row.value)];
      }
      LoadsOneMore(before, dict, fs, rows, k);
    }
    assert rows[..|rows|] == rows;
  }

  // ---- what is saved is what is loaded ------------------------------------------------------------

  lemma OfReused(field: Name, wanted: seq<string>, olds: seq<ValueRow>, n: Name, rows: seq<ValueRow>)
    requires rows == Reused(field, wanted, olds) || (wanted != [] && rows == Reused(field, wanted, olds)[1..])
    requires forall x | x in olds :: x.field == field
    ensures Of(rows, n) == if n == field then rows else []
  {
    forall x | x in rows
      ensures x.field == field
    {
    }
    OfAll(rows, field, n);
  }

  lemma {:induction false} OfAll(rows: seq<ValueRow>, field: Name, n: Name)
    requires forall x | x in rows :: x.field == field
    ensures Of(rows, n) == if n == field then rows else []
    decreases |rows|
  {
    if rows != [] {
      assert rows[0] in rows;
      OfAll(rows[1..], field, n);
    }
  }

  /** Every field is saved in its own rows: as many as it has values, in order, the first of them the rows
      that the field had already. */
  lemma {:induction false} SavedRows(fs: seq<ValueField>, ss: seq<Slot>, olds: seq<ValueRow>, i: nat)
    requires |fs| == |ss| && i < |fs|
    requires forall i, j | 0 <= i < j < |fs| :: fs[i].name != fs[j].name
    ensures Of(SavedValues(fs, ss, olds), fs[i].name) == Reused(fs[i].name, Wanted(ss[i]), Of(olds, fs[i].name))
    decreases |fs|
  {
    hide Reused;
    var first := Reused(fs[0].name, Wanted(ss[0]), Of(olds, fs[0].name));
    var n := fs[i].name;
    OfConcat(first, SavedValues(fs[1..], ss[1..], olds), n);
    OfReused(fs[0].name, Wanted(ss[0]), Of(olds, fs[0].name), n, first);
    if i == 0 {
      NoOther(fs[1..], ss[1..], olds, n);
    } else {
      SavedRows(fs[1..], ss[1..], olds, i - 1);
    }
  }

  lemma {:induction false} NoOther(fs: seq<ValueField>, ss: seq<Slot>, olds: seq<ValueRow>, n: Name)
    requires |fs| == |ss| && forall i | 0 <= i < |fs| :: fs[i].name != n
    ensures Of(SavedValues(fs, ss, olds), n) == []
    decreases |fs|
  {
    hide Reused;
    if fs != [] {
      var first := Reused(fs[0].name, Wanted(ss[0]), Of(olds, fs[0].name));
      OfConcat(first, SavedValues(fs[1..], ss[1..], olds), n);
      OfReused(fs[0].name, Wanted(ss[0]), Of(olds, fs[0].name), n, first);
      NoOther(fs[1..], ss[1..], olds, n);
    }
  }

  lemma OfWithout(b: seq<ValueRow>, k: nat, n: Name)
    requires k < |b|
    ensures multiset(Of(b, n)) == multiset(Of(b[..k] + b[k + 1..], n)) + multiset(Of([b[k]], n))
  {
    assert b == b[..k] + ([b[k]] + b[k + 1..]);
    OfConcat(b[..k], [b[k]] + b[k + 1..], n);
    OfConcat([b[k]], b[k + 1..], n);
    OfConcat(b[..k], b[k + 1..], n);
  }

  /** Rows that the database returns in another order hold the same values for each field. */
  lemma {:induction false} OfPermuted(a: seq<ValueRow>, b: seq<ValueRow>, n: Name)
    requires multiset(a) == multiset(b)
    ensures multiset(Of(a, n)) == multiset(Of(b, n))
    decreases |a|
  {
    hide Of;
    if a == [] {
      EmptyPermutation(b);
    } else {
      var k := TakeFirst(a, b);
      OfWithout(b, k, n);
      OfWithout(a, 0, n);
      assert a[..0] + a[1..] == a[1..];
      OfPermuted(a[1..], b[..k] + b[k + 1..], n);
    }
  }

  lemma {:induction false} StringsPermuted(a: seq<ValueRow>, b: seq<ValueRow>)
    requires multiset(a) == multiset(b)
    ensures multiset(Strings(a)) == multiset(Strings(b))
    decreases |a|
  {
    if a == [] {
      EmptyPermutation(b);
    } else {
      var k := TakeFirst(a, b);
      var rest := b[..k] + b[k + 1..];
      StringsPermuted(a[1..], rest);
      RemoveAt(Strings(a), 0);
      assert Strings(a)[..0] + Strings(a)[1..] == Strings(a[1..]);
      RemoveAt(Strings(b), k);
      assert Strings(b)[..k] + Strings(b)[k + 1..] == Strings(rest);
    }
  }

  /** The rows hold what the slots hold. */
  predicate Holds(fs: seq<ValueField>, ss: seq<Slot>, rows: seq<ValueRow>) {
    |fs| == |ss| && forall i | 0 <= i < |fs| :: multiset(Strings(Of(rows, fs[i].name))) == multiset(Wanted(ss[i]))
  }

  lemma SavedHolds(fs: seq<ValueField>, ss: seq<Slot>, olds: seq<ValueRow>)
    requires |fs| == |ss|
    requires forall i, j | 0 <= i < j < |fs| :: fs[i].name != fs[j].name
    ensures Holds(fs, ss, SavedValues(fs, ss, olds))
  {
    forall i | 0 <= i < |fs|
      ensures Strings(Of(SavedValues(fs, ss, olds), fs[i].name)) == Wanted(ss[i])
    {
      SavedRows(fs, ss, olds, i);
    }
  }

  lemma HoldsPermuted(fs: seq<ValueField>, ss: seq<Slot>, a: seq<ValueRow>, b: seq<ValueRow>)
    requires Holds(fs, ss, a) && multiset(a) == multiset(b)
    ensures Holds(fs, ss, b)
  {
    forall i | 0 <= i < |fs|
      ensures multiset(Strings(Of(b, fs[i].name))) == multiset(Wanted(ss[i]))
    {
      OfPermuted(a, b, fs[i].name);
      StringsPermuted(Of(a, fs[i].name), Of(b, fs[i].name));
    }
  }

  /** The same slot, but for the order of a list of values. */
  predicate SameSlot(a: Slot, b: Slot) {
    a == b || (a.Items? && b.Items? && multiset(a.items) == multiset(b.items))
  }

  predicate SameSlots(a: seq<Slot>, b: seq<Slot>) {
    |a| == |b| && forall i | 0 <= i < |a| :: SameSlot(a[i], b[i])
  }

  lemma HeldSlot(f: ValueField, s: Slot, rows: seq<ValueRow>)
    requires SlotFits(f, s) && multiset(Strings(Of(rows, f.name))) == multiset(Wanted(s))
    ensures LoadSlot(f, rows).Some? && SameSlot(s, LoadSlot(f, rows).value)
  {
    hide Of;
    var strings := Strings(Of(rows, f.name));
    match s
    case Nothing => EmptyPermutation(strings);
    case Scalar(v) => SingletonPermutation(v, strings);
    case Items(vs) =>
  }

  /** Rows that hold what the slots hold are loaded as those slots. */
  lemma HeldIsLoaded(fs: seq<ValueField>, ss: seq<Slot>, rows: seq<ValueRow>)
    requires SlotsFit(fs, ss) && Holds(fs, ss, rows)
    ensures LoadSlots(fs, rows).Some? && SameSlots(ss, LoadSlots(fs, rows).value)
  {
    hide LoadSlot, SlotFits, SameSlot, Of, Wanted;
    forall i | 0 <= i < |fs|
      ensures LoadSlot(fs[i], rows).Some? && SameSlot(ss[i], LoadSlot(fs[i], rows).value)
    {
      HeldSlot(fs[i], ss[i], rows);
    }
  }
}
