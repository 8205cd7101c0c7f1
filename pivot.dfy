/**
 * `pd.pivot_table(df, index=[...], values=[net, vat], aggfunc="sum")`
 * over rows whose group key is known: rows with a missing key cell are
 * dropped, the others are grouped by key, each group's two values are
 * summed, and the groups come out sorted by key.
 */
module Pivot {
  import opened Wrappers

  // ------------------------------------------------------------- order

  /** Python's `<` on strings: lexicographic by code point. */
  predicate StrLess(a: string, b: string)
    decreases |a|
  {
    if a == [] then b != []
    else if b == [] then false
    else if a[0] != b[0] then a[0] < b[0]
    else StrLess(a[1..], b[1..])
  }

  /** Python's `<` on tuples of strings: lexicographic by element. */
  predicate KeyLess(a: seq<string>, b: seq<string>)
    decreases |a|
  {
    if a == [] then b != []
    else if b == [] then false
    else if a[0] != b[0] then StrLess(a[0], b[0])
    else KeyLess(a[1..], b[1..])
  }

  lemma {:induction false} StrLessIrreflexive(a: string)
    ensures !StrLess(a, a)
    decreases |a|
  {
    if a != [] { StrLessIrreflexive(a[1..]); }
  }

  lemma {:induction false} StrLessTransitive(a: string, b: string, c: string)
    requires StrLess(a, b) && StrLess(b, c)
    ensures StrLess(a, c)
    decreases |a|
  {
    if a != [] && a[0] == b[0] && b[0] == c[0] {
      StrLessTransitive(a[1..], b[1..], c[1..]);
    }
  }

  lemma {:induction false} StrLessTotal(a: string, b: string)
    requires a != b
    ensures StrLess(a, b) || StrLess(b, a)
    decreases |a|
  {
    if a != [] && b != [] && a[0] == b[0] {
      assert a == [a[0]] + a[1..] && b == [b[0]] + b[1..];
      StrLessTotal(a[1..], b[1..]);
    }
  }

  lemma {:induction false} KeyLessIrreflexive(a: seq<string>)
    ensures !KeyLess(a, a)
    decreases |a|
  {
    if a != [] { KeyLessIrreflexive(a[1..]); }
  }

  lemma {:induction false} KeyLessTransitive(a: seq<string>, b: seq<string>, c: seq<string>)
    requires KeyLess(a, b) && KeyLess(b, c)
    ensures KeyLess(a, c)
    decreases |a|
  {
    if a != [] {
      if a[0] != b[0] && b[0] != c[0] {
        StrLessTransitive(a[0], b[0], c[0]);
        if a[0] == c[0] { StrLessIrreflexive(a[0]); }
      } else if a[0] == b[0] && b[0] == c[0] {
        KeyLessTransitive(a[1..], b[1..], c[1..]);
      }
    }
  }

  lemma {:induction false} KeyLessTotal(a: seq<string>, b: seq<string>)
    requires a != b
    ensures KeyLess(a, b) || KeyLess(b, a)
    decreases |a|
  {
    if a != [] && b != [] {
      if a[0] == b[0] {
        assert a == [a[0]] + a[1..] && b == [b[0]] + b[1..];
        KeyLessTotal(a[1..], b[1..]);
      } else {
        StrLessTotal(a[0], b[0]);
      }
    }
  }

  lemma KeyLessAsymmetric(a: seq<string>, b: seq<string>)
    requires KeyLess(a, b)
    ensures !KeyLess(b, a)
  {
    if KeyLess(b, a) {
      KeyLessTransitive(a, b, a);
      KeyLessIrreflexive(a);
    }
  }

  // ---------------------------------------------------------- grouping

  /** What one row brings to the pivot: its group key (`None` when a key cell is missing) and its two values. */
  datatype Contribution = Contribution(key: Option<seq<string>>, net: real, vat: real)

  /** One output row of the pivot: a key and the sums of its rows' values. */
  datatype Group = Group(key: seq<string>, net: real, vat: real)

  predicate Sorted(gs: seq<Group>) {
    forall i, j :: 0 <= i < j < |gs| ==> KeyLess(gs[i].key, gs[j].key)
  }

  /** Every group's key is above `k`. */
  predicate Above(gs: seq<Group>, k: seq<string>) {
    forall i :: 0 <= i < |gs| ==> KeyLess(k, gs[i].key)
  }

  /** The first group with key `k`. */
  function Find(gs: seq<Group>, k: seq<string>): (r: Option<Group>)
    ensures r.Some? ==> r.value.key == k
    ensures r.None? ==> forall i :: 0 <= i < |gs| ==> gs[i].key != k
  {
    if gs == [] then None
    else if gs[0].key == k then Some(gs[0])
    else Find(gs[1..], k)
  }

  /** A group found is one of the groups. */
  lemma {:induction false} FindIn(gs: seq<Group>, k: seq<string>)
    requires Find(gs, k).Some?
    ensures Find(gs, k).value in gs
  {
    if gs[0].key != k {
      FindIn(gs[1..], k);
    }
  }

  /** Adds one keyed row to sorted groups: into its group, or as a new group in key order. */
  function AddTo(gs: seq<Group>, k: seq<string>, net: real, vat: real): seq<Group>
  {
    if gs == [] then [Group(k, net, vat)]
    else if gs[0].key == k then [Group(k, gs[0].net + net, gs[0].vat + vat)] + gs[1..]
    else if KeyLess(k, gs[0].key) then [Group(k, net, vat)] + gs
    else [gs[0]] + AddTo(gs[1..], k, net, vat)
  }

  /** The pivot of the rows, built row by row. */
  function PivotOf(rows: seq<Contribution>): seq<Group> {
    if rows == [] then []
    else
      var front := PivotOf(rows[..|rows| - 1]);
      var last := rows[|rows| - 1];
      match last.key
      case None => front
      case Some(k) => AddTo(front, k, last.net, last.vat)
  }

  lemma SortedTail(gs: seq<Group>)
    requires Sorted(gs) && gs != []
    ensures Sorted(gs[1..]) && Above(gs[1..], gs[0].key)
  {
    assert forall i :: 0 <= i < |gs| - 1 ==> gs[1..][i] == gs[i + 1];
  }

  lemma SortedCons(g: Group, gs: seq<Group>)
    requires Sorted(gs) && Above(gs, g.key)
    ensures Sorted([g] + gs)
  {
    var s := [g] + gs;
    forall i, j | 0 <= i < j < |s| ensures KeyLess(s[i].key, s[j].key) {
      if i == 0 { assert s[j] == gs[j - 1]; } else { assert s[i] == gs[i - 1] && s[j] == gs[j - 1]; }
    }
  }

  /** The keys after adding: the old ones and `k`. */
  lemma {:induction false} AddToKeys(gs: seq<Group>, k: seq<string>, net: real, vat: real, b: seq<string>)
    requires Above(gs, b) && KeyLess(b, k)
    ensures Above(AddTo(gs, k, net, vat), b)
    decreases |gs|
  {
    if gs != [] && gs[0].key != k && !KeyLess(k, gs[0].key) {
      assert Above(gs[1..], b) by {
        assert forall i :: 0 <= i < |gs| - 1 ==> gs[1..][i] == gs[i + 1];
      }
      AddToKeys(gs[1..], k, net, vat, b);
      var r := AddTo(gs[1..], k, net, vat);
      assert forall i :: 1 <= i < |r| + 1 ==> ([gs[0]] + r)[i] == r[i - 1];
    }
  }

  /** Adding keeps the groups sorted by key. */
  lemma {:induction false} AddToSorted(gs: seq<Group>, k: seq<string>, net: real, vat: real)
    requires Sorted(gs)
    ensures Sorted(AddTo(gs, k, net, vat))
    decreases |gs|
  {
    if gs != [] {
      SortedTail(gs);
      if gs[0].key == k {
        SortedCons(Group(k, gs[0].net + net, gs[0].vat + vat), gs[1..]);
      } else if KeyLess(k, gs[0].key) {
        AboveFromHead(gs, k);
        SortedCons(Group(k, net, vat), gs);
      } else {
        KeyLessTotal(k, gs[0].key);
        AddToSorted(gs[1..], k, net, vat);
        AddToKeys(gs[1..], k, net, vat, gs[0].key);
        SortedCons(gs[0], AddTo(gs[1..], k, net, vat));
      }
    }
  }

  /** A key below the first of sorted groups is below all of them. */
  lemma AboveFromHead(gs: seq<Group>, k: seq<string>)
    requires Sorted(gs) && gs != [] && KeyLess(k, gs[0].key)
    ensures Above(gs, k)
  {
    forall i | 0 <= i < |gs| ensures KeyLess(k, gs[i].key) {
      if i > 0 { KeyLessTransitive(k, gs[0].key, gs[i].key); }
    }
  }

  /** When every group's key sorts after `k`, no group has key `k`. */
  lemma AboveHasNo(gs: seq<Group>, k: seq<string>)
    requires Above(gs, k)
    ensures Find(gs, k).None?
  {
    if Find(gs, k).Some? {
      FindIn(gs, k);
      var i :| 0 <= i < |gs| && gs[i] == Find(gs, k).value;
      KeyLessIrreflexive(k);
    }
  }

  /** The values of the group for `k` so far: zero when there is none. */
  function NetSoFar(gs: seq<Group>, k: seq<string>): real {
    if Find(gs, k).Some? then Find(gs, k).value.net else 0.0
  }

  function VatSoFar(gs: seq<Group>, k: seq<string>): real {
    if Find(gs, k).Some? then Find(gs, k).value.vat else 0.0
  }

  /** Adding to key `k` leaves every other group as it was. */
  lemma {:induction false} AddToFindOther(gs: seq<Group>, k: seq<string>, net: real, vat: real, k2: seq<string>)
    requires k2 != k
    ensures Find(AddTo(gs, k, net, vat), k2) == Find(gs, k2)
    decreases |gs|
  {
    if gs != [] && gs[0].key != k && !KeyLess(k, gs[0].key) && gs[0].key != k2 {
      AddToFindOther(gs[1..], k, net, vat, k2);
    }
  }

  /** Adding to key `k` adds the row's values to that group, creating it at zero. */
  lemma {:induction false} AddToFindSame(gs: seq<Group>, k: seq<string>, net: real, vat: real)
    requires Sorted(gs)
    ensures Find(AddTo(gs, k, net, vat), k) == Some(Group(k, NetSoFar(gs, k) + net, VatSoFar(gs, k) + vat))
    decreases |gs|
  {
    if gs == [] {
    } else if gs[0].key == k {
      AddToFindHead(gs, k, net, vat);
    } else if KeyLess(k, gs[0].key) {
      AddToFindBefore(gs, k, net, vat);
    } else {
      SortedTail(gs);
      AddToFindSame(gs[1..], k, net, vat);
      AddToFindAfter(gs, k, net, vat);
    }
  }

  lemma AddToFindHead(gs: seq<Group>, k: seq<string>, net: real, vat: real)
    requires gs != [] && gs[0].key == k
    ensures Find(AddTo(gs, k, net, vat), k) == Some(Group(k, NetSoFar(gs, k) + net, VatSoFar(gs, k) + vat))
  {
    FindCons(Group(k, gs[0].net + net, gs[0].vat + vat), gs[1..], k);
  }

  lemma AddToFindBefore(gs: seq<Group>, k: seq<string>, net: real, vat: real)
    requires Sorted(gs) && gs != [] && gs[0].key != k && KeyLess(k, gs[0].key)
    ensures Find(AddTo(gs, k, net, vat), k) == Some(Group(k, NetSoFar(gs, k) + net, VatSoFar(gs, k) + vat))
  {
    AboveFromHead(gs, k);
    AboveHasNo(gs, k);
    FindCons(Group(k, net, vat), gs, k);
  }

  lemma AddToFindAfter(gs: seq<Group>, k: seq<string>, net: real, vat: real)
    requires gs != [] && gs[0].key != k && !KeyLess(k, gs[0].key)
    requires Find(AddTo(gs[1..], k, net, vat), k) == Some(Group(k, NetSoFar(gs[1..], k) + net, VatSoFar(gs[1..], k) + vat))
    ensures Find(AddTo(gs, k, net, vat), k) == Some(Group(k, NetSoFar(gs, k) + net, VatSoFar(gs, k) + vat))
  {
    AddToCons(gs, k, net, vat);
    FindConsSome(gs[0], AddTo(gs[1..], k, net, vat), k, Group(k, NetSoFar(gs[1..], k) + net, VatSoFar(gs[1..], k) + vat));
    SoFarTail(gs, k);
  }

  lemma FindConsSome(g: Group, gs: seq<Group>, k: seq<string>, v: Group)
    requires g.key != k && Find(gs, k) == Some(v)
    ensures Find([g] + gs, k) == Some(v)
  {
    FindCons(g, gs, k);
  }

  lemma AddToCons(gs: seq<Group>, k: seq<string>, net: real, vat: real)
    requires gs != [] && gs[0].key != k && !KeyLess(k, gs[0].key)
    ensures AddTo(gs, k, net, vat) == [gs[0]] + AddTo(gs[1..], k, net, vat)
  {
  }

  lemma SoFarTail(gs: seq<Group>, k: seq<string>)
    requires gs != [] && gs[0].key != k
    ensures NetSoFar(gs, k) == NetSoFar(gs[1..], k) && VatSoFar(gs, k) == VatSoFar(gs[1..], k)
  {
  }

  lemma FindCons(g: Group, gs: seq<Group>, k: seq<string>)
    ensures Find([g] + gs, k) == if g.key == k then Some(g) else Find(gs, k)
  {
    assert ([g] + gs)[1..] == gs;
  }

  lemma {:induction false} PivotSorted(rows: seq<Contribution>)
    ensures Sorted(PivotOf(rows))
  {
    if rows != [] {
      PivotSorted(rows[..|rows| - 1]);
      var last := rows[|rows| - 1];
      if last.key.Some? {
        AddToSorted(PivotOf(rows[..|rows| - 1]), last.key.value, last.net, last.vat);
      }
    }
  }

  /** Some row has key `k`. */
  predicate HasKey(rows: seq<Contribution>, k: seq<string>) {
    exists i :: 0 <= i < |rows| && rows[i].key == Some(k)
  }

  /** The sum of the first values of the rows with key `k`. */
  function NetTotal(rows: seq<Contribution>, k: seq<string>): real {
    if rows == [] then 0.0
    else NetTotal(rows[..|rows| - 1], k) + (if rows[|rows| - 1].key == Some(k) then rows[|rows| - 1].net else 0.0)
  }

  function VatTotal(rows: seq<Contribution>, k: seq<string>): real {
    if rows == [] then 0.0
    else VatTotal(rows[..|rows| - 1], k) + (if rows[|rows| - 1].key == Some(k) then rows[|rows| - 1].vat else 0.0)
  }

  lemma HasKeySnoc(rows: seq<Contribution>, k: seq<string>)
    requires rows != []
    ensures HasKey(rows, k) <==> HasKey(rows[..|rows| - 1], k) || rows[|rows| - 1].key == Some(k)
  {
    var front := rows[..|rows| - 1];
    if HasKey(rows, k) && rows[|rows| - 1].key != Some(k) {
      var i :| 0 <= i < |rows| && rows[i].key == Some(k);
      assert front[i] == rows[i];
    }
    if HasKey(front, k) {
      var i :| 0 <= i < |front| && front[i].key == Some(k);
      assert rows[i] == front[i];
    }
  }

  /** Rows without key `k` sum to zero. */
  lemma {:induction false} TotalsWithoutKey(rows: seq<Contribution>, k: seq<string>)
    requires !HasKey(rows, k)
    ensures NetTotal(rows, k) == 0.0 && VatTotal(rows, k) == 0.0
  {
    if rows != [] {
      HasKeySnoc(rows, k);
      TotalsWithoutKey(rows[..|rows| - 1], k);
    }
  }

  /**
   * The pivot has a group for `k` exactly when some row has key `k`,
   * and that group holds the sums of the values of those rows.
   */
  lemma {:induction false} PivotGroups(rows: seq<Contribution>, k: seq<string>)
    ensures Find(PivotOf(rows), k) == if HasKey(rows, k) then Some(Group(k, NetTotal(rows, k), VatTotal(rows, k))) else None
  {
    if rows != [] {
      var front := rows[..|rows| - 1];
      var last := rows[|rows| - 1];
      PivotGroups(front, k);
      HasKeySnoc(rows, k);
      if last.key.Some? {
        if last.key.value == k {
          PivotSorted(front);
          if !HasKey(front, k) { TotalsWithoutKey(front, k); }
          AddToFindSame(PivotOf(front), k, last.net, last.vat);
        } else {
          AddToFindOther(PivotOf(front), last.key.value, last.net, last.vat, k);
        }
      }
    }
  }

  /** In sorted groups, a group's key finds that very group: each key appears once. */
  lemma SortedFindsItself(gs: seq<Group>, i: nat)
    requires Sorted(gs) && i < |gs|
    ensures Find(gs, gs[i].key) == Some(gs[i])
  {
    var r := Find(gs, gs[i].key);
    FindIn(gs, gs[i].key);
    var j :| 0 <= j < |gs| && gs[j] == r.value;
    if j < i { KeyLessIrreflexive(gs[i].key); }
    if i < j { KeyLessIrreflexive(gs[i].key); }
  }

  /**
   * Every output row of the pivot is the group of a key some row has,
   * holding exactly that key's sums.
   */
  lemma PivotRows(rows: seq<Contribution>, i: nat)
    requires i < |PivotOf(rows)|
    ensures var g := PivotOf(rows)[i];
            HasKey(rows, g.key) && g.net == NetTotal(rows, g.key) && g.vat == VatTotal(rows, g.key)
  {
    PivotSorted(rows);
    SortedFindsItself(PivotOf(rows), i);
    PivotGroups(rows, PivotOf(rows)[i].key);
  }
}
