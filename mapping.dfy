/**
 * The lookup tables the Vodafone exporter enriches its rows with: phone
 * number to employee, TESZOR code to expense category, and (TESZOR code,
 * VAT rate) to the ledger entry to book the charge on.
 */
module Mapping {
  import opened Wrappers

  /** The fields of `Employee.dict()` the exporter uses. */
  datatype EmployeeInfo = EmployeeInfo(
    name: string, costCenter: Option<string>, monogram: Option<string>, axaptaName: Option<string>)

  /** One `PhoneBook` row with its employee loaded, `None` when the relation is empty. */
  datatype PhoneBookRow = PhoneBookRow(phoneNumber: string, employee: Option<EmployeeInfo>)

  /**
   * `{row.phone_number: row.employee.dict() for row in phonebooks}`:
   * later rows overwrite earlier ones with the same number; a row
   * without an employee raises, which is `None` here.
   */
  function PhoneUserMap(rows: seq<PhoneBookRow>): (r: Option<map<string, EmployeeInfo>>)
    ensures r.Some? <==> forall i :: 0 <= i < |rows| ==> rows[i].employee.Some?
  {
    if rows == [] then Some(map[])
    else
      var last := rows[|rows| - 1];
      match PhoneUserMap(rows[..|rows| - 1])
      case None => None
      case Some(m) => if last.employee.Some? then Some(m[last.phoneNumber := last.employee.value]) else None
  }

  /** The map holds exactly the phone numbers of the rows. */
  lemma {:induction false} PhoneUserMapKeys(rows: seq<PhoneBookRow>)
    requires PhoneUserMap(rows).Some?
    ensures forall p :: p in PhoneUserMap(rows).value <==> exists i :: 0 <= i < |rows| && rows[i].phoneNumber == p
  {
    if rows != [] {
      var front := rows[..|rows| - 1];
      PhoneUserMapKeys(front);
      forall p | p in PhoneUserMap(rows).value
        ensures exists i :: 0 <= i < |rows| && rows[i].phoneNumber == p
      {
        if p !in PhoneUserMap(front).value {
          assert rows[|rows| - 1].phoneNumber == p;
        } else {
          var i :| 0 <= i < |front| && front[i].phoneNumber == p;
          assert rows[i] == front[i];
        }
      }
      forall p | exists i :: 0 <= i < |rows| && rows[i].phoneNumber == p
        ensures p in PhoneUserMap(rows).value
      {
        var i :| 0 <= i < |rows| && rows[i].phoneNumber == p;
        if i < |front| { assert front[i] == rows[i]; }
      }
    }
  }

  /** A number maps to the employee of the last row holding it. */
  lemma {:induction false} PhoneUserMapLastWins(rows: seq<PhoneBookRow>, i: nat)
    requires PhoneUserMap(rows).Some? && i < |rows|
    requires forall j :: i < j < |rows| ==> rows[j].phoneNumber != rows[i].phoneNumber
    ensures rows[i].phoneNumber in PhoneUserMap(rows).value
    ensures PhoneUserMap(rows).value[rows[i].phoneNumber] == rows[i].employee.value
  {
    var front := rows[..|rows| - 1];
    if i < |front| {
      assert front[i] == rows[i];
      forall j | i < j < |front| ensures front[j].phoneNumber != front[i].phoneNumber {
        assert front[j] == rows[j];
      }
      PhoneUserMapLastWins(front, i);
      assert rows[|rows| - 1].phoneNumber != rows[i].phoneNumber;
    }
  }

  // -------------------------------------------------- expense mappings

  datatype TeszorCode = TeszorCode(code: string)
  datatype VatCode = VatCode(code: string, rate: Option<string>)
  datatype ExpenseType = ExpenseType(title: string, accountNumber: string)

  /** One `TeszorVatExpenseMap` row with its three relations loaded, each possibly empty. */
  datatype ExpenseMap = ExpenseMap(teszor: Option<TeszorCode>, vat: Option<VatCode>, expense: Option<ExpenseType>)

  /** `TeszorVatLedgerMapRead`: the flattened row, `None` wherever a relation is empty. */
  datatype LedgerMapRead = LedgerMapRead(
    teszorCode: Option<string>, vatCode: Option<string>, vatRate: Option<string>,
    expenseTitle: Option<string>, expenseAccountNumber: Option<string>)

  /** The flattening of one mapping row. */
  function ReadOf(m: ExpenseMap): (r: LedgerMapRead)
    ensures r.teszorCode.Some? <==> m.teszor.Some?
    ensures r.vatCode.Some? <==> m.vat.Some?
    ensures r.vatRate.Some? ==> m.vat.Some?
    ensures r.expenseTitle.Some? <==> m.expense.Some?
    ensures r.expenseAccountNumber.Some? <==> m.expense.Some?
  {
    LedgerMapRead(
      if m.teszor.Some? then Some(m.teszor.value.code) else None,
      if m.vat.Some? then Some(m.vat.value.code) else None,
      if m.vat.Some? then m.vat.value.rate else None,
      if m.expense.Some? then Some(m.expense.value.title) else None,
      if m.expense.Some? then Some(m.expense.value.accountNumber) else None)
  }

  /** The loop building `teszor_mappings`: one flattened row per mapping row, in order. */
  method FlattenMappings(ms: seq<ExpenseMap>) returns (flat: seq<LedgerMapRead>)
    ensures |flat| == |ms|
    ensures forall i :: 0 <= i < |ms| ==> flat[i] == ReadOf(ms[i])
  {
    flat := [];
    for i := 0 to |ms|
      invariant |flat| == i
      invariant forall j :: 0 <= j < i ==> flat[j] == ReadOf(ms[j])
    {
      flat := flat + [ReadOf(ms[i])];
    }
  }

  /** Python truthiness of an optional string: present and not empty. */
  predicate Truthy(o: Option<string>) {
    o.Some? && o.value != ""
  }

  /** A row enters the category map when it has a TESZOR code and an expense title. */
  predicate InCategoryMap(m: LedgerMapRead) {
    Truthy(m.teszorCode) && Truthy(m.expenseTitle)
  }

  /** `teszor_category_map`: TESZOR code to expense title, the last qualifying row winning. */
  function CategoryMap(flat: seq<LedgerMapRead>): map<string, string> {
    if flat == [] then map[]
    else
      var m := flat[|flat| - 1];
      var front := CategoryMap(flat[..|flat| - 1]);
      if InCategoryMap(m) then front[m.teszorCode.value := m.expenseTitle.value] else front
  }

  /** What a ledger lookup gives: `{"Title": ..., "VatCode": ..., "LedgerAccount": ...}`. */
  datatype LedgerEntry = LedgerEntry(title: string, vatCode: string, ledgerAccount: Option<string>)

  /** A row enters the lookup when it has a TESZOR code, a VAT code and an expense title. */
  predicate InLookup(m: LedgerMapRead) {
    Truthy(m.teszorCode) && Truthy(m.vatCode) && Truthy(m.expenseTitle)
  }

  function EntryOf(m: LedgerMapRead): LedgerEntry
    requires InLookup(m)
  {
    LedgerEntry(m.expenseTitle.value, m.vatCode.value, m.expenseAccountNumber)
  }

  /** `mapping_lookup`: (TESZOR code, VAT rate) to the ledger entry, the last qualifying row winning. */
  function MappingLookup(flat: seq<LedgerMapRead>): map<(string, Option<string>), LedgerEntry> {
    if flat == [] then map[]
    else
      var m := flat[|flat| - 1];
      var front := MappingLookup(flat[..|flat| - 1]);
      if InLookup(m) then front[(m.teszorCode.value, m.vatRate) := EntryOf(m)] else front
  }

  /** The category map holds exactly the codes of the qualifying rows. */
  lemma {:induction false} CategoryMapKeys(flat: seq<LedgerMapRead>)
    ensures forall t :: t in CategoryMap(flat) <==>
              exists i :: 0 <= i < |flat| && InCategoryMap(flat[i]) && flat[i].teszorCode.value == t
  {
    if flat != [] {
      var front := flat[..|flat| - 1];
      CategoryMapKeys(front);
      forall t | t in CategoryMap(flat)
        ensures exists i :: 0 <= i < |flat| && InCategoryMap(flat[i]) && flat[i].teszorCode.value == t
      {
        if t !in CategoryMap(front) {
          assert InCategoryMap(flat[|flat| - 1]);
        } else {
          var i :| 0 <= i < |front| && InCategoryMap(front[i]) && front[i].teszorCode.value == t;
          assert flat[i] == front[i];
        }
      }
      forall t | exists i :: 0 <= i < |flat| && InCategoryMap(flat[i]) && flat[i].teszorCode.value == t
        ensures t in CategoryMap(flat)
      {
        var i :| 0 <= i < |flat| && InCategoryMap(flat[i]) && flat[i].teszorCode.value == t;
        if i < |front| { assert front[i] == flat[i]; }
      }
    }
  }

  /** A code's title is that of the last qualifying row with that code. */
  lemma {:induction false} CategoryMapLastWins(flat: seq<LedgerMapRead>, i: nat)
    requires i < |flat| && InCategoryMap(flat[i])
    requires forall j :: i < j < |flat| && InCategoryMap(flat[j]) ==> flat[j].teszorCode != flat[i].teszorCode
    ensures flat[i].teszorCode.value in CategoryMap(flat)
    ensures CategoryMap(flat)[flat[i].teszorCode.value] == flat[i].expenseTitle.value
  {
    var front := flat[..|flat| - 1];
    if i < |front| {
      assert front[i] == flat[i];
      forall j | i < j < |front| && InCategoryMap(front[j]) ensures front[j].teszorCode != front[i].teszorCode {
        assert front[j] == flat[j];
      }
      CategoryMapLastWins(front, i);
    }
  }

  /** The lookup holds exactly the keys of the qualifying rows. */
  lemma {:induction false} MappingLookupKeys(flat: seq<LedgerMapRead>)
    ensures forall k :: k in MappingLookup(flat) <==>
              exists i :: 0 <= i < |flat| && InLookup(flat[i]) && (flat[i].teszorCode.value, flat[i].vatRate) == k
  {
    if flat != [] {
      var front := flat[..|flat| - 1];
      MappingLookupKeys(front);
      forall k | k in MappingLookup(flat)
        ensures exists i :: 0 <= i < |flat| && InLookup(flat[i]) && (flat[i].teszorCode.value, flat[i].vatRate) == k
      {
        if k !in MappingLookup(front) {
          assert InLookup(flat[|flat| - 1]);
        } else {
          var i :| 0 <= i < |front| && InLookup(front[i]) && (front[i].teszorCode.value, front[i].vatRate) == k;
          assert flat[i] == front[i];
        }
      }
      forall k | exists i :: 0 <= i < |flat| && InLookup(flat[i]) && (flat[i].teszorCode.value, flat[i].vatRate) == k
        ensures k in MappingLookup(flat)
      {
        var i :| 0 <= i < |flat| && InLookup(flat[i]) && (flat[i].teszorCode.value, flat[i].vatRate) == k;
        if i < |front| { assert front[i] == flat[i]; }
      }
    }
  }

  /** A key's entry is that of the last qualifying row with that key. */
  lemma {:induction false} MappingLookupLastWins(flat: seq<LedgerMapRead>, i: nat)
    requires i < |flat| && InLookup(flat[i])
    requires forall j :: i < j < |flat| && InLookup(flat[j]) ==>
               (flat[j].teszorCode, flat[j].vatRate) != (flat[i].teszorCode, flat[i].vatRate)
    ensures (flat[i].teszorCode.value, flat[i].vatRate) in MappingLookup(flat)
    ensures MappingLookup(flat)[(flat[i].teszorCode.value, flat[i].vatRate)] == EntryOf(flat[i])
  {
    var front := flat[..|flat| - 1];
    if i < |front| {
      assert front[i] == flat[i];
      forall j | i < j < |front| && InLookup(front[j])
        ensures (front[j].teszorCode, front[j].vatRate) != (front[i].teszorCode, front[i].vatRate)
      {
        assert front[j] == flat[j];
      }
      MappingLookupLastWins(front, i);
    }
  }

  /** Every TESZOR code the lookup knows also has an expense category. */
  lemma LookupCodesAreCategorised(flat: seq<LedgerMapRead>, k: (string, Option<string>))
    requires k in MappingLookup(flat)
    ensures k.0 in CategoryMap(flat)
  {
    MappingLookupKeys(flat);
    CategoryMapKeys(flat);
    var i :| 0 <= i < |flat| && InLookup(flat[i]) && (flat[i].teszorCode.value, flat[i].vatRate) == k;
    assert InCategoryMap(flat[i]);
  }

  /** Every entry of the lookup has a non-empty title and VAT code. */
  lemma {:induction false} LookupEntriesAreFilled(flat: seq<LedgerMapRead>, k: (string, Option<string>))
    requires k in MappingLookup(flat)
    ensures MappingLookup(flat)[k].title != "" && MappingLookup(flat)[k].vatCode != ""
  {
    var front := flat[..|flat| - 1];
    var m := flat[|flat| - 1];
    if !(InLookup(m) && k == (m.teszorCode.value, m.vatRate)) {
      LookupEntriesAreFilled(front, k);
    }
  }
}
