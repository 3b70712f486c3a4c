/** The Salary Register Summary report
    (ramasri_hrms/report/salary_register_summary/salary_register_summary.py).

    The report selects salary slips by the user's filters, splits the salary
    components that occur on them into earnings and deductions, sums the
    salary-detail amounts per slip and component, and then emits, per slip, one
    header row followed by rows that pair the i-th largest earning with the
    i-th largest deduction. While doing so it adds up the figures shown in a
    summary card: gross and net pay, social security, income tax, student-loan
    repayments and penalty deductions.

    The database queries are modelled by their results: the Salary Slip and
    Salary Detail tables are sequences, a component's type is a function, and
    the employees' dates of joining are a map. */
module SalaryRegister {
  import opened Common
  import opened Ordering

  // ---------------------------------------------------------------------
  // Records read from the database
  // ---------------------------------------------------------------------

  /** A Salary Slip, with the fields the report reads. Dates are day numbers;
      a NULL exchange rate is 0.0, as `flt(None)` is 0. */
  datatype Slip = Slip(
    name: string,
    employee: string,
    employeeName: string,
    department: Option<string>,
    designation: Option<string>,
    company: string,
    currency: string,
    docstatus: int,
    startDate: int,
    endDate: int,
    grossPay: real,
    totalDeduction: real,
    netPay: real,
    exchangeRate: real)

  /** The report filters; `None` is a filter the user left empty. */
  datatype Filters = Filters(
    docstatus: Option<string>,
    fromDate: Option<int>,
    toDate: Option<int>,
    company: Option<string>,
    employee: Option<string>,
    currency: Option<string>)

  /** A Salary Detail row: one component amount on the `earnings` or
      `deductions` table (`parentfield`) of the slip named `parent`. */
  datatype Detail = Detail(parent: string, parentfield: string, component: string, amount: real)

  /** A Salary Detail row joined with its slip's exchange rate. */
  datatype Joined = Joined(parent: string, component: string, amount: real, exchangeRate: real)

  /** Everything the report reads: the filters, the company's currency (as
      returned by the accounting module; `None` when no company is chosen),
      the two tables, the type of each component and the employees' dates of
      joining. */
  datatype ReportInput = ReportInput(
    filters: Filters,
    companyCurrency: Option<string>,
    slipTable: seq<Slip>,
    details: seq<Detail>,
    typeOf: string -> string,
    dateOfJoining: map<string, int>)

  // ---------------------------------------------------------------------
  // Report output
  // ---------------------------------------------------------------------

  /** A component and its amount on one slip; `None` when the slip does not
      carry the component (`dict.get` of a missing key). */
  datatype Cell = Cell(component: string, amount: Option<real>)

  /** A report row: a slip's header (indent 0) or one of its line rows
      (indent 1) pairing an earning with a deduction. */
  datatype ReportRow =
    | Header(
        slipId: string,
        employee: string,
        employeeName: string,
        dateOfJoining: Option<int>,
        department: Option<string>,
        designation: Option<string>,
        startDate: int,
        endDate: int,
        currency: Option<string>,
        grossPay: real,
        totalDeduction: real,
        netPay: real)
    | Line(earn: Option<Cell>, deduct: Option<Cell>)
  {
    function Indent(): nat {
      if Header? then 0 else 1
    }
  }

  datatype Totals = Totals(grossPay: real, netPay: real, sso: real, tax: real, edu: real, penalty: real)

  const NoTotals := Totals(0.0, 0.0, 0.0, 0.0, 0.0, 0.0)

  function Plus(a: Totals, b: Totals): Totals {
    Totals(a.grossPay + b.grossPay, a.netPay + b.netPay, a.sso + b.sso,
           a.tax + b.tax, a.edu + b.edu, a.penalty + b.penalty)
  }

  /** A report column; the caption is kept untranslated. */
  datatype Column = Column(caption: string, fieldname: string, fieldtype: string,
                           options: Option<string>, width: Option<int>, hidden: bool)

  /** The summary card: the amounts to be paid (salaries, social security,
      their sum) and the payouts to each party (the bank, the social
      security office, the revenue department twice, their sum). */
  datatype Card = Card(toPay: seq<real>, payouts: seq<real>)

  /** `columns, data, message`; the early return is `[], []` without a message. */
  datatype Report = Report(columns: seq<Column>, data: seq<ReportRow>, message: Option<Card>)

  // ---------------------------------------------------------------------
  // get_salary_slips: filter semantics
  // ---------------------------------------------------------------------

  /** The `doc_status` lookup: an unknown status name raises `KeyError`. */
  function DocStatusCode(status: string): (r: Result<int>)
    ensures r.Ok? <==> status == "Draft" || status == "Submitted" || status == "Cancelled"
    ensures r.Ok? ==> 0 <= r.value <= 2
    ensures status == "Draft" ==> r == Ok(0)
    ensures status == "Submitted" ==> r == Ok(1)
    ensures status == "Cancelled" ==> r == Ok(2)
  {
    if status == "Draft" then Ok(0)
    else if status == "Submitted" then Ok(1)
    else if status == "Cancelled" then Ok(2)
    else Err(KeyError(status))
  }

  /** The document status the query asks for; 0 stands in when the filter is empty. */
  function StatusFilter(f: Filters): Result<int> {
    if Given(f.docstatus) then DocStatusCode(f.docstatus.value) else Ok(0)
  }

  /** A slip passes every filter the user gave. The currency filter applies
      only when it differs from the company's currency. */
  predicate Matches(ss: Slip, f: Filters, status: int, companyCurrency: Option<string>) {
    && (Given(f.docstatus) ==> ss.docstatus == status)
    && (f.fromDate.Some? ==> ss.startDate >= f.fromDate.value)
    && (f.toDate.Some? ==> ss.endDate <= f.toDate.value)
    && (Given(f.company) ==> ss.company == f.company.value)
    && (Given(f.employee) ==> ss.employee == f.employee.value)
    && (Given(f.currency) && f.currency != companyCurrency ==> ss.currency == f.currency.value)
  }

  /** `get_salary_slips`: the slips of the table that pass the filters, in
      table order, or the `KeyError` of an unknown status name. */
  function SelectSlips(table: seq<Slip>, f: Filters, companyCurrency: Option<string>): (r: Result<seq<Slip>>)
    ensures r.Err? <==> Given(f.docstatus) && DocStatusCode(f.docstatus.value).Err?
    ensures r.Ok? ==> |r.value| <= |table|
    ensures r.Ok? ==> forall ss :: ss in r.value <==> ss in table && Matches(ss, f, StatusFilter(f).value, companyCurrency)
  {
    var status :- StatusFilter(f);
    Ok(Filter(ss => Matches(ss, f, status, companyCurrency), table))
  }

  function Names(slips: seq<Slip>): set<string> {
    set ss | ss in slips :: ss.name
  }

  // ---------------------------------------------------------------------
  // get_salary_components and get_earning_and_deduction_types
  // ---------------------------------------------------------------------

  /** `get_salary_components`: the distinct components on the detail rows of
      the selected slips, from either table, in order of first appearance. */
  function SalaryComponents(details: seq<Detail>, names: set<string>): (r: seq<string>)
    ensures Distinct(r)
    ensures forall c :: c in r <==> exists d :: d in details && d.parent in names && d.component == c
    decreases |details|
  {
    if |details| == 0 then []
    else
      var prefix := details[..|details| - 1];
      var d := details[|details| - 1];
      assert details == prefix + [d];
      var r := SalaryComponents(prefix, names);
      if d.parent in names && d.component !in r then r + [d.component] else r
  }

  /** The loop of `get_earning_and_deduction_types`: each component is
      appended to the list of its type; a type other than Earning or
      Deduction is a missing dictionary key. */
  function SplitByType(components: seq<string>, typeOf: string -> string): Result<(seq<string>, seq<string>)>
    decreases |components|
  {
    if |components| == 0 then Ok(([], []))
    else
      var lists :- SplitByType(components[..|components| - 1], typeOf);
      var c := components[|components| - 1];
      var t := typeOf(c);
      if t == "Earning" then Ok((lists.0 + [c], lists.1))
      else if t == "Deduction" then Ok((lists.0, lists.1 + [c]))
      else Err(KeyError(t))
  }

  /** `get_earning_and_deduction_types`: both lists, sorted. */
  function EarningAndDeductionTypes(components: seq<string>, typeOf: string -> string): Result<(seq<string>, seq<string>)> {
    var lists :- SplitByType(components, typeOf);
    Ok((SortAsc(lists.0), SortAsc(lists.1)))
  }

  lemma {:induction false} SplitByTypeErrorStays(components: seq<string>, typeOf: string -> string, i: nat)
    requires i <= |components|
    requires SplitByType(components[..i], typeOf).Err?
    ensures SplitByType(components, typeOf) == SplitByType(components[..i], typeOf)
    decreases |components| - i
  {
    if i < |components| {
      assert components[..i + 1][..i] == components[..i];
      SplitByTypeErrorStays(components, typeOf, i + 1);
    } else {
      assert components[..i] == components;
    }
  }

  method GetEarningAndDeductionTypes(components: seq<string>, typeOf: string -> string)
      returns (r: Result<(seq<string>, seq<string>)>)
    ensures r == EarningAndDeductionTypes(components, typeOf)
  {
    var earning: seq<string> := [];
    var deduction: seq<string> := [];
    var i := 0;
    while i < |components|
      invariant 0 <= i <= |components|
      invariant SplitByType(components[..i], typeOf) == Ok((earning, deduction))
    {
      var c := components[i];
      assert components[..i + 1][..i] == components[..i];
      var t := typeOf(c);
      if t == "Earning" {
        earning := earning + [c];
      } else if t == "Deduction" {
        deduction := deduction + [c];
      } else {
        SplitByTypeErrorStays(components, typeOf, i + 1);
        return Err(KeyError(t));
      }
      i := i + 1;
    }
    assert components[..i] == components;
    r := Ok((SortAsc(earning), SortAsc(deduction)));
  }

  // ---------------------------------------------------------------------
  // get_salary_slip_details
  // ---------------------------------------------------------------------

  /** The exchange rate of the first slip named `name`; 0.0 when there is none. */
  function RateOf(slips: seq<Slip>, name: string): real
    decreases |slips|
  {
    if |slips| == 0 then 0.0
    else if slips[0].name == name then slips[0].exchangeRate
    else RateOf(slips[1..], name)
  }

  /** The detail rows the query of `get_salary_slip_details` matches: those
      of table `parentfield` whose parent is a selected slip, in table order. */
  function Matching(details: seq<Detail>, slips: seq<Slip>, parentfield: string): seq<Detail> {
    Filter((d: Detail) => d.parentfield == parentfield && d.parent in Names(slips), details)
  }

  /** `r` holds, row for row, the details `m` joined with their slips' rates. */
  predicate JoinedFrom(r: seq<Joined>, m: seq<Detail>, slips: seq<Slip>) {
    && |r| == |m|
    && forall i :: 0 <= i < |r| ==>
         r[i] == Joined(m[i].parent, m[i].component, m[i].amount, RateOf(slips, m[i].parent))
  }

  lemma JoinedFromAppend(r1: seq<Joined>, m1: seq<Detail>, r2: seq<Joined>, m2: seq<Detail>, slips: seq<Slip>)
    requires JoinedFrom(r1, m1, slips) && JoinedFrom(r2, m2, slips)
    ensures JoinedFrom(r1 + r2, m1 + m2, slips)
  {
    var r, m := r1 + r2, m1 + m2;
    forall i | 0 <= i < |r|
      ensures r[i] == Joined(m[i].parent, m[i].component, m[i].amount, RateOf(slips, m[i].parent))
    {
      if i >= |r1| {
        assert r[i] == r2[i - |r1|] && m[i] == m2[i - |m1|];
      }
    }
  }

  /** The query of `get_salary_slip_details`: one row per matching detail
      row, carrying its slip's exchange rate. */
  function JoinDetails(details: seq<Detail>, slips: seq<Slip>, parentfield: string): (r: seq<Joined>)
    ensures var m := Matching(details, slips, parentfield);
      && |r| == |m|
      && forall i :: 0 <= i < |r| ==>
           r[i] == Joined(m[i].parent, m[i].component, m[i].amount, RateOf(slips, m[i].parent))
    ensures forall j :: j in r ==> j.parent in Names(slips)
    decreases |details|
  {
    if |details| == 0 then []
    else
      var d := details[0];
      var rest := JoinDetails(details[1..], slips, parentfield);
      var matched := d.parentfield == parentfield && d.parent in Names(slips);
      var head := if matched then [Joined(d.parent, d.component, d.amount, RateOf(slips, d.parent))] else [];
      assert Matching(details, slips, parentfield)
        == (if matched then [d] else []) + Matching(details[1..], slips, parentfield);
      JoinedFromAppend(head, if matched then [d] else [], rest, Matching(details[1..], slips, parentfield), slips);
      head + rest
  }

  /** A detail amount as it is summed: multiplied by its exchange rate (1 when
      the rate is 0 or missing) when the report converts to the company
      currency, unchanged otherwise. */
  function Converted(j: Joined, convert: bool): real {
    if convert then j.amount * (if j.exchangeRate != 0.0 then j.exchangeRate else 1.0) else j.amount
  }

  /** The sum of the converted amounts of the rows for slip `p` and component `c`. */
  function PairSum(rows: seq<Joined>, p: string, c: string, convert: bool): real
    decreases |rows|
  {
    if |rows| == 0 then 0.0
    else
      var last := rows[|rows| - 1];
      PairSum(rows[..|rows| - 1], p, c, convert)
        + (if last.parent == p && last.component == c then Converted(last, convert) else 0.0)
  }

  function Parents(rows: seq<Joined>): set<string> {
    set j | j in rows :: j.parent
  }

  function ComponentsOf(rows: seq<Joined>, p: string): set<string> {
    set j | j in rows && j.parent == p :: j.component
  }

  /** component -> summed amount, for the components that occur on slip `p`. */
  function ComponentSums(rows: seq<Joined>, p: string, convert: bool): map<string, real> {
    map c | c in ComponentsOf(rows, p) :: PairSum(rows, p, c, convert)
  }

  /** What the detail map is meant to hold: slip -> component -> summed
      amount, for exactly the pairs that occur in the rows. */
  function SummedPairs(rows: seq<Joined>, convert: bool): map<string, map<string, real>> {
    map p | p in Parents(rows) :: ComponentSums(rows, p, convert)
  }

  /** `ss_map.setdefault(parent, {})`: the inner map of slip `p`, empty when absent. */
  function Inner(m: map<string, map<string, real>>, p: string): map<string, real> {
    if p in m then m[p] else map[]
  }

  /** `inner.setdefault(component, 0.0)` followed by `+= x`. */
  function Bump(inner: map<string, real>, c: string, x: real): map<string, real> {
    inner[c := (if c in inner then inner[c] else 0.0) + x]
  }

  /** One detail row added to the slip -> component -> amount map. */
  function AddDetail(m: map<string, map<string, real>>, d: Joined, convert: bool): map<string, map<string, real>> {
    m[d.parent := Bump(Inner(m, d.parent), d.component, Converted(d, convert))]
  }

  /** The map the loop of `get_salary_slip_details` builds from the rows, in order. */
  function DetailMap(rows: seq<Joined>, convert: bool): map<string, map<string, real>>
    decreases |rows|
  {
    if |rows| == 0 then map[]
    else AddDetail(DetailMap(rows[..|rows| - 1], convert), rows[|rows| - 1], convert)
  }

  lemma {:induction false} PairSumAbsent(rows: seq<Joined>, p: string, c: string, convert: bool)
    requires c !in ComponentsOf(rows, p)
    ensures PairSum(rows, p, c, convert) == 0.0
    decreases |rows|
  {
    if |rows| > 0 {
      var prefix := rows[..|rows| - 1];
      assert rows == prefix + [rows[|rows| - 1]];
      assert ComponentsOf(prefix, p) <= ComponentsOf(rows, p);
      PairSumAbsent(prefix, p, c, convert);
    }
  }

  lemma ComponentsOfAppend(before: seq<Joined>, d: Joined, p: string)
    ensures ComponentsOf(before + [d], p) == ComponentsOf(before, p) + (if p == d.parent then {d.component} else {})
  {
  }

  lemma PairSumAppend(before: seq<Joined>, d: Joined, p: string, c: string, convert: bool)
    ensures PairSum(before + [d], p, c, convert)
      == PairSum(before, p, c, convert) + (if d.parent == p && d.component == c then Converted(d, convert) else 0.0)
  {
    var after := before + [d];
    assert after[..|after| - 1] == before;
  }

  /** A detail row of another slip leaves slip `p`'s sums alone. */
  lemma ComponentSumsOther(before: seq<Joined>, d: Joined, p: string, convert: bool)
    requires p != d.parent
    ensures ComponentSums(before + [d], p, convert) == ComponentSums(before, p, convert)
  {
    var sums := ComponentSums(before, p, convert);
    var got := ComponentSums(before + [d], p, convert);
    ComponentsOfAppend(before, d, p);
    forall c | c in got
      ensures got[c] == sums[c]
    {
      PairSumAppend(before, d, p, c, convert);
    }
  }

  /** A detail row of slip `p` adds its converted amount to its component's sum. */
  lemma ComponentSumsSame(before: seq<Joined>, d: Joined, convert: bool)
    ensures ComponentSums(before + [d], d.parent, convert)
      == Bump(ComponentSums(before, d.parent, convert), d.component, Converted(d, convert))
  {
    var p := d.parent;
    var got := ComponentSums(before + [d], p, convert);
    var expected := Bump(ComponentSums(before, p, convert), d.component, Converted(d, convert));
    ComponentsOfAppend(before, d, p);
    assert got.Keys == expected.Keys;
    forall c | c in got
      ensures got[c] == expected[c]
    {
      PairSumSame(before, d, c, convert);
    }
  }

  lemma PairSumSame(before: seq<Joined>, d: Joined, c: string, convert: bool)
    ensures PairSum(before + [d], d.parent, c, convert)
      == (if c in ComponentsOf(before, d.parent) then PairSum(before, d.parent, c, convert) else 0.0)
         + (if c == d.component then Converted(d, convert) else 0.0)
  {
    PairSumAppend(before, d, d.parent, c, convert);
    if c !in ComponentsOf(before, d.parent) {
      PairSumAbsent(before, d.parent, c, convert);
    }
  }

  lemma ParentsAppend(before: seq<Joined>, d: Joined)
    ensures Parents(before + [d]) == Parents(before) + {d.parent}
  {
  }

  /** The sums of slip `p`: its entry of the map, or none when it has no rows. */
  lemma SummedPairsAt(rows: seq<Joined>, p: string, convert: bool)
    ensures Inner(SummedPairs(rows, convert), p) == ComponentSums(rows, p, convert)
  {
    if p !in Parents(rows) {
      assert ComponentsOf(rows, p) == {};
    }
  }

  lemma {:induction false} SummedPairsAppend(before: seq<Joined>, d: Joined, convert: bool)
    ensures SummedPairs(before + [d], convert) == AddDetail(SummedPairs(before, convert), d, convert)
  {
    var m := SummedPairs(before, convert);
    var expected := AddDetail(m, d, convert);
    var got := SummedPairs(before + [d], convert);
    ParentsAppend(before, d);
    assert got.Keys == expected.Keys;
    forall p | p in got
      ensures got[p] == expected[p]
    {
      if p == d.parent {
        SummedPairsSame(before, d, convert);
      } else {
        ComponentSumsOther(before, d, p, convert);
      }
    }
  }

  lemma SummedPairsSame(before: seq<Joined>, d: Joined, convert: bool)
    ensures d.parent in Parents(before + [d])
    ensures SummedPairs(before + [d], convert)[d.parent] == AddDetail(SummedPairs(before, convert), d, convert)[d.parent]
  {
    ParentsAppend(before, d);
    SummedPairsAt(before, d.parent, convert);
    ComponentSumsSame(before, d, convert);
  }

  /** The `setdefault`/`+=` loop leaves, for each slip and component that
      occur in the rows, the sum of that pair's converted amounts, and no
      other entry. */
  lemma {:induction false} DetailMapSums(rows: seq<Joined>, convert: bool)
    ensures DetailMap(rows, convert) == SummedPairs(rows, convert)
    decreases |rows|
  {
    if |rows| == 0 {
      assert Parents(rows) == {};
    } else {
      var prefix := rows[..|rows| - 1];
      assert rows == prefix + [rows[|rows| - 1]];
      DetailMapSums(prefix, convert);
      SummedPairsAppend(prefix, rows[|rows| - 1], convert);
    }
  }

  /** `get_salary_slip_details` after its query. */
  method GetSalarySlipDetails(rows: seq<Joined>, convert: bool) returns (m: map<string, map<string, real>>)
    ensures m == DetailMap(rows, convert)
  {
    m := map[];
    var i := 0;
    while i < |rows|
      invariant 0 <= i <= |rows|
      invariant m == DetailMap(rows[..i], convert)
    {
      var d := rows[i];
      assert rows[..i + 1][..i] == rows[..i];
      var inner := if d.parent in m then m[d.parent] else map[];
      var current := if d.component in inner then inner[d.component] else 0.0;
      m := m[d.parent := inner[d.component := current + Converted(d, convert)]];
      i := i + 1;
    }
    assert rows[..i] == rows;
  }

  // ---------------------------------------------------------------------
  // Columns
  // ---------------------------------------------------------------------

  /** `get_columns`. */
  function GetColumns(): (r: seq<Column>)
    ensures |r| == 14
    ensures r[4].fieldname == "department" && r[4].width == Some(-1)
    ensures r[5].fieldname == "designation" && r[5].width == Some(-1)
  {
    [ Column("Salary Slip ID", "salary_slip_id", "Link", Some("Salary Slip"), Some(150), false),
      Column("Employee", "employee", "Link", Some("Employee"), Some(120), false),
      Column("Employee Name", "employee_name", "Data", None, Some(140), false),
      Column("Date of Joining", "data_of_joining", "Date", None, Some(80), false),
      Column("Department", "department", "Link", Some("Department"), Some(-1), false),
      Column("Designation", "designation", "Link", Some("Designation"), Some(-1), false),
      Column("Start Date", "start_date", "Data", None, Some(80), false),
      Column("End Date", "end_date", "Data", None, Some(80), false),
      Column("Earn Type", "earn_type", "Data", None, Some(160), false),
      Column("Gross Pay", "gross_pay", "Currency", Some("currency"), Some(120), false),
      Column("Deduct Type", "deduct_type", "Data", None, Some(160), false),
      Column("Total Deduction", "total_deduction", "Currency", Some("currency"), Some(120), false),
      Column("Net Pay", "net_pay", "Currency", Some("currency"), Some(120), false),
      Column("Currency", "currency", "Data", Some("Currency"), None, true) ]
  }

  /** The columns after `update_column_width` has seen slip `ss`. */
  function Widened(columns: seq<Column>, ss: Slip): seq<Column>
    requires |columns| > 5
  {
    var department := if ss.department.Some? then columns[4].(width := Some(120)) else columns[4];
    var designation := if ss.designation.Some? then columns[5].(width := Some(120)) else columns[5];
    columns[4 := department][5 := designation]
  }

  /** The columns after `update_column_width` has seen every slip in turn. */
  function ColumnsAfter(columns: seq<Column>, slips: seq<Slip>): (r: seq<Column>)
    requires |columns| > 5
    ensures |r| == |columns|
    decreases |slips|
  {
    if |slips| == 0 then columns
    else Widened(ColumnsAfter(columns, slips[..|slips| - 1]), slips[|slips| - 1])
  }

  /** `update_column_width`: widens the Department and Designation columns
      in place when the slip has a department or a designation. */
  method UpdateColumnWidth(ss: Slip, columns: array<Column>)
    requires columns.Length > 5
    modifies columns
    ensures columns[..] == Widened(old(columns[..]), ss)
  {
    if ss.department.Some? {
      columns[4] := columns[4].(width := Some(120));
    }
    if ss.designation.Some? {
      columns[5] := columns[5].(width := Some(120));
    }
  }

  // ---------------------------------------------------------------------
  // execute: rows and totals of one slip
  // ---------------------------------------------------------------------

  /** What `execute` knows when it reaches the loop over slips. */
  datatype Context = Context(
    currency: Option<string>,
    companyCurrency: Option<string>,
    dateOfJoining: map<string, int>,
    earningTypes: seq<string>,
    dedTypes: seq<string>,
    earningMap: map<string, map<string, real>>,
    dedMap: map<string, map<string, real>>)
  {
    /** `currency == company_currency`: amounts are converted by the exchange rate. */
    predicate Converts() {
      currency == companyCurrency
    }

    /** `max(len(earning_types), len(ded_types))`: the line rows per slip. */
    function LineCount(): nat {
      Max(|earningTypes|, |dedTypes|)
    }

    /** A slip's header row plus its line rows. */
    function Width(): nat {
      1 + LineCount()
    }
  }

  /** The currency filter as `execute` reads it (`filters.get("currency")` when truthy). */
  function CurrencyFilter(f: Filters): Option<string> {
    if Given(f.currency) then f.currency else None
  }

  /** The header row of a slip: its identity and its pay, converted by the
      slip's exchange rate when the report converts to the company currency. */
  function HeaderRow(ss: Slip, ctx: Context): ReportRow {
    var rate := if ctx.Converts() then ss.exchangeRate else 1.0;
    Header(ss.name, ss.employee, ss.employeeName, Lookup(ctx.dateOfJoining, ss.employee),
           ss.department, ss.designation, ss.startDate, ss.endDate,
           if ctx.currency.Some? then ctx.currency else ctx.companyCurrency,
           ss.grossPay * rate, ss.totalDeduction * rate, ss.netPay * rate)
  }

  /** `ss_map.get(slip, {}).get(component)`. */
  function AmountOf(m: map<string, map<string, real>>, slip: string, c: string): Option<real> {
    if slip in m && c in m[slip] then Some(m[slip][c]) else None
  }

  /** The (component, amount) pairs of one slip, in the order of `types`. */
  function Pairs(types: seq<string>, m: map<string, map<string, real>>, slip: string): (r: seq<Cell>)
    ensures |r| == |types|
  {
    seq(|types|, i requires 0 <= i < |types| => Cell(types[i], AmountOf(m, slip, types[i])))
  }

  /** The sort key; only read when every amount is present. */
  function AmountKey(c: Cell): real {
    if c.amount.Some? then c.amount.value else 0.0
  }

  predicate HasMissing(cells: seq<Cell>) {
    exists i :: 0 <= i < |cells| && cells[i].amount.None?
  }

  /** `sorted(pairs, key=amount, reverse=True)`. Python compares every
      element of a list of two or more, and comparing `None` raises
      `TypeError`; a list of at most one element is returned as it is. */
  function SortByAmount(cells: seq<Cell>): (r: Result<seq<Cell>>)
    ensures r.Err? <==> |cells| >= 2 && HasMissing(cells)
    ensures r.Err? ==> r.error == TypeError
    ensures r.Ok? ==> multiset(r.value) == multiset(cells) && SortedDesc(AmountKey, r.value)
  {
    if |cells| <= 1 then Ok(cells)
    else if HasMissing(cells) then Err(TypeError)
    else
      SortDescSorted(AmountKey, cells);
      Ok(SortDesc(AmountKey, cells))
  }

  /** The first `n` line rows: row i holds the i-th earning and the i-th
      deduction, where they exist. */
  function Lines(earns: seq<Cell>, deducts: seq<Cell>, n: nat): (r: seq<ReportRow>)
    ensures |r| == n
  {
    seq(n, i requires 0 <= i < n =>
      Line(if i < |earns| then Some(earns[i]) else None,
           if i < |deducts| then Some(deducts[i]) else None))
  }

  // The deduction components that feed the summary card.
  const SocialSecurity: string := "หักเงินประกันสังคม"
  const IncomeTax: string := "หักเงินภาษีบุคคลธรรมดา"
  const StudentLoan: string := "หักเงินกยศ"
  /** Penalties are deducted without having to be paid to anyone. */
  const Penalties: seq<string> := ["หักเงินลาเกินสิทธิ์", "หักเงินอื่นๆ"]

  predicate Tallied(component: string) {
    component == SocialSecurity || component == IncomeTax || component == StudentLoan || component in Penalties
  }

  /** A deduction's share of the category `names`. */
  function Share(names: seq<string>, c: Cell): real {
    if c.component in names && c.amount.Some? then c.amount.value else 0.0
  }

  /** The sum of the amounts of the cells whose component is in `names`. */
  function CategorySum(cells: seq<Cell>, names: seq<string>): real
    decreases |cells|
  {
    if |cells| == 0 then 0.0 else Share(names, cells[0]) + CategorySum(cells[1..], names)
  }

  /** The card figures contributed by a slip's deductions. */
  function Tally(deducts: seq<Cell>): Totals {
    Totals(0.0, 0.0, CategorySum(deducts, [SocialSecurity]), CategorySum(deducts, [IncomeTax]),
           CategorySum(deducts, [StudentLoan]), CategorySum(deducts, Penalties))
  }

  /** A tallied deduction without an amount: adding `None` to a total raises `TypeError`. */
  predicate MissingTallied(cells: seq<Cell>) {
    exists i :: 0 <= i < |cells| && Tallied(cells[i].component) && cells[i].amount.None?
  }

  /** The card figures contributed by a header row. */
  function HeaderTotals(h: ReportRow): Totals
    requires h.Header?
  {
    Totals(h.grossPay, h.netPay, 0.0, 0.0, 0.0, 0.0)
  }

  datatype Block = Block(rows: seq<ReportRow>, totals: Totals)

  /** One iteration of the loop over slips in `execute`: the rows the slip
      contributes and what it adds to the totals. */
  function SlipBlock(ss: Slip, ctx: Context): Result<Block> {
    var header := HeaderRow(ss, ctx);
    var earns :- SortByAmount(Pairs(ctx.earningTypes, ctx.earningMap, ss.name));
    var deducts :- SortByAmount(Pairs(ctx.dedTypes, ctx.dedMap, ss.name));
    if MissingTallied(deducts) then Err(TypeError)
    else Ok(Block([header] + Lines(earns, deducts, ctx.LineCount()), Plus(HeaderTotals(header), Tally(deducts))))
  }

  /** The loop over slips in `execute`: all rows in slip order, and the totals. */
  function Blocks(slips: seq<Slip>, ctx: Context): Result<Block>
    decreases |slips|
  {
    if |slips| == 0 then Ok(Block([], NoTotals))
    else
      var done :- Blocks(slips[..|slips| - 1], ctx);
      var b :- SlipBlock(slips[|slips| - 1], ctx);
      Ok(Block(done.rows + b.rows, Plus(done.totals, b.totals)))
  }

  /** `get_message`: the figures of the summary card. Each table's last cell
      is the sum of the cells before it. */
  function Message(t: Totals): (c: Card)
    ensures |c.toPay| == 3 && c.toPay[2] == c.toPay[0] + c.toPay[1]
    ensures |c.payouts| == 5 && c.payouts[4] == c.payouts[0] + c.payouts[1] + c.payouts[2] + c.payouts[3]
    ensures c.toPay[0] == t.grossPay - t.penalty && c.toPay[1] == t.sso
    ensures c.payouts[0] == t.netPay && c.payouts[1] == 2.0 * t.sso
    ensures c.payouts[2] == t.tax && c.payouts[3] == t.edu
  {
    Card([t.grossPay - t.penalty, t.sso, t.grossPay - t.penalty + t.sso],
         [t.netPay, t.sso * 2.0, t.tax, t.edu, t.netPay + t.sso * 2.0 + t.tax + t.edu])
  }

  /** The context `execute` builds for the selected slips. */
  function ContextFor(inp: ReportInput, slips: seq<Slip>, types: (seq<string>, seq<string>)): Context {
    var currency := CurrencyFilter(inp.filters);
    var convert := currency == inp.companyCurrency;
    Context(currency, inp.companyCurrency, inp.dateOfJoining, types.0, types.1,
            DetailMap(JoinDetails(inp.details, slips, "earnings"), convert),
            DetailMap(JoinDetails(inp.details, slips, "deductions"), convert))
  }

  /** The report of the selected slips, once their component types are known. */
  function ReportFor(inp: ReportInput, slips: seq<Slip>, types: (seq<string>, seq<string>)): Result<Report> {
    var all :- Blocks(slips, ContextFor(inp, slips, types));
    Ok(Report(ColumnsAfter(GetColumns(), slips), all.rows, Some(Message(all.totals))))
  }

  /** `execute` as a function of its inputs. */
  function ReportOf(inp: ReportInput): Result<Report> {
    var slips :- SelectSlips(inp.slipTable, inp.filters, inp.companyCurrency);
    if |slips| == 0 then Ok(Report([], [], None))
    else
      var types :- EarningAndDeductionTypes(SalaryComponents(inp.details, Names(slips)), inp.typeOf);
      ReportFor(inp, slips, types)
  }

  // ---------------------------------------------------------------------
  // execute
  // ---------------------------------------------------------------------

  lemma {:induction false} BlocksErrorStays(slips: seq<Slip>, ctx: Context, k: nat)
    requires k <= |slips|
    requires Blocks(slips[..k], ctx).Err?
    ensures Blocks(slips, ctx) == Blocks(slips[..k], ctx)
    decreases |slips| - k
  {
    if k < |slips| {
      assert slips[..k + 1][..k] == slips[..k];
      BlocksErrorStays(slips, ctx, k + 1);
    } else {
      assert slips[..k] == slips;
    }
  }

  lemma {:induction false} CategorySumAppend(cells: seq<Cell>, c: Cell, names: seq<string>)
    ensures CategorySum(cells + [c], names) == CategorySum(cells, names) + Share(names, c)
    decreases |cells|
  {
    if |cells| > 0 {
      assert (cells + [c])[1..] == cells[1..] + [c];
      CategorySumAppend(cells[1..], c, names);
    }
  }

  /** One more round of the pairs loop extends the pairs of a type list by
      its next type, until the list runs out. */
  lemma PairsPrefix(types: seq<string>, m: map<string, map<string, real>>, slip: string, i: nat)
    ensures var ps := Pairs(types, m, slip);
      ps[..Min(i + 1, |types|)]
        == ps[..Min(i, |types|)] + (if i < |types| then [Cell(types[i], AmountOf(m, slip, types[i]))] else [])
  {
    var ps := Pairs(types, m, slip);
    if i < |types| {
      assert ps[..i + 1] == ps[..i] + [ps[i]];
    }
  }

  /** The loop at the start of a slip that lists its (component, amount) pairs. */
  method PreparePairs(ss: Slip, ctx: Context) returns (earns: seq<Cell>, deducts: seq<Cell>)
    ensures earns == Pairs(ctx.earningTypes, ctx.earningMap, ss.name)
    ensures deducts == Pairs(ctx.dedTypes, ctx.dedMap, ss.name)
  {
    var j := ctx.LineCount();
    earns, deducts := [], [];
    var i := 0;
    while i < j
      invariant 0 <= i <= j
      invariant earns == Pairs(ctx.earningTypes, ctx.earningMap, ss.name)[..Min(i, |ctx.earningTypes|)]
      invariant deducts == Pairs(ctx.dedTypes, ctx.dedMap, ss.name)[..Min(i, |ctx.dedTypes|)]
    {
      PairsPrefix(ctx.earningTypes, ctx.earningMap, ss.name, i);
      PairsPrefix(ctx.dedTypes, ctx.dedMap, ss.name, i);
      if i < |ctx.earningTypes| {
        earns := earns + [Cell(ctx.earningTypes[i], AmountOf(ctx.earningMap, ss.name, ctx.earningTypes[i]))];
      }
      if i < |ctx.dedTypes| {
        deducts := deducts + [Cell(ctx.dedTypes[i], AmountOf(ctx.dedMap, ss.name, ctx.dedTypes[i]))];
      }
      i := i + 1;
    }
  }

  /** The five tallied components have different names (their lengths differ). */
  lemma CategoryNamesDiffer()
    ensures |SocialSecurity| == 18 && |IncomeTax| == 22 && |StudentLoan| == 10
    ensures |Penalties| == 2 && |Penalties[0]| == 19 && |Penalties[1]| == 12
  {
  }

  /** A single deduction adds its amount to the category it names, if any. */
  lemma TallyOne(d: Cell)
    ensures Tally([d]) == Totals(0.0, 0.0, Share([SocialSecurity], d), Share([IncomeTax], d),
                                 Share([StudentLoan], d), Share(Penalties, d))
  {
    CategorySumAppend([], d, [SocialSecurity]);
    CategorySumAppend([], d, [IncomeTax]);
    CategorySumAppend([], d, [StudentLoan]);
    CategorySumAppend([], d, Penalties);
    assert [] + [d] == [d];
  }

  lemma TallyAppend(cells: seq<Cell>, d: Cell)
    ensures Tally(cells + [d]) == Plus(Tally(cells), Tally([d]))
  {
    TallyOne(d);
    CategorySumAppend(cells, d, [SocialSecurity]);
    CategorySumAppend(cells, d, [IncomeTax]);
    CategorySumAppend(cells, d, [StudentLoan]);
    CategorySumAppend(cells, d, Penalties);
  }

  /** The additions of one deduction to the totals it is tallied in. */
  method TallyDeduction(t: Totals, d: Cell) returns (r: Totals)
    requires !(Tallied(d.component) && d.amount.None?)
    ensures r == Plus(t, Tally([d]))
  {
    CategoryNamesDiffer();
    TallyOne(d);
    r := t;
    if d.component == SocialSecurity {
      r := r.(sso := r.sso + d.amount.value);
    }
    if d.component == IncomeTax {
      r := r.(tax := r.tax + d.amount.value);
    }
    if d.component == StudentLoan {
      r := r.(edu := r.edu + d.amount.value);
    }
    if d.component in Penalties {
      r := r.(penalty := r.penalty + d.amount.value);
    }
  }

  lemma LinesNext(earns: seq<Cell>, deducts: seq<Cell>, i: nat)
    ensures Lines(earns, deducts, i + 1)
      == Lines(earns, deducts, i) + [Line(if i < |earns| then Some(earns[i]) else None,
                                          if i < |deducts| then Some(deducts[i]) else None)]
  {
  }

  /** The loop that creates a slip's line rows and adds the tallied
      deductions to the totals. */
  method EmitLines(data: seq<ReportRow>, totals: Totals, earns: seq<Cell>, deducts: seq<Cell>, n: nat)
      returns (r: Result<(seq<ReportRow>, Totals)>)
    requires |earns| <= n && |deducts| <= n
    ensures r == if MissingTallied(deducts) then Err(TypeError)
                 else Ok((data + Lines(earns, deducts, n), Plus(totals, Tally(deducts))))
  {
    var rows := data;
    var t := totals;
    var i := 0;
    while i < n
      invariant 0 <= i <= n
      invariant rows == data + Lines(earns, deducts, i)
      invariant t == Plus(totals, Tally(deducts[..Min(i, |deducts|)]))
      invariant !MissingTallied(deducts[..Min(i, |deducts|)])
    {
      var row := Line(if i < |earns| then Some(earns[i]) else None,
                      if i < |deducts| then Some(deducts[i]) else None);
      if i < |deducts| {
        var d := deducts[i];
        if Tallied(d.component) && d.amount.None? {
          return Err(TypeError);
        }
        t := TallyDeduction(t, d);
        assert deducts[..i + 1] == deducts[..i] + [d];
        TallyAppend(deducts[..i], d);
      }
      LinesNext(earns, deducts, i);
      rows := rows + [row];
      i := i + 1;
    }
    assert deducts[..Min(i, |deducts|)] == deducts;
    r := Ok((rows, t));
  }

  lemma PlusAssoc(a: Totals, b: Totals, c: Totals)
    ensures Plus(Plus(a, b), c) == Plus(a, Plus(b, c))
  {
  }

  /** A slip whose earnings or deductions cannot be sorted fails with `TypeError`. */
  lemma SlipBlockSortFails(ss: Slip, ctx: Context)
    requires SortByAmount(Pairs(ctx.earningTypes, ctx.earningMap, ss.name)).Err?
      || SortByAmount(Pairs(ctx.dedTypes, ctx.dedMap, ss.name)).Err?
    ensures SlipBlock(ss, ctx) == Err(TypeError)
  {
  }

  /** The block of a slip once its pairs are sorted; neither list is longer
      than the slip's line count. */
  lemma SlipBlockSorted(ss: Slip, ctx: Context, earns: seq<Cell>, deducts: seq<Cell>)
    requires SortByAmount(Pairs(ctx.earningTypes, ctx.earningMap, ss.name)) == Ok(earns)
    requires SortByAmount(Pairs(ctx.dedTypes, ctx.dedMap, ss.name)) == Ok(deducts)
    ensures |earns| <= ctx.LineCount() && |deducts| <= ctx.LineCount()
    ensures SlipBlock(ss, ctx)
      == if MissingTallied(deducts) then Err(TypeError)
         else Ok(Block([HeaderRow(ss, ctx)] + Lines(earns, deducts, ctx.LineCount()),
                       Plus(HeaderTotals(HeaderRow(ss, ctx)), Tally(deducts))))
  {
    assert |multiset(earns)| == |multiset(Pairs(ctx.earningTypes, ctx.earningMap, ss.name))|;
    assert |multiset(deducts)| == |multiset(Pairs(ctx.dedTypes, ctx.dedMap, ss.name))|;
  }

  /** One iteration of the loop over slips: the header row, the pairs of the
      slip sorted by amount, and its line rows. */
  method AppendSlip(ss: Slip, ctx: Context, data: seq<ReportRow>, totals: Totals)
      returns (r: Result<(seq<ReportRow>, Totals)>)
    ensures r == match SlipBlock(ss, ctx)
                 case Err(e) => Err(e)
                 case Ok(b) => Ok((data + b.rows, Plus(totals, b.totals)))
  {
    var header := HeaderRow(ss, ctx);
    var t := Plus(totals, HeaderTotals(header));
    var rows := data + [header];

    var earns, deducts := PreparePairs(ss, ctx);
    var sortedEarns := SortByAmount(earns);
    if sortedEarns.Err? {
      SlipBlockSortFails(ss, ctx);
      return Err(TypeError);
    }
    var sortedDeducts := SortByAmount(deducts);
    if sortedDeducts.Err? {
      SlipBlockSortFails(ss, ctx);
      return Err(TypeError);
    }
    var n := ctx.LineCount();
    SlipBlockSorted(ss, ctx, sortedEarns.value, sortedDeducts.value);
    r := EmitLines(rows, t, sortedEarns.value, sortedDeducts.value, n);
    PlusAssoc(totals, HeaderTotals(header), Tally(sortedDeducts.value));
    assert rows + Lines(sortedEarns.value, sortedDeducts.value, n)
        == data + ([header] + Lines(sortedEarns.value, sortedDeducts.value, n));
  }

  /** One more slip: its widening of the columns, and its block after the others. */
  lemma SlipLoopNext(slips: seq<Slip>, ctx: Context, columns: seq<Column>, k: nat)
    requires k < |slips| && |columns| > 5
    ensures ColumnsAfter(columns, slips[..k + 1]) == Widened(ColumnsAfter(columns, slips[..k]), slips[k])
    ensures Blocks(slips[..k + 1], ctx) == match Blocks(slips[..k], ctx)
      case Err(e) => Err(e)
      case Ok(done) => match SlipBlock(slips[k], ctx)
        case Err(e) => Err(e)
        case Ok(b) => Ok(Block(done.rows + b.rows, Plus(done.totals, b.totals)))
  {
    assert slips[..k + 1][..k] == slips[..k];
  }

  /** The loop over slips in `execute`: every slip widens the columns and
      contributes its rows and totals. */
  method SlipLoop(slips: seq<Slip>, ctx: Context, columns: array<Column>) returns (r: Result<Block>)
    requires columns.Length > 5
    modifies columns
    ensures r == Blocks(slips, ctx)
    ensures r.Ok? ==> columns[..] == ColumnsAfter(old(columns[..]), slips)
  {
    ghost var initial := columns[..];
    var data: seq<ReportRow> := [];
    var totals := NoTotals;
    var k := 0;
    while k < |slips|
      invariant 0 <= k <= |slips|
      invariant columns[..] == ColumnsAfter(initial, slips[..k])
      invariant Blocks(slips[..k], ctx) == Ok(Block(data, totals))
    {
      var ss := slips[k];
      SlipLoopNext(slips, ctx, initial, k);
      UpdateColumnWidth(ss, columns);
      var next := AppendSlip(ss, ctx, data, totals);
      if next.Err? {
        BlocksErrorStays(slips, ctx, k + 1);
        return Err(next.error);
      }
      data, totals := next.value.0, next.value.1;
      k := k + 1;
    }
    assert slips[..k] == slips;
    r := Ok(Block(data, totals));
  }

  /** The part of `execute` after the component types are known: the
      columns, the two detail maps and the loop over slips. */
  method BuildReport(inp: ReportInput, slips: seq<Slip>, types: (seq<string>, seq<string>)) returns (r: Result<Report>)
    ensures r == ReportFor(inp, slips, types)
  {
    var initial := GetColumns();
    var columns := new Column[|initial|](i requires 0 <= i < |initial| => initial[i]);
    assert columns[..] == initial;
    var currency := CurrencyFilter(inp.filters);
    var convert := currency == inp.companyCurrency;
    var earningMap := GetSalarySlipDetails(JoinDetails(inp.details, slips, "earnings"), convert);
    var dedMap := GetSalarySlipDetails(JoinDetails(inp.details, slips, "deductions"), convert);
    var ctx := Context(currency, inp.companyCurrency, inp.dateOfJoining, types.0, types.1,
                       earningMap, dedMap);
    assert ctx == ContextFor(inp, slips, types);
    var all := SlipLoop(slips, ctx, columns);
    assert all == Blocks(slips, ContextFor(inp, slips, types));
    if all.Err? {
      return Err(all.error);
    }
    assert columns[..] == ColumnsAfter(initial, slips);
    r := Ok(Report(columns[..], all.value.rows, Some(Message(all.value.totals))));
  }

  /** `execute`. */
  method Execute(inp: ReportInput) returns (r: Result<Report>)
    ensures r == ReportOf(inp)
  {
    var selected := SelectSlips(inp.slipTable, inp.filters, inp.companyCurrency);
    if selected.Err? {
      return Err(selected.error);
    }
    var slips := selected.value;
    if |slips| == 0 {
      return Ok(Report([], [], None));
    }
    var types := GetEarningAndDeductionTypes(SalaryComponents(inp.details, Names(slips)), inp.typeOf);
    if types.Err? {
      return Err(types.error);
    }
    r := BuildReport(inp, slips, types.value);
  }
}
