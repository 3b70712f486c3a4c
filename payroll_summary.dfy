/** `get_payroll_summary_by_component` (ramasri_hrms/utils.py), which feeds
    the printed Payroll Entry summary: the amounts of one payroll entry,
    summed per salary component and split into earnings and deductions,
    each section with a running `total`, and a header with the entry's name,
    posting date, Thai month name and Buddhist-Era year. With `prev = k > 0`
    it summarises the k-th most recent earlier entry instead.

    The two queries are modelled by their results: the Payroll Entry table
    is a sequence, and the aggregated rows of an entry are given by a
    function of its name. */
module PayrollSummary {
  import opened Common
  import opened Ordering

  // ---------------------------------------------------------------------
  // Records
  // ---------------------------------------------------------------------

  /** A Payroll Entry with the fields the function reads; dates are day numbers. */
  datatype PayrollEntry = PayrollEntry(name: string, startDate: int, docstatus: int)

  type Month = m: int | 1 <= m <= 12 witness 1

  datatype Date = Date(year: int, month: Month, day: int)

  /** A row of the aggregating query: the entry's posting date, the section
      (the salary detail's `parentfield`), the component and its summed amount. */
  datatype SummaryRow = SummaryRow(postingDate: Date, section: string, component: string, amount: real)

  /** One key of a Python dictionary; a dictionary is a sequence of items in
      insertion order. */
  datatype Item = Item(key: string, value: real)

  /** The `payroll_entry` part of the result; `None` stands for `False`. */
  datatype EntryInfo = EntryInfo(name: string, postingDate: Option<Date>, month: Option<string>, year: Option<int>)

  /** The result dictionary. */
  datatype Summary = Summary(entry: EntryInfo, earnings: seq<Item>, deductions: seq<Item>)

  // ---------------------------------------------------------------------
  // Dictionaries in insertion order
  // ---------------------------------------------------------------------

  function Keys(d: seq<Item>): seq<string> {
    seq(|d|, i requires 0 <= i < |d| => d[i].key)
  }

  /** `d.get(k)`: the value of the first item with key `k`. */
  function Get(d: seq<Item>, k: string): Option<real>
    decreases |d|
  {
    if |d| == 0 then None
    else if d[0].key == k then Some(d[0].value)
    else Get(d[1..], k)
  }

  /** `d[k] = v`: replaces the value of an existing key in place, or appends
      a new key at the end. */
  function Put(d: seq<Item>, k: string, v: real): seq<Item>
    decreases |d|
  {
    if |d| == 0 then [Item(k, v)]
    else if d[0].key == k then [Item(k, v)] + d[1..]
    else [d[0]] + Put(d[1..], k, v)
  }

  lemma KeysCons(x: Item, d: seq<Item>)
    ensures Keys([x] + d) == [x.key] + Keys(d)
  {
  }

  /** `d.get(k)` finds exactly the keys of `d`. */
  lemma {:induction false} GetFinds(d: seq<Item>, k: string)
    ensures Get(d, k).Some? <==> k in Keys(d)
    decreases |d|
  {
    if |d| > 0 {
      assert d == [d[0]] + d[1..];
      KeysCons(d[0], d[1..]);
      GetFinds(d[1..], k);
    }
  }

  lemma {:induction false} PutGet(d: seq<Item>, k: string, v: real)
    ensures Get(Put(d, k, v), k) == Some(v)
    decreases |d|
  {
    if |d| > 0 && d[0].key != k {
      PutGet(d[1..], k, v);
    }
  }

  lemma {:induction false} PutOther(d: seq<Item>, k: string, v: real, k': string)
    requires k' != k
    ensures Get(Put(d, k, v), k') == Get(d, k')
    decreases |d|
  {
    if |d| > 0 && d[0].key != k {
      PutOther(d[1..], k, v, k');
    }
  }

  lemma PutOthers(d: seq<Item>, k: string, v: real)
    ensures forall k' :: k' != k ==> Get(Put(d, k, v), k') == Get(d, k')
  {
    forall k' | k' != k
      ensures Get(Put(d, k, v), k') == Get(d, k')
    {
      PutOther(d, k, v, k');
    }
  }

  lemma {:induction false} PutPlace(d: seq<Item>, k: string, v: real)
    ensures k in Keys(d) ==> Keys(Put(d, k, v)) == Keys(d)
    ensures k !in Keys(d) ==> Put(d, k, v) == d + [Item(k, v)]
    decreases |d|
  {
    if |d| > 0 {
      assert d == [d[0]] + d[1..];
      KeysCons(d[0], d[1..]);
      if d[0].key == k {
        KeysCons(Item(k, v), d[1..]);
      } else {
        PutPlace(d[1..], k, v);
        KeysCons(d[0], Put(d[1..], k, v));
        if k !in Keys(d[1..]) {
          assert [d[0]] + (d[1..] + [Item(k, v)]) == d + [Item(k, v)];
        }
      }
    }
  }

  /** After `d[k] = v`, `k` maps to `v` and every other key keeps its value;
      an existing key keeps its place and a new key goes at the end. */
  lemma PutSpec(d: seq<Item>, k: string, v: real)
    ensures Get(Put(d, k, v), k) == Some(v)
    ensures forall k' :: k' != k ==> Get(Put(d, k, v), k') == Get(d, k')
    ensures k in Keys(d) ==> Keys(Put(d, k, v)) == Keys(d)
    ensures k !in Keys(d) ==> Put(d, k, v) == d + [Item(k, v)]
  {
    PutGet(d, k, v);
    PutOthers(d, k, v);
    PutPlace(d, k, v);
  }

  // ---------------------------------------------------------------------
  // The previous payroll entry
  // ---------------------------------------------------------------------

  /** The entries the query for previous entries considers: not cancelled,
      and started strictly before `current`. */
  function Earlier(table: seq<PayrollEntry>, current: PayrollEntry): seq<PayrollEntry> {
    Filter((e: PayrollEntry) => Eligible(e, current), table)
  }

  function StartKey(e: PayrollEntry): real {
    e.startDate as real
  }

  /** `order_by="start_date desc"`: most recent first. */
  function Listing(table: seq<PayrollEntry>, current: PayrollEntry): seq<PayrollEntry> {
    SortDesc(StartKey, Earlier(table, current))
  }

  /** Python's `s[a:b]` for `0 <= a`, `0 <= b`: the bounds are clamped to the length. */
  function Slice<T>(s: seq<T>, a: nat, b: nat): (r: seq<T>)
    ensures a <= b <= |s| ==> r == s[a..b]
    ensures a <= |s| < b ==> r == s[a..]
    ensures |s| <= a || b < a ==> r == []
  {
    var lo := Min(a, |s|);
    var hi := Min(b, |s|);
    if lo <= hi then s[lo..hi] else []
  }

  /** The entry `prev` places back: `prev_docs[prev-1:prev]` of the first
      `prev` entries of the listing (`limit=prev`), or none. */
  function PreviousEntry(table: seq<PayrollEntry>, current: PayrollEntry, prev: nat): Option<PayrollEntry>
    requires prev > 0
  {
    var listing := Listing(table, current);
    var prevDocs := listing[..Min(prev, |listing|)];
    var prevDoc := Slice(prevDocs, prev - 1, prev);
    if |prevDoc| == 0 then None else Some(prevDoc[0])
  }

  predicate Eligible(e: PayrollEntry, current: PayrollEntry) {
    e.docstatus != 2 && e.startDate < current.startDate
  }

  /** The listing is the earlier entries, most recent first. */
  lemma ListingFacts(table: seq<PayrollEntry>, current: PayrollEntry)
    ensures var listing := Listing(table, current);
      && SortedDesc(StartKey, listing)
      && multiset(listing) == multiset(Earlier(table, current))
      && |listing| == |Earlier(table, current)|
      && forall e :: e in listing <==> e in table && Eligible(e, current)
  {
    var earlier := Earlier(table, current);
    var listing := Listing(table, current);
    SortDescSorted(StartKey, earlier);
    assert |multiset(listing)| == |multiset(earlier)|;
    forall e
      ensures e in listing <==> e in table && Eligible(e, current)
    {
      assert e in listing <==> e in multiset(listing);
      assert e in earlier <==> e in multiset(earlier);
    }
  }

  /** `prev_docs[prev-1:prev]` is the `prev`-th entry of the listing, if any. */
  lemma PreviousEntryAt(table: seq<PayrollEntry>, current: PayrollEntry, k: nat)
    requires k > 0
    ensures var listing := Listing(table, current);
      PreviousEntry(table, current, k) == if k <= |listing| then Some(listing[k - 1]) else None
  {
    var listing := Listing(table, current);
    var prevDocs := listing[..Min(k, |listing|)];
    if k <= |listing| {
      assert Slice(prevDocs, k - 1, k) == [listing[k - 1]];
    } else {
      assert Slice(prevDocs, k - 1, k) == [];
    }
  }

  /** With `prev = k > 0` the entry summarised is the k-th entry of the
      listing of earlier, non-cancelled entries, most recent first; there is
      none exactly when fewer than k such entries exist. */
  lemma PreviousEntryIsKth(table: seq<PayrollEntry>, current: PayrollEntry, k: nat)
    requires k > 0
    ensures PreviousEntry(table, current, k).None? <==> |Earlier(table, current)| < k
    ensures PreviousEntry(table, current, k).Some? ==>
      var listing := Listing(table, current);
      var e := PreviousEntry(table, current, k).value;
      && SortedDesc(StartKey, listing)
      && multiset(listing) == multiset(Earlier(table, current))
      && e == listing[k - 1]
      && e in table && Eligible(e, current)
  {
    ListingFacts(table, current);
    PreviousEntryAt(table, current, k);
    var listing := Listing(table, current);
    if k <= |listing| {
      assert listing[k - 1] in listing;
    }
  }

  // ---------------------------------------------------------------------
  // Month and year
  // ---------------------------------------------------------------------

  /** The month names, indexed by month number; index 0 is a placeholder. */
  const ThaiMonths: seq<string> := ["x", "มกราคม", "กุมภาพันธ์", "มีนาคม", "เมษายน", "พฤษภาคม",
    "มิถุนายน", "กรกฎาคม", "สิงหาคม", "กันยายน", "ตุลาคม", "พฤศจิกายน", "ธันวาคม"]

  /** The twelve names and the placeholder are pairwise different. */
  lemma MonthNamesDistinct()
    ensures Distinct(ThaiMonths)
  {
  }

  /** Different months get different names. */
  lemma MonthNameInjective(m1: Month, m2: Month)
    requires m1 != m2
    ensures MonthName(m1) != MonthName(m2)
  {
    MonthNamesDistinct();
    if m1 < m2 {
      assert ThaiMonths[m1] != ThaiMonths[m2];
    } else {
      assert ThaiMonths[m2] != ThaiMonths[m1];
    }
  }

  /** The Thai name of month `m`: January is มกราคม, December ธันวาคม, and
      the placeholder is never returned. */
  function MonthName(m: Month): (r: string)
    ensures r == ThaiMonths[m]
    ensures r in ThaiMonths[1..] && r != "x"
    ensures m == 1 ==> r == "มกราคม"
    ensures m == 12 ==> r == "ธันวาคม"
  {
    ThaiMonths[m]
  }

  /** The year of the Buddhist Era, 543 years ahead of the Gregorian year. */
  function BuddhistYear(y: int): (r: int)
    ensures r - 543 == y
  {
    y + 543
  }

  // ---------------------------------------------------------------------
  // The result
  // ---------------------------------------------------------------------

  const Skeleton: seq<Item> := [Item("total", 0.0)]

  /** The header: the date, month and year come from the first row; they stay
      `False` when there are no rows. */
  function Info(entry: PayrollEntry, rows: seq<SummaryRow>): EntryInfo {
    if |rows| == 0 then EntryInfo(entry.name, None, None, None)
    else
      var date := rows[0].postingDate;
      EntryInfo(entry.name, Some(date), Some(MonthName(date.month)), Some(BuddhistYear(date.year)))
  }

  predicate HasTotal(d: seq<Item>) {
    Get(d, "total").Some?
  }

  /** `res[section][component] = amount`, then `res[section]["total"] += amount`. */
  function AddRow(d: seq<Item>, component: string, amount: real): (r: seq<Item>)
    requires HasTotal(d)
    ensures component != "total" ==> Get(r, component) == Some(amount)
    ensures component != "total" ==> Get(r, "total") == Some(Get(d, "total").value + amount)
    ensures component == "total" ==> Get(r, "total") == Some(amount + amount)
    ensures forall k :: k != component && k != "total" ==> Get(r, k) == Get(d, k)
  {
    var d1 := Put(d, component, amount);
    PutGet(d, component, amount);
    PutOthers(d, component, amount);
    var t := Get(d1, "total").value + amount;
    PutGet(d1, "total", t);
    PutOthers(d1, "total", t);
    Put(d1, "total", t)
  }

  /** The error of a row whose section is not a section of the result: the
      header dictionary has no `total`, any other name is a missing key. */
  function SectionError(section: string): Error {
    if section == "payroll_entry" then KeyError("total") else KeyError(section)
  }

  /** The two sections after the loop over `rows`, or the `KeyError` of the
      first row with an unknown section. */
  function Sections(rows: seq<SummaryRow>): (r: Result<(seq<Item>, seq<Item>)>)
    ensures r.Ok? ==> HasTotal(r.value.0) && HasTotal(r.value.1)
    decreases |rows|
  {
    if |rows| == 0 then
      assert Get(Skeleton, "total") == Some(0.0);
      Ok((Skeleton, Skeleton))
    else
      var s :- Sections(rows[..|rows| - 1]);
      var row := rows[|rows| - 1];
      if row.section == "earnings" then Ok((AddRow(s.0, row.component, row.amount), s.1))
      else if row.section == "deductions" then Ok((s.0, AddRow(s.1, row.component, row.amount)))
      else Err(SectionError(row.section))
  }

  /** The summary of one payroll entry with the given aggregated rows. */
  function SummaryOf(entry: PayrollEntry, rows: seq<SummaryRow>): (r: Result<Summary>)
    ensures |rows| == 0 ==> r == Ok(Summary(EntryInfo(entry.name, None, None, None), [Item("total", 0.0)], [Item("total", 0.0)]))
  {
    var s :- Sections(rows);
    Ok(Summary(Info(entry, rows), s.0, s.1))
  }

  /** `get_payroll_summary_by_component`; `None` is the empty dictionary. */
  function PayrollSummaryOf(table: seq<PayrollEntry>, current: PayrollEntry, prev: nat,
                            rowsOf: string -> seq<SummaryRow>): Result<Option<Summary>> {
    if prev > 0 then
      match PreviousEntry(table, current, prev)
      case None => Ok(None)
      case Some(e) =>
        var s :- SummaryOf(e, rowsOf(e.name));
        Ok(Some(s))
    else
      var s :- SummaryOf(current, rowsOf(current.name));
      Ok(Some(s))
  }

  // ---------------------------------------------------------------------
  // The imperative code
  // ---------------------------------------------------------------------

  lemma {:induction false} SectionsErrorStays(rows: seq<SummaryRow>, i: nat)
    requires i <= |rows|
    requires Sections(rows[..i]).Err?
    ensures Sections(rows) == Sections(rows[..i])
    decreases |rows| - i
  {
    if i < |rows| {
      assert rows[..i + 1][..i] == rows[..i];
      SectionsErrorStays(rows, i + 1);
    } else {
      assert rows[..i] == rows;
    }
  }

  lemma SectionsNext(rows: seq<SummaryRow>, i: nat)
    requires i < |rows|
    ensures Sections(rows[..i + 1]) == match Sections(rows[..i])
      case Err(e) => Err(e)
      case Ok(s) =>
        if rows[i].section == "earnings" then Ok((AddRow(s.0, rows[i].component, rows[i].amount), s.1))
        else if rows[i].section == "deductions" then Ok((s.0, AddRow(s.1, rows[i].component, rows[i].amount)))
        else Err(SectionError(rows[i].section))
  {
    assert rows[..i + 1][..i] == rows[..i];
  }

  /** The skeleton of the result, the header from the first row, and the
      loop over the rows. */
  method Summarise(entry: PayrollEntry, rows: seq<SummaryRow>) returns (r: Result<Summary>)
    ensures r == SummaryOf(entry, rows)
  {
    var info := EntryInfo(entry.name, None, None, None);
    var earnings := Skeleton;
    var deductions := Skeleton;
    if |rows| > 0 {
      var date := rows[0].postingDate;
      info := info.(postingDate := Some(date));
      info := info.(month := Some(MonthName(date.month)));
      info := info.(year := Some(BuddhistYear(date.year)));
    }
    assert info == Info(entry, rows);
    var i := 0;
    while i < |rows|
      invariant 0 <= i <= |rows|
      invariant Sections(rows[..i]) == Ok((earnings, deductions))
    {
      var row := rows[i];
      SectionsNext(rows, i);
      if row.section == "earnings" {
        earnings := AddRow(earnings, row.component, row.amount);
      } else if row.section == "deductions" {
        deductions := AddRow(deductions, row.component, row.amount);
      } else {
        SectionsErrorStays(rows, i + 1);
        return Err(SectionError(row.section));
      }
      i := i + 1;
    }
    assert rows[..i] == rows;
    assert Sections(rows) == Ok((earnings, deductions));
    r := Ok(Summary(info, earnings, deductions));
  }

  /** `get_payroll_summary_by_component`. */
  method GetPayrollSummaryByComponent(table: seq<PayrollEntry>, current: PayrollEntry, prev: nat,
                                      rowsOf: string -> seq<SummaryRow>)
      returns (r: Result<Option<Summary>>)
    ensures r == PayrollSummaryOf(table, current, prev, rowsOf)
  {
    var entry := current;
    if prev > 0 {
      var listing := Listing(table, current);
      var prevDocs := listing[..Min(prev, |listing|)];
      var prevDoc := Slice(prevDocs, prev - 1, prev);
      if |prevDoc| == 0 {
        return Ok(None);
      }
      entry := prevDoc[0];
    }
    var s := Summarise(entry, rowsOf(entry.name));
    if s.Err? {
      return Err(s.error);
    }
    r := Ok(Some(s.value));
  }
}
