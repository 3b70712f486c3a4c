/** What `get_payroll_summary_by_component` promises about each section of
    its result: which rows make it fail, that `total` is the sum of the
    section's amounts, that a component holds the amount of its last row,
    and that with the order the query asks for the components follow
    `total` largest amount first. */
module PayrollSummaryProperties {
  import opened Common
  import opened Ordering
  import opened PayrollSummary

  predicate KnownSection(section: string) {
    section == "earnings" || section == "deductions"
  }

  /** The section `sec` of the two sections the loop builds. */
  function SectionOf(s: (seq<Item>, seq<Item>), sec: string): seq<Item> {
    if sec == "earnings" then s.0 else s.1
  }

  /** The rows of section `sec`, in order. */
  function SectionRows(rows: seq<SummaryRow>, sec: string): seq<SummaryRow>
    decreases |rows|
  {
    if |rows| == 0 then []
    else
      var row := rows[|rows| - 1];
      SectionRows(rows[..|rows| - 1], sec) + (if row.section == sec then [row] else [])
  }

  /** The dictionary after `res[section][component] = amount` and
      `res[section]["total"] += amount` for each row in turn. */
  function AddAll(d: seq<Item>, rs: seq<SummaryRow>): (r: seq<Item>)
    requires HasTotal(d)
    ensures HasTotal(r)
    decreases |rs|
  {
    if |rs| == 0 then d
    else
      var last := rs[|rs| - 1];
      var r := AddRow(AddAll(d, rs[..|rs| - 1]), last.component, last.amount);
      r
  }

  /** The loop fails exactly when some row's section is neither `earnings`
      nor `deductions`. */
  lemma {:induction false} SectionsFail(rows: seq<SummaryRow>)
    ensures Sections(rows).Err? <==> exists i :: 0 <= i < |rows| && !KnownSection(rows[i].section)
    decreases |rows|
  {
    if |rows| > 0 {
      var n := |rows| - 1;
      var prefix := rows[..n];
      SectionsFail(prefix);
      SectionsErrStep(rows);
      if Sections(prefix).Err? {
        var i :| 0 <= i < n && !KnownSection(prefix[i].section);
        assert rows[i] == prefix[i];
      } else if KnownSection(rows[n].section) {
        forall i | 0 <= i < |rows|
          ensures KnownSection(rows[i].section)
        {
          if i < n {
            assert rows[i] == prefix[i];
          }
        }
      }
    }
  }

  /** One more row fails the loop if the rows before it did or its section is unknown. */
  lemma SectionsErrStep(rows: seq<SummaryRow>)
    requires |rows| > 0
    ensures Sections(rows).Err? <==>
      Sections(rows[..|rows| - 1]).Err? || !KnownSection(rows[|rows| - 1].section)
  {
  }

  /** The error is the `KeyError` of the first row with an unknown section. */
  lemma SectionsFirstError(rows: seq<SummaryRow>, i: nat)
    requires i < |rows| && !KnownSection(rows[i].section)
    requires forall j :: 0 <= j < i ==> KnownSection(rows[j].section)
    ensures Sections(rows) == Err(SectionError(rows[i].section))
  {
    SectionsFail(rows[..i]);
    SectionsNext(rows, i);
    SectionsErrorStays(rows, i + 1);
  }

  /** Each section is built from that section's rows alone, in order. */
  lemma {:induction false} SectionsBySection(rows: seq<SummaryRow>, sec: string)
    requires KnownSection(sec)
    requires Sections(rows).Ok?
    ensures SectionOf(Sections(rows).value, sec) == AddAll(Skeleton, SectionRows(rows, sec))
    decreases |rows|
  {
    assert Get(Skeleton, "total") == Some(0.0);
    if |rows| > 0 {
      var prefix := rows[..|rows| - 1];
      var row := rows[|rows| - 1];
      SectionsBySection(prefix, sec);
      var srs := SectionRows(prefix, sec);
      if row.section == sec {
        assert (srs + [row])[..|srs|] == srs;
      } else {
        assert srs + [] == srs;
      }
    }
  }

  // ---------------------------------------------------------------------
  // One section
  // ---------------------------------------------------------------------

  function Sum(rs: seq<SummaryRow>): real
    decreases |rs|
  {
    if |rs| == 0 then 0.0 else Sum(rs[..|rs| - 1]) + rs[|rs| - 1].amount
  }

  /** The amount of the last row for component `c`, if any. */
  function LastAmount(rs: seq<SummaryRow>, c: string): Option<real>
    decreases |rs|
  {
    if |rs| == 0 then None
    else if rs[|rs| - 1].component == c then Some(rs[|rs| - 1].amount)
    else LastAmount(rs[..|rs| - 1], c)
  }

  predicate NoTotalComponent(rs: seq<SummaryRow>) {
    forall i :: 0 <= i < |rs| ==> rs[i].component != "total"
  }

  function Components(rs: seq<SummaryRow>): seq<string> {
    seq(|rs|, i requires 0 <= i < |rs| => rs[i].component)
  }

  /** The items the rows write, in order. */
  function Items(rs: seq<SummaryRow>): seq<Item> {
    seq(|rs|, i requires 0 <= i < |rs| => Item(rs[i].component, rs[i].amount))
  }

  /** `total` is the sum of the section's amounts, unless a component is
      itself named `total` (its assignment then overwrites the running sum). */
  lemma {:induction false} TotalIsSum(rs: seq<SummaryRow>)
    requires NoTotalComponent(rs)
    ensures Get(AddAll(Skeleton, rs), "total") == Some(Sum(rs))
    decreases |rs|
  {
    assert Get(Skeleton, "total") == Some(0.0);
    if |rs| > 0 {
      TotalIsSum(rs[..|rs| - 1]);
    }
  }

  /** A component other than `total` holds the amount of its last row, and
      is absent when no row names it. */
  lemma {:induction false} LastAmountWins(rs: seq<SummaryRow>, c: string)
    requires c != "total"
    ensures Get(AddAll(Skeleton, rs), c) == LastAmount(rs, c)
    decreases |rs|
  {
    if |rs| == 0 {
      assert Get(Skeleton, "total") == Some(0.0);
    } else {
      LastAmountWins(rs[..|rs| - 1], c);
    }
  }

  /** A new component goes at the end, and `total`, the first key, grows by its amount. */
  lemma AddNewComponent(sum: real, items: seq<Item>, c: string, a: real)
    requires c != "total" && c !in Keys(items)
    ensures AddRow([Item("total", sum)] + items, c, a) == [Item("total", sum + a)] + (items + [Item(c, a)])
  {
    var d := [Item("total", sum)] + items;
    assert Keys(d) == ["total"] + Keys(items);
    PutSpec(d, c, a);
    var d1 := d + [Item(c, a)];
    assert d1 == [Item("total", sum)] + (items + [Item(c, a)]);
  }

  /** The last row's component is not among the earlier rows' keys. */
  lemma NewComponent(rs: seq<SummaryRow>)
    requires |rs| > 0 && Distinct(Components(rs))
    ensures Distinct(Components(rs[..|rs| - 1]))
    ensures rs[|rs| - 1].component !in Keys(Items(rs[..|rs| - 1]))
  {
    var n := |rs| - 1;
    assert Components(rs[..n]) == Components(rs)[..n];
    forall i | 0 <= i < n
      ensures Keys(Items(rs[..n]))[i] != rs[n].component
    {
      assert Components(rs)[i] != Components(rs)[n];
    }
  }

  lemma ItemsSnoc(rs: seq<SummaryRow>)
    requires |rs| > 0
    ensures Items(rs) == Items(rs[..|rs| - 1]) + [Item(rs[|rs| - 1].component, rs[|rs| - 1].amount)]
  {
  }

  /** With distinct components, none named `total`, the section is `total`
      (the sum) followed by one item per row, in row order. */
  lemma {:induction false} SectionLayout(rs: seq<SummaryRow>)
    requires NoTotalComponent(rs)
    requires Distinct(Components(rs))
    ensures AddAll(Skeleton, rs) == [Item("total", Sum(rs))] + Items(rs)
    decreases |rs|
  {
    assert Get(Skeleton, "total") == Some(0.0);
    if |rs| > 0 {
      var n := |rs| - 1;
      var prefix := rs[..n];
      var last := rs[n];
      NewComponent(rs);
      SectionLayout(prefix);
      AddNewComponent(Sum(prefix), Items(prefix), last.component, last.amount);
      ItemsSnoc(rs);
    }
  }

  /** Rows in non-increasing amount order give a section whose components
      follow `total` in non-increasing amount order. */
  lemma SectionOrder(rs: seq<SummaryRow>)
    requires NoTotalComponent(rs)
    requires Distinct(Components(rs))
    requires forall i, j :: 0 <= i < j < |rs| ==> rs[i].amount >= rs[j].amount
    ensures var d := AddAll(Skeleton, rs);
      && |d| == 1 + |rs| && d[0].key == "total"
      && forall i, j :: 1 <= i < j < |d| ==> d[i].value >= d[j].value
  {
    SectionLayout(rs);
  }

  // ---------------------------------------------------------------------
  // The result
  // ---------------------------------------------------------------------

  /** The summary of an entry: without rows both sections are `total = 0`
      and the date, month and year stay unset; otherwise they come from the
      first row (the Thai month name, the Buddhist-Era year). Each section
      holds its rows' total and each component's last amount. */
  lemma SummaryContents(entry: PayrollEntry, rows: seq<SummaryRow>, sec: string)
    requires KnownSection(sec)
    ensures SummaryOf(entry, rows).Ok? ==>
      var s := SummaryOf(entry, rows).value;
      var d := if sec == "earnings" then s.earnings else s.deductions;
      && s.entry.name == entry.name
      && (|rows| == 0 ==> s.entry == EntryInfo(entry.name, None, None, None) && d == [Item("total", 0.0)])
      && (|rows| > 0 ==> s.entry.postingDate == Some(rows[0].postingDate)
                         && s.entry.month == Some(ThaiMonths[rows[0].postingDate.month])
                         && s.entry.year == Some(rows[0].postingDate.year + 543))
      && (NoTotalComponent(SectionRows(rows, sec)) ==> Get(d, "total") == Some(Sum(SectionRows(rows, sec))))
      && forall c :: c != "total" ==> Get(d, c) == LastAmount(SectionRows(rows, sec), c)
  {
    if Sections(rows).Ok? {
      SectionsBySection(rows, sec);
      var srs := SectionRows(rows, sec);
      if NoTotalComponent(srs) {
        TotalIsSum(srs);
      }
      forall c | c != "total"
        ensures Get(AddAll(Skeleton, srs), c) == LastAmount(srs, c)
      {
        LastAmountWins(srs, c);
      }
    }
  }

  /** The entry summarised: the given one when `prev` is 0; otherwise the
      `prev`-th most recent earlier, non-cancelled entry, and the empty
      result when there are fewer than `prev` of them. */
  lemma SummarisedEntry(table: seq<PayrollEntry>, current: PayrollEntry, prev: nat,
                        rowsOf: string -> seq<SummaryRow>)
    ensures prev == 0 ==>
      PayrollSummaryOf(table, current, prev, rowsOf)
        == (match SummaryOf(current, rowsOf(current.name)) case Ok(s) => Ok(Some(s)) case Err(e) => Err(e))
    ensures prev > 0 ==>
      (PayrollSummaryOf(table, current, prev, rowsOf) == Ok(None) <==> |Earlier(table, current)| < prev)
    ensures prev > 0 && prev <= |Earlier(table, current)| ==>
      var e := Listing(table, current)[prev - 1];
      && e in table && Eligible(e, current)
      && PayrollSummaryOf(table, current, prev, rowsOf)
           == (match SummaryOf(e, rowsOf(e.name)) case Ok(s) => Ok(Some(s)) case Err(err) => Err(err))
  {
    if prev > 0 {
      PreviousEntryIsKth(table, current, prev);
    }
  }
}
