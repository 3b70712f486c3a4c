/** What the Salary Register Summary report promises about its output: how
    components are split by type, how the column widths follow the slips,
    the shape of each slip's block of rows, when a slip makes the report
    fail, and that the summary card adds up the slips' own figures whatever
    order the rows were sorted into. */
module SalaryRegisterProperties {
  import opened Common
  import opened Ordering
  import opened SalaryRegister

  // ---------------------------------------------------------------------
  // Earning and deduction types
  // ---------------------------------------------------------------------

  predicate KnownType(t: string) {
    t == "Earning" || t == "Deduction"
  }

  lemma {:induction false} SplitByTypeParts(components: seq<string>, typeOf: string -> string)
    ensures SplitByType(components, typeOf).Err? <==> exists c :: c in components && !KnownType(typeOf(c))
    ensures SplitByType(components, typeOf).Ok? ==>
      var (e, d) := SplitByType(components, typeOf).value;
      && (forall c :: c in e <==> c in components && typeOf(c) == "Earning")
      && (forall c :: c in d <==> c in components && typeOf(c) == "Deduction")
      && multiset(e) + multiset(d) == multiset(components)
    decreases |components|
  {
    if |components| > 0 {
      var prefix := components[..|components| - 1];
      var c := components[|components| - 1];
      assert components == prefix + [c];
      SplitByTypeParts(prefix, typeOf);
    }
  }

  /** `get_earning_and_deduction_types` fails exactly when some component
      has a type other than Earning or Deduction; otherwise it returns each
      component under its own type, every component exactly as often as it
      was listed, both lists in ascending order. */
  lemma TypesPartition(components: seq<string>, typeOf: string -> string)
    ensures EarningAndDeductionTypes(components, typeOf).Err? <==> exists c :: c in components && !KnownType(typeOf(c))
    ensures EarningAndDeductionTypes(components, typeOf).Ok? ==>
      var (e, d) := EarningAndDeductionTypes(components, typeOf).value;
      && SortedAsc(e) && SortedAsc(d)
      && (forall c :: c in e <==> c in components && typeOf(c) == "Earning")
      && (forall c :: c in d <==> c in components && typeOf(c) == "Deduction")
      && multiset(e) + multiset(d) == multiset(components)
  {
    SplitByTypeParts(components, typeOf);
    var split := SplitByType(components, typeOf);
    if split.Ok? {
      var (e, d) := split.value;
      SortAscSorted(e);
      SortAscSorted(d);
      forall c
        ensures c in SortAsc(e) <==> c in e
        ensures c in SortAsc(d) <==> c in d
      {
        assert c in SortAsc(e) <==> c in multiset(SortAsc(e));
        assert c in SortAsc(d) <==> c in multiset(SortAsc(d));
      }
    }
  }

  // ---------------------------------------------------------------------
  // Column widths
  // ---------------------------------------------------------------------

  /** After the loop over slips, the Department column is 120 wide exactly
      when some slip has a department (even an empty one) and keeps its
      initial width otherwise; likewise Designation; no other column changes. */
  lemma {:induction false} ColumnWidths(columns: seq<Column>, slips: seq<Slip>)
    requires |columns| > 5
    ensures var r := ColumnsAfter(columns, slips);
      && r[4] == (if exists ss :: ss in slips && ss.department.Some? then columns[4].(width := Some(120)) else columns[4])
      && r[5] == (if exists ss :: ss in slips && ss.designation.Some? then columns[5].(width := Some(120)) else columns[5])
      && forall i :: 0 <= i < |columns| && i != 4 && i != 5 ==> r[i] == columns[i]
    decreases |slips|
  {
    if |slips| > 0 {
      var prefix := slips[..|slips| - 1];
      assert slips == prefix + [slips[|slips| - 1]];
      ColumnWidths(columns, prefix);
    }
  }

  /** The report's own columns: Department and Designation start hidden
      (width -1) and are widened to 120 by the first slip that has one. */
  lemma ReportColumnWidths(slips: seq<Slip>)
    ensures var r := ColumnsAfter(GetColumns(), slips);
      && |r| == 14
      && r[4].width == (if exists ss :: ss in slips && ss.department.Some? then Some(120) else Some(-1))
      && r[5].width == (if exists ss :: ss in slips && ss.designation.Some? then Some(120) else Some(-1))
      && forall i :: 0 <= i < 14 && i != 4 && i != 5 ==> r[i] == GetColumns()[i]
  {
    ColumnWidths(GetColumns(), slips);
  }

  // ---------------------------------------------------------------------
  // When a slip makes the report fail
  // ---------------------------------------------------------------------

  /** Some component of `types` has no amount on the slip. */
  predicate Lacks(types: seq<string>, m: map<string, map<string, real>>, slip: string) {
    exists c :: c in types && AmountOf(m, slip, c).None?
  }

  /** Some tallied deduction of `types` has no amount on the slip. */
  predicate LacksTallied(types: seq<string>, m: map<string, map<string, real>>, slip: string) {
    exists c :: c in types && Tallied(c) && AmountOf(m, slip, c).None?
  }

  lemma PairsMissing(types: seq<string>, m: map<string, map<string, real>>, slip: string)
    ensures HasMissing(Pairs(types, m, slip)) <==> Lacks(types, m, slip)
    ensures MissingTallied(Pairs(types, m, slip)) <==> LacksTallied(types, m, slip)
  {
    var cells := Pairs(types, m, slip);
    if Lacks(types, m, slip) {
      var c :| c in types && AmountOf(m, slip, c).None?;
      var i :| 0 <= i < |types| && types[i] == c;
      assert cells[i].amount.None?;
    }
    if LacksTallied(types, m, slip) {
      var c :| c in types && Tallied(c) && AmountOf(m, slip, c).None?;
      var i :| 0 <= i < |types| && types[i] == c;
      assert cells[i].amount.None? && Tallied(cells[i].component);
    }
  }

  /** A permutation of the cells lacks a tallied amount exactly when they do. */
  lemma MissingTalliedPermutation(a: seq<Cell>, b: seq<Cell>)
    requires multiset(a) == multiset(b)
    ensures MissingTallied(a) <==> MissingTallied(b)
  {
    if MissingTallied(a) {
      var i :| 0 <= i < |a| && Tallied(a[i].component) && a[i].amount.None?;
      assert a[i] in multiset(b);
      var j :| 0 <= j < |b| && b[j] == a[i];
    }
    if MissingTallied(b) {
      var j :| 0 <= j < |b| && Tallied(b[j].component) && b[j].amount.None?;
      assert b[j] in multiset(a);
      var i :| 0 <= i < |a| && a[i] == b[j];
    }
  }

  /** A slip's rows can be built exactly when neither sort meets a missing
      amount (a list of two or more with a component the slip lacks) and no
      missing amount is added into a card total. In particular a slip that
      carries every component always succeeds, and a slip that lacks one of
      two or more earning types makes the report raise `TypeError`. */
  lemma SlipBlockSucceeds(ss: Slip, ctx: Context)
    ensures SlipBlock(ss, ctx).Ok? <==>
      && (|ctx.earningTypes| < 2 || !Lacks(ctx.earningTypes, ctx.earningMap, ss.name))
      && (|ctx.dedTypes| < 2 || !Lacks(ctx.dedTypes, ctx.dedMap, ss.name))
      && !LacksTallied(ctx.dedTypes, ctx.dedMap, ss.name)
    ensures SlipBlock(ss, ctx).Err? ==> SlipBlock(ss, ctx).error == TypeError
  {
    var earns := Pairs(ctx.earningTypes, ctx.earningMap, ss.name);
    var deducts := Pairs(ctx.dedTypes, ctx.dedMap, ss.name);
    PairsMissing(ctx.earningTypes, ctx.earningMap, ss.name);
    PairsMissing(ctx.dedTypes, ctx.dedMap, ss.name);
    var sorted := SortByAmount(deducts);
    if sorted.Ok? {
      MissingTalliedPermutation(sorted.value, deducts);
    }
    if |ctx.dedTypes| >= 2 && LacksTallied(ctx.dedTypes, ctx.dedMap, ss.name) {
      assert Lacks(ctx.dedTypes, ctx.dedMap, ss.name);
    }
  }

  // ---------------------------------------------------------------------
  // The rows of one slip
  // ---------------------------------------------------------------------

  /** The earning a row shows; a placeholder when it shows none. */
  function EarnOf(r: ReportRow): Cell {
    if r.Line? && r.earn.Some? then r.earn.value else Cell("", None)
  }

  /** The deduction a row shows; a placeholder when it shows none. */
  function DeductOf(r: ReportRow): Cell {
    if r.Line? && r.deduct.Some? then r.deduct.value else Cell("", None)
  }

  /** The earnings shown by the `k` line rows after a header. */
  function EarnColumn(rows: seq<ReportRow>, k: nat): seq<Cell>
    requires k < |rows|
  {
    seq(k, i requires 0 <= i < k => EarnOf(rows[1 + i]))
  }

  /** The deductions shown by the `k` line rows after a header. */
  function DeductColumn(rows: seq<ReportRow>, k: nat): seq<Cell>
    requires k < |rows|
  {
    seq(k, i requires 0 <= i < k => DeductOf(rows[1 + i]))
  }

  /** A header followed by the line rows pairing `earns` with `deducts`. */
  lemma {:induction false} LinesLayout(h: ReportRow, earns: seq<Cell>, deducts: seq<Cell>, n: nat)
    requires h.Header? && |earns| <= n && |deducts| <= n
    ensures var rows := [h] + Lines(earns, deducts, n);
      && (forall i :: 1 <= i < |rows| ==> rows[i].Line? && rows[i].Indent() == 1)
      && (forall i :: 1 <= i < |rows| ==> (rows[i].earn.Some? <==> i - 1 < |earns|))
      && (forall i :: 1 <= i < |rows| ==> (rows[i].deduct.Some? <==> i - 1 < |deducts|))
      && EarnColumn(rows, |earns|) == earns
      && DeductColumn(rows, |deducts|) == deducts
  {
    var rows := [h] + Lines(earns, deducts, n);
    assert forall i :: 1 <= i < |rows| ==> rows[i] == Lines(earns, deducts, n)[i - 1];
  }

  /** A slip contributes its header row (indent 0) and then
      `max(|earning_types|, |ded_types|)` line rows (indent 1). Line row i
      shows an earning exactly when i < |earning_types| and a deduction
      exactly when i < |ded_types|. The earnings shown are a permutation of
      the slip's (component, amount) pairs, largest amount first, and so are
      the deductions. */
  lemma SlipBlockShape(ss: Slip, ctx: Context)
    requires SlipBlock(ss, ctx).Ok?
    ensures var rows := SlipBlock(ss, ctx).value.rows;
      && |rows| == ctx.Width()
      && rows[0] == HeaderRow(ss, ctx) && rows[0].Indent() == 0
      && (forall i :: 1 <= i < |rows| ==> rows[i].Line? && rows[i].Indent() == 1)
      && (forall i :: 1 <= i < |rows| ==> (rows[i].earn.Some? <==> i - 1 < |ctx.earningTypes|))
      && (forall i :: 1 <= i < |rows| ==> (rows[i].deduct.Some? <==> i - 1 < |ctx.dedTypes|))
    ensures var rows := SlipBlock(ss, ctx).value.rows;
      var earns := EarnColumn(rows, |ctx.earningTypes|);
      && multiset(earns) == multiset(Pairs(ctx.earningTypes, ctx.earningMap, ss.name))
      && SortedDesc(AmountKey, earns)
    ensures var rows := SlipBlock(ss, ctx).value.rows;
      var deducts := DeductColumn(rows, |ctx.dedTypes|);
      && multiset(deducts) == multiset(Pairs(ctx.dedTypes, ctx.dedMap, ss.name))
      && SortedDesc(AmountKey, deducts)
  {
    var e := SortByAmount(Pairs(ctx.earningTypes, ctx.earningMap, ss.name)).value;
    var d := SortByAmount(Pairs(ctx.dedTypes, ctx.dedMap, ss.name)).value;
    assert |e| == |ctx.earningTypes| by {
      assert |multiset(e)| == |multiset(Pairs(ctx.earningTypes, ctx.earningMap, ss.name))|;
    }
    assert |d| == |ctx.dedTypes| by {
      assert |multiset(d)| == |multiset(Pairs(ctx.dedTypes, ctx.dedMap, ss.name))|;
    }
    SlipBlockSorted(ss, ctx, e, d);
    LinesLayout(HeaderRow(ss, ctx), e, d, ctx.LineCount());
  }

  // ---------------------------------------------------------------------
  // The rows of all slips
  // ---------------------------------------------------------------------

  /** The blocks one after another. */
  function Flatten<T>(blocks: seq<seq<T>>): seq<T>
    decreases |blocks|
  {
    if |blocks| == 0 then [] else Flatten(blocks[..|blocks| - 1]) + blocks[|blocks| - 1]
  }

  lemma {:induction false} MulMono(a: nat, b: nat, w: nat)
    requires a <= b
    ensures a * w <= b * w
    decreases b - a
  {
    if a < b {
      MulMono(a + 1, b, w);
      assert (a + 1) * w == a * w + w;
    }
  }

  lemma {:induction false} FlattenLength<T>(blocks: seq<seq<T>>, w: nat)
    requires forall k :: 0 <= k < |blocks| ==> |blocks[k]| == w
    ensures |Flatten(blocks)| == |blocks| * w
    decreases |blocks|
  {
    if |blocks| > 0 {
      var n := |blocks| - 1;
      FlattenLength(blocks[..n], w);
      assert |blocks| * w == n * w + w;
    }
  }

  /** The blocks before `j` come first. */
  lemma {:induction false} FlattenPrefix<T>(blocks: seq<seq<T>>, j: nat)
    requires j <= |blocks|
    ensures Flatten(blocks[..j]) <= Flatten(blocks)
    decreases |blocks| - j
  {
    if j < |blocks| {
      FlattenPrefix(blocks, j + 1);
      var s := blocks[..j + 1];
      assert s[..j] == blocks[..j];
      assert Flatten(s) == Flatten(blocks[..j]) + blocks[j];
    } else {
      assert blocks[..j] == blocks;
    }
  }

  /** Block k of blocks of `w` items each fills positions `k * w` up to `k * w + w`. */
  lemma FlattenSlot<T>(blocks: seq<seq<T>>, w: nat, k: nat)
    requires forall i :: 0 <= i < |blocks| ==> |blocks[i]| == w
    requires k < |blocks|
    ensures k * w + w <= |Flatten(blocks)| && Flatten(blocks)[k * w..k * w + w] == blocks[k]
  {
    var p := Flatten(blocks[..k]);
    var s := blocks[..k + 1];
    assert s[..k] == blocks[..k];
    var q := Flatten(s);
    assert q == p + blocks[k];
    FlattenPrefix(blocks, k + 1);
    FlattenLength(blocks[..k], w);
    var all := Flatten(blocks);
    assert q == all[..|q|];
    assert all[|p|..|p| + w] == q[|p|..|p| + w];
  }

  /** Blocks of `w` items each: the whole holds `|blocks| * w` items and
      block k fills positions `k * w` up to `k * w + w`. */
  lemma FlattenSlots<T>(blocks: seq<seq<T>>, w: nat)
    requires forall k :: 0 <= k < |blocks| ==> |blocks[k]| == w
    ensures |Flatten(blocks)| == |blocks| * w
    ensures forall k :: 0 <= k < |blocks| ==>
      k * w + w <= |Flatten(blocks)| && Flatten(blocks)[k * w..k * w + w] == blocks[k]
  {
    FlattenLength(blocks, w);
    forall k | 0 <= k < |blocks|
      ensures k * w + w <= |Flatten(blocks)| && Flatten(blocks)[k * w..k * w + w] == blocks[k]
    {
      FlattenSlot(blocks, w, k);
    }
  }

  predicate All<T>(s: seq<T>, p: T -> bool)
    decreases |s|
  {
    |s| == 0 || (All(s[..|s| - 1], p) && p(s[|s| - 1]))
  }

  lemma {:induction false} AllEach<T>(s: seq<T>, p: T -> bool)
    ensures All(s, p) <==> forall k :: 0 <= k < |s| ==> p(s[k])
    decreases |s|
  {
    if |s| > 0 {
      var n := |s| - 1;
      AllEach(s[..n], p);
      assert forall k :: 0 <= k < n ==> s[k] == s[..n][k];
    }
  }

  lemma {:induction false} BlocksOk(slips: seq<Slip>, ctx: Context)
    ensures Blocks(slips, ctx).Ok? <==> All(slips, ss => SlipBlock(ss, ctx).Ok?)
    decreases |slips|
  {
    if |slips| > 0 {
      BlocksOk(slips[..|slips| - 1], ctx);
    }
  }

  /** The loop over slips succeeds exactly when every slip's rows can be built. */
  lemma BlocksSucceed(slips: seq<Slip>, ctx: Context)
    ensures Blocks(slips, ctx).Ok? <==> forall k :: 0 <= k < |slips| ==> SlipBlock(slips[k], ctx).Ok?
  {
    BlocksOk(slips, ctx);
    AllEach(slips, ss => SlipBlock(ss, ctx).Ok?);
  }

  /** The rows of each slip, in slip order. */
  function SlipRows(slips: seq<Slip>, ctx: Context): seq<seq<ReportRow>>
    requires forall k :: 0 <= k < |slips| ==> SlipBlock(slips[k], ctx).Ok?
  {
    seq(|slips|, k requires 0 <= k < |slips| => SlipBlock(slips[k], ctx).value.rows)
  }

  /** The data is the slips' blocks of rows one after another, in slip
      order: `|slips| * (1 + max(|earning_types|, |ded_types|))` rows, every
      block of the same width, so that (by `FlattenSlots`) slip k's block
      sits at positions `k * w` up to `k * w + w`. */
  lemma {:induction false} BlocksLayout(slips: seq<Slip>, ctx: Context)
    requires Blocks(slips, ctx).Ok?
    ensures forall k :: 0 <= k < |slips| ==> SlipBlock(slips[k], ctx).Ok?
    ensures Blocks(slips, ctx).value.rows == Flatten(SlipRows(slips, ctx))
    ensures |Blocks(slips, ctx).value.rows| == |slips| * ctx.Width()
    ensures forall k :: 0 <= k < |slips| ==> |SlipRows(slips, ctx)[k]| == ctx.Width()
  {
    BlocksSucceed(slips, ctx);
    BlocksFlatten(slips, ctx);
    FlattenSlots(SlipRows(slips, ctx), ctx.Width());
  }

  lemma {:induction false} BlocksFlatten(slips: seq<Slip>, ctx: Context)
    requires forall k :: 0 <= k < |slips| ==> SlipBlock(slips[k], ctx).Ok?
    ensures Blocks(slips, ctx).Ok? && Blocks(slips, ctx).value.rows == Flatten(SlipRows(slips, ctx))
    decreases |slips|
  {
    BlocksSucceed(slips, ctx);
    if |slips| > 0 {
      var prefix := slips[..|slips| - 1];
      assert forall k :: 0 <= k < |prefix| ==> prefix[k] == slips[k];
      BlocksFlatten(prefix, ctx);
      assert SlipRows(slips, ctx)[..|slips| - 1] == SlipRows(prefix, ctx);
    }
  }

  // ---------------------------------------------------------------------
  // The summary card
  // ---------------------------------------------------------------------

  /** The amount of deduction `c` on slip `slip`, 0 when the slip lacks it or
      `c` is not a deduction type. */
  function DeductionAmount(ctx: Context, slip: string, c: string): real {
    if c in ctx.dedTypes && AmountOf(ctx.dedMap, slip, c).Some? then AmountOf(ctx.dedMap, slip, c).value else 0.0
  }

  /** What one slip adds to the card: its header's gross and net pay, and its
      social-security, income-tax, student-loan and penalty deductions. */
  function SlipFigures(ss: Slip, ctx: Context): Totals {
    var h := HeaderRow(ss, ctx);
    Totals(h.grossPay, h.netPay,
           DeductionAmount(ctx, ss.name, SocialSecurity),
           DeductionAmount(ctx, ss.name, IncomeTax),
           DeductionAmount(ctx, ss.name, StudentLoan),
           DeductionAmount(ctx, ss.name, Penalties[0]) + DeductionAmount(ctx, ss.name, Penalties[1]))
  }

  /** The card figures of all slips added up. */
  function FigureSum(slips: seq<Slip>, ctx: Context): Totals
    decreases |slips|
  {
    if |slips| == 0 then NoTotals
    else Plus(FigureSum(slips[..|slips| - 1], ctx), SlipFigures(slips[|slips| - 1], ctx))
  }

  lemma {:induction false} CategorySumInsert(x: Cell, s: seq<Cell>, names: seq<string>)
    ensures CategorySum(InsertDesc(AmountKey, x, s), names) == Share(names, x) + CategorySum(s, names)
    decreases |s|
  {
    var r := InsertDesc(AmountKey, x, s);
    if |s| == 0 {
      assert r == [x];
    } else if AmountKey(s[0]) <= AmountKey(x) {
      assert r[1..] == s;
    } else {
      assert r[1..] == InsertDesc(AmountKey, x, s[1..]);
      CategorySumInsert(x, s[1..], names);
    }
  }

  /** Sorting does not change a category's sum. */
  lemma {:induction false} CategorySumSorted(s: seq<Cell>, names: seq<string>)
    ensures CategorySum(SortDesc(AmountKey, s), names) == CategorySum(s, names)
    decreases |s|
  {
    if |s| > 0 {
      CategorySumSorted(s[1..], names);
      CategorySumInsert(s[0], SortDesc(AmountKey, s[1..]), names);
    }
  }

  /** The sum of category `[c]` over a slip's pairs is the slip's amount of
      `c`: each type occurs once, so no other deduction contributes. */
  lemma {:induction false} CategorySumPicks(types: seq<string>, m: map<string, map<string, real>>, slip: string, c: string)
    requires Distinct(types)
    ensures CategorySum(Pairs(types, m, slip), [c])
            == if c in types && AmountOf(m, slip, c).Some? then AmountOf(m, slip, c).value else 0.0
    decreases |types|
  {
    if |types| > 0 {
      assert Pairs(types, m, slip)[1..] == Pairs(types[1..], m, slip);
      assert Distinct(types[1..]);
      CategorySumPicks(types[1..], m, slip, c);
      assert c in types <==> c == types[0] || c in types[1..];
    }
  }

  /** The penalty category is the sum of its two components. */
  lemma {:induction false} PenaltySplit(cells: seq<Cell>)
    ensures CategorySum(cells, Penalties) == CategorySum(cells, [Penalties[0]]) + CategorySum(cells, [Penalties[1]])
    decreases |cells|
  {
    CategoryNamesDiffer();
    if |cells| > 0 {
      PenaltySplit(cells[1..]);
    }
  }

  /** What a successful slip adds to the totals: its own figures, whatever
      order its deductions were sorted into. */
  lemma SlipTotals(ss: Slip, ctx: Context)
    requires Distinct(ctx.dedTypes)
    requires SlipBlock(ss, ctx).Ok?
    ensures SlipBlock(ss, ctx).value.totals == SlipFigures(ss, ctx)
  {
    var cells := Pairs(ctx.dedTypes, ctx.dedMap, ss.name);
    var sorted := SortByAmount(cells).value;
    assert Tally(sorted) == Tally(cells) by {
      if |cells| > 1 {
        CategorySumSorted(cells, [SocialSecurity]);
        CategorySumSorted(cells, [IncomeTax]);
        CategorySumSorted(cells, [StudentLoan]);
        CategorySumSorted(cells, Penalties);
      }
    }
    CategorySumPicks(ctx.dedTypes, ctx.dedMap, ss.name, SocialSecurity);
    CategorySumPicks(ctx.dedTypes, ctx.dedMap, ss.name, IncomeTax);
    CategorySumPicks(ctx.dedTypes, ctx.dedMap, ss.name, StudentLoan);
    CategorySumPicks(ctx.dedTypes, ctx.dedMap, ss.name, Penalties[0]);
    CategorySumPicks(ctx.dedTypes, ctx.dedMap, ss.name, Penalties[1]);
    PenaltySplit(cells);
  }

  /** The card totals are the slips' figures added up: gross and net pay
      are the sums of the header rows, and each tallied category is the sum
      of that deduction over the slips. No other deduction affects them. */
  lemma {:induction false} CardTotals(slips: seq<Slip>, ctx: Context)
    requires Distinct(ctx.dedTypes)
    requires Blocks(slips, ctx).Ok?
    ensures Blocks(slips, ctx).value.totals == FigureSum(slips, ctx)
    decreases |slips|
  {
    if |slips| > 0 {
      var prefix := slips[..|slips| - 1];
      CardTotals(prefix, ctx);
      SlipTotals(slips[|slips| - 1], ctx);
    }
  }

  // ---------------------------------------------------------------------
  // The whole report
  // ---------------------------------------------------------------------

  lemma {:induction false} DistinctCount<T>(s: seq<T>, x: T)
    requires Distinct(s)
    ensures multiset(s)[x] <= 1
    decreases |s|
  {
    if |s| > 0 {
      assert s == [s[0]] + s[1..];
      assert Distinct(s[1..]);
      DistinctCount(s[1..], x);
      if x == s[0] {
        assert x !in s[1..];
      }
    }
  }

  lemma CountDistinct<T>(s: seq<T>)
    requires forall x :: multiset(s)[x] <= 1
    ensures Distinct(s)
  {
    forall i, j | 0 <= i < j < |s|
      ensures s[i] != s[j]
    {
      assert s == s[..j] + s[j..];
      assert s[i] in multiset(s[..j]) && s[j] in multiset(s[j..]);
      assert multiset(s)[s[j]] == multiset(s[..j])[s[j]] + multiset(s[j..])[s[j]];
    }
  }

  /** Each component appears once among the earning and deduction types. */
  lemma TypesDistinct(components: seq<string>, typeOf: string -> string)
    requires Distinct(components)
    requires EarningAndDeductionTypes(components, typeOf).Ok?
    ensures Distinct(EarningAndDeductionTypes(components, typeOf).value.0)
    ensures Distinct(EarningAndDeductionTypes(components, typeOf).value.1)
  {
    TypesPartition(components, typeOf);
    var (e, d) := EarningAndDeductionTypes(components, typeOf).value;
    forall x
      ensures multiset(e)[x] <= 1 && multiset(d)[x] <= 1
    {
      DistinctCount(components, x);
      assert (multiset(e) + multiset(d))[x] == multiset(e)[x] + multiset(d)[x];
    }
    CountDistinct(e);
    CountDistinct(d);
  }

  /** `execute`: without a matching slip the report is empty (no columns, no
      rows, no card). Otherwise its columns are the report's columns as the
      slips widened them, its data the slips' blocks of rows in slip order
      (`|slips| * (1 + max(|earning_types|, |ded_types|))` rows), and its card
      shows the slips' own figures added up. */
  lemma ReportShape(inp: ReportInput)
    requires ReportOf(inp).Ok?
    ensures var slips := SelectSlips(inp.slipTable, inp.filters, inp.companyCurrency).value;
      |slips| == 0 <==> ReportOf(inp).value.data == []
    ensures var slips := SelectSlips(inp.slipTable, inp.filters, inp.companyCurrency).value;
      |slips| == 0 ==> ReportOf(inp).value == Report([], [], None)
    ensures var slips := SelectSlips(inp.slipTable, inp.filters, inp.companyCurrency).value;
      |slips| > 0 ==>
        var types := EarningAndDeductionTypes(SalaryComponents(inp.details, Names(slips)), inp.typeOf).value;
        var ctx := ContextFor(inp, slips, types);
        var r := ReportOf(inp).value;
        && r.columns == ColumnsAfter(GetColumns(), slips)
        && (forall k :: 0 <= k < |slips| ==> SlipBlock(slips[k], ctx).Ok?)
        && r.data == Flatten(SlipRows(slips, ctx))
        && |r.data| == |slips| * ctx.Width()
        && r.message == Some(Message(FigureSum(slips, ctx)))
  {
    var slips := SelectSlips(inp.slipTable, inp.filters, inp.companyCurrency).value;
    if |slips| > 0 {
      var components := SalaryComponents(inp.details, Names(slips));
      var types := EarningAndDeductionTypes(components, inp.typeOf).value;
      var ctx := ContextFor(inp, slips, types);
      TypesDistinct(components, inp.typeOf);
      BlocksLayout(slips, ctx);
      CardTotals(slips, ctx);
      assert 0 < ctx.Width();
      MulMono(1, |slips|, ctx.Width());
    }
  }
}
