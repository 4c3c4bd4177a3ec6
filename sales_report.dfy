/**
  The sales report: every transaction line is joined to its transaction
  header, the joined rows are filtered by an optional date range on the
  header's calendar day, and the rows are grouped by day, by %W week or by
  month, each group with the sum of the header totals and the sum of the line
  quantities, ordered by the group's key. The JSON endpoint defaults the
  grouping to daily and writes missing sums as 0.
*/
module SalesReport {
  import opened Wrappers
  import opened Text
  import opened Calendar
  import opened Sales

  datatype Grouping = Daily | Weekly | Monthly | Ungrouped

  /** "daily", "weekly" and "monthly" group; anything else adds no GROUP BY at all. */
  function GroupingOf(s: string): Grouping {
    if s == "daily" then Daily else if s == "weekly" then Weekly else if s == "monthly" then Monthly else Ungrouped
  }

  /**
    A date bound: none (the parameter is absent or empty), or the value SQLite's
    date(?) gives for it, None when date(?) is NULL.
  */
  datatype Bound = NoBound | Bound(date: Option<Date>)

  /** One row of the join of a transaction line with its header. */
  datatype Row = Row(transactionId: int, date: Date, amount: int, quantity: int)

  /** The header with the id (transaction_id is the table's primary key). */
  function HeaderWithId(hs: seq<Header>, id: int): (r: Option<Header>)
    ensures r.Some? ==> r.value in hs && r.value.id == id
    ensures r.None? ==> forall i :: 0 <= i < |hs| ==> hs[i].id != id
  {
    if hs == [] then None else if hs[0].id == id then Some(hs[0]) else HeaderWithId(hs[1..], id)
  }

  /** The joined row of line l under header h: the header's id, day and total, and the line's quantity. */
  function RowOf(h: Header, l: LedgerLine): Row {
    Row(h.id, h.dateAndTime.date, h.totalAmount, l.quantity)
  }

  /** each_transaction JOIN total_transaction: one row per line that has a header, in line order. */
  function Joined(hs: seq<Header>, ls: seq<LedgerLine>): (rows: seq<Row>)
    ensures |rows| <= |ls|
  {
    if ls == [] then []
    else
      var l := ls[|ls| - 1];
      Joined(hs, ls[..|ls| - 1]) +
      match HeaderWithId(hs, l.transactionId)
      case None => []
      case Some(h) => [RowOf(h, l)]
  }

  /** r is the joined row of line l. */
  predicate LineRow(hs: seq<Header>, l: LedgerLine, r: Row) {
    HeaderWithId(hs, l.transactionId).Some? && r == RowOf(HeaderWithId(hs, l.transactionId).value, l)
  }

  /**
    Every joined row is the row of some line under the header with that line's
    transaction id, and every line that has a header gives its row.
  */
  lemma {:induction false} JoinedRows(hs: seq<Header>, ls: seq<LedgerLine>)
    ensures forall r :: r in Joined(hs, ls) ==> exists l :: l in ls && LineRow(hs, l, r)
    ensures forall l :: l in ls && HeaderWithId(hs, l.transactionId).Some? ==>
      RowOf(HeaderWithId(hs, l.transactionId).value, l) in Joined(hs, ls)
  {
    if ls != [] {
      var init, last := ls[..|ls| - 1], ls[|ls| - 1];
      JoinedRows(hs, init);
      assert ls == init + [last];
      var j0 := Joined(hs, init);
      forall r | r in Joined(hs, ls) ensures exists l :: l in ls && LineRow(hs, l, r) {
        if r in j0 {
          var l :| l in init && LineRow(hs, l, r);
          assert l in ls;
        } else {
          assert LineRow(hs, last, r);
        }
      }
    }
  }

  /** date(t) >= date(from) and date(t) <= date(to), compared as text; a NULL bound makes the comparison fail. */
  predicate InRange(d: Date, from: Bound, to: Bound) {
    && (from.NoBound? || (from.date.Some? && !Less(DayKey(d), DayKey(from.date.value))))
    && (to.NoBound? || (to.date.Some? && !Less(DayKey(to.date.value), DayKey(d))))
  }

  /** The join of one line: its row when the line has a header, nothing otherwise. */
  lemma JoinedOne(hs: seq<Header>, l: LedgerLine)
    ensures Joined(hs, [l]) == if HeaderWithId(hs, l.transactionId).Some? then [RowOf(HeaderWithId(hs, l.transactionId).value, l)] else []
  {
    assert [l][..0] == [];
  }

  /** The join runs line by line: the rows of a ledger split in two are those of the first part followed by those of the second. */
  lemma {:induction false} JoinedAppend(hs: seq<Header>, a: seq<LedgerLine>, b: seq<LedgerLine>)
    ensures Joined(hs, a + b) == Joined(hs, a) + Joined(hs, b)
    decreases |b|
  {
    if b == [] {
      assert a + b == a;
    } else {
      var ab := a + b;
      var init := b[..|b| - 1];
      assert ab[..|ab| - 1] == a + init;
      var l := b[|b| - 1];
      assert ab[|ab| - 1] == l;
      var t := if HeaderWithId(hs, l.transactionId).Some? then [RowOf(HeaderWithId(hs, l.transactionId).value, l)] else [];
      JoinedAppend(hs, a, init);
      Regroup(Joined(hs, ab), Joined(hs, a + init), Joined(hs, a), Joined(hs, init), Joined(hs, b), t);
    }
  }

  /** For valid dates the text comparison is the calendar one: from <= d <= to. */
  lemma InRangeIsChronological(d: Date, from: Bound, to: Bound)
    requires ValidDate(d)
    requires from.Bound? && from.date.Some? ==> ValidDate(from.date.value)
    requires to.Bound? && to.date.Some? ==> ValidDate(to.date.value)
    ensures InRange(d, from, to) <==>
      && (from.NoBound? || (from.date.Some? && !Before(d, from.date.value)))
      && (to.NoBound? || (to.date.Some? && !Before(to.date.value, d)))
  {
    if from.Bound? && from.date.Some? {
      DayKeyOrder(d, from.date.value);
    }
    if to.Bound? && to.date.Some? {
      DayKeyOrder(to.date.value, d);
    }
  }

  /** The WHERE clause: the rows whose day is in range, in order. */
  function Matching(rows: seq<Row>, from: Bound, to: Bound): (m: seq<Row>)
    ensures forall r :: r in m <==> r in rows && InRange(r.date, from, to)
    ensures |m| <= |rows|
  {
    if rows == [] then []
    else
      assert rows == rows[..|rows| - 1] + [rows[|rows| - 1]];
      Matching(rows[..|rows| - 1], from, to) + (if InRange(rows[|rows| - 1].date, from, to) then [rows[|rows| - 1]] else [])
  }

  /** The WHERE clause on one row: the row when its day is in range, nothing otherwise. */
  lemma MatchingOne(r: Row, from: Bound, to: Bound)
    ensures Matching([r], from, to) == if InRange(r.date, from, to) then [r] else []
  {
    assert [r][..0] == [];
  }

  /** The WHERE clause on a non-empty sequence: the filter of all rows but the last, then the last one if it is in range. */
  lemma MatchingSnoc(rows: seq<Row>, from: Bound, to: Bound)
    requires rows != []
    ensures var last := rows[|rows| - 1];
      Matching(rows, from, to) == Matching(rows[..|rows| - 1], from, to) + (if InRange(last.date, from, to) then [last] else [])
  {
  }

  /** The WHERE clause runs row by row: it keeps order and multiplicity over a split of the rows. */
  lemma {:induction false} MatchingAppend(a: seq<Row>, b: seq<Row>, from: Bound, to: Bound)
    ensures Matching(a + b, from, to) == Matching(a, from, to) + Matching(b, from, to)
    decreases |b|
  {
    if b == [] {
      assert a + b == a;
    } else {
      var ab := a + b;
      var init := b[..|b| - 1];
      assert ab[..|ab| - 1] == a + init;
      assert ab[|ab| - 1] == b[|b| - 1];
      var last := b[|b| - 1];
      var t := if InRange(last.date, from, to) then [last] else [];
      MatchingAppend(a, init, from, to);
      MatchingSnoc(ab, from, to);
      MatchingSnoc(b, from, to);
      Regroup(Matching(ab, from, to), Matching(a + init, from, to), Matching(a, from, to), Matching(init, from, to), Matching(b, from, to), t);
    }
  }

  lemma Regroup(whole: seq<Row>, front: seq<Row>, x: seq<Row>, y: seq<Row>, back: seq<Row>, t: seq<Row>)
    requires whole == front + t && front == x + y && back == y + t
    ensures whole == x + back
  {
  }

  /** Without bounds the WHERE clause keeps every row. */
  lemma {:induction false} UnboundedKeepsAll(rows: seq<Row>)
    ensures Matching(rows, NoBound, NoBound) == rows
  {
    if rows != [] {
      UnboundedKeepsAll(rows[..|rows| - 1]);
      assert rows == rows[..|rows| - 1] + [rows[|rows| - 1]];
    }
  }

  /** The GROUP BY key of a day: date(), strftime('%Y-W%W') or strftime('%Y-%m'). */
  function KeyOf(g: Grouping, d: Date): string {
    match g
    case Daily => DayKey(d)
    case Weekly => WeekKey(d)
    case Monthly => MonthKey(d)
    case Ungrouped => ""
  }

  /** A row with its group key. */
  datatype Keyed = Keyed(key: string, row: Row)

  function KeyRows(rows: seq<Row>, g: Grouping): (krs: seq<Keyed>)
    ensures |krs| == |rows|
    ensures forall i :: 0 <= i < |rows| ==> krs[i] == Keyed(KeyOf(g, rows[i].date), rows[i])
  {
    seq(|rows|, i requires 0 <= i < |rows| => Keyed(KeyOf(g, rows[i].date), rows[i]))
  }

  /**
    One group: its key, the day of its last row (what the bare date() column
    shows), and the two sums.
  */
  datatype Group = Group(key: string, last: Date, amount: int, quantity: int)

  /** The group after row r joins it; none means the group is new. */
  function Joining(o: Option<Group>, key: string, r: Row): Group {
    Group(key, r.date, (if o.Some? then o.value.amount else 0) + r.amount,
          (if o.Some? then o.value.quantity else 0) + r.quantity)
  }

  /** Adds a row to the groups kept in ascending key order: into its group, or as a new group at its place. */
  function AddToGroups(gs: seq<Group>, kr: Keyed): seq<Group> {
    if gs == [] then [Joining(None, kr.key, kr.row)]
    else if gs[0].key == kr.key then [Joining(Some(gs[0]), kr.key, kr.row)] + gs[1..]
    else if Less(kr.key, gs[0].key) then [Joining(None, kr.key, kr.row)] + gs
    else [gs[0]] + AddToGroups(gs[1..], kr)
  }

  /** The groups of keyed rows, added one after another. */
  function GroupKeyed(krs: seq<Keyed>): seq<Group> {
    if krs == [] then [] else AddToGroups(GroupKeyed(krs[..|krs| - 1]), krs[|krs| - 1])
  }

  /** GROUP BY key ORDER BY key ASC over the rows. */
  function GroupRows(rows: seq<Row>, g: Grouping): seq<Group> {
    GroupKeyed(KeyRows(rows, g))
  }

  /** The group with key k. */
  function Find(gs: seq<Group>, k: string): (o: Option<Group>)
    ensures o.Some? ==> o.value in gs && o.value.key == k
    ensures o.None? ==> forall x :: x in gs ==> x.key != k
  {
    if gs == [] then None else if gs[0].key == k then Some(gs[0]) else Find(gs[1..], k)
  }

  /** Sum of the amounts of the rows in group k. */
  function SumAmount(krs: seq<Keyed>, k: string): int {
    if krs == [] then 0
    else SumAmount(krs[..|krs| - 1], k) + (if krs[|krs| - 1].key == k then krs[|krs| - 1].row.amount else 0)
  }

  /** Sum of the quantities of the rows in group k. */
  function SumQuantity(krs: seq<Keyed>, k: string): int {
    if krs == [] then 0
    else SumQuantity(krs[..|krs| - 1], k) + (if krs[|krs| - 1].key == k then krs[|krs| - 1].row.quantity else 0)
  }

  /** Some row is in group k. */
  predicate HasKey(krs: seq<Keyed>, k: string) {
    exists i :: 0 <= i < |krs| && krs[i].key == k
  }

  lemma HasKeyStep(krs: seq<Keyed>, k: string)
    requires krs != []
    ensures HasKey(krs, k) <==> HasKey(krs[..|krs| - 1], k) || krs[|krs| - 1].key == k
  {
    var init := krs[..|krs| - 1];
    assert forall i :: 0 <= i < |init| ==> init[i] == krs[i];
    if HasKey(krs, k) && krs[|krs| - 1].key != k {
      var i :| 0 <= i < |krs| && krs[i].key == k;
      assert init[i] == krs[i];
    }
  }

  /** The day of the last row in group k. */
  function LastDay(krs: seq<Keyed>, k: string): (d: Date)
    requires HasKey(krs, k)
    ensures exists i :: 0 <= i < |krs| && krs[i].key == k && krs[i].row.date == d
  {
    var kr := krs[|krs| - 1];
    if kr.key == k then kr.row.date
    else
      var init := krs[..|krs| - 1];
      HasKeyStep(krs, k);
      var d := LastDay(init, k);
      assert forall i :: 0 <= i < |init| ==> init[i] == krs[i];
      d
  }

  /** Strictly ascending keys. */
  predicate Ascending(gs: seq<Group>) {
    forall i, j :: 0 <= i < j < |gs| ==> Less(gs[i].key, gs[j].key)
  }

  /** Every group's key is above k. */
  predicate AllAbove(gs: seq<Group>, k: string) {
    forall x :: x in gs ==> Less(k, x.key)
  }

  lemma HeadBelowRest(gs: seq<Group>)
    requires Ascending(gs) && gs != []
    ensures Ascending(gs[1..]) && AllAbove(gs[1..], gs[0].key)
  {
    assert forall i :: 0 <= i < |gs[1..]| ==> gs[1..][i] == gs[i + 1];
  }

  lemma Prepend(g: Group, gs: seq<Group>)
    requires Ascending(gs) && AllAbove(gs, g.key)
    ensures Ascending([g] + gs)
  {
    var out := [g] + gs;
    forall i, j | 0 <= i < j < |out| ensures Less(out[i].key, out[j].key) {
      assert out[j] == gs[j - 1] && gs[j - 1] in gs;
      if i > 0 {
        assert out[i] == gs[i - 1];
      }
    }
  }

  lemma AboveFirstIsAboveAll(gs: seq<Group>, k: string)
    requires Ascending(gs) && gs != [] && Less(k, gs[0].key)
    ensures AllAbove(gs, k)
  {
    forall x | x in gs ensures Less(k, x.key) {
      var j :| 0 <= j < |gs| && gs[j] == x;
      if j > 0 {
        LessTransitive(k, gs[0].key, x.key);
      }
    }
  }

  lemma {:induction false} AddToGroupsKeys(gs: seq<Group>, kr: Keyed)
    ensures forall x :: x in AddToGroups(gs, kr) ==> x in gs || x.key == kr.key
  {
    if gs != [] && gs[0].key != kr.key && !Less(kr.key, gs[0].key) {
      AddToGroupsKeys(gs[1..], kr);
    }
  }

  lemma {:induction false} AddToGroupsAscending(gs: seq<Group>, kr: Keyed)
    requires Ascending(gs)
    ensures Ascending(AddToGroups(gs, kr))
  {
    if gs == [] {
    } else if gs[0].key == kr.key {
      HeadBelowRest(gs);
      Prepend(Joining(Some(gs[0]), kr.key, kr.row), gs[1..]);
    } else if Less(kr.key, gs[0].key) {
      AboveFirstIsAboveAll(gs, kr.key);
      Prepend(Joining(None, kr.key, kr.row), gs);
    } else {
      LessTotal(kr.key, gs[0].key);
      HeadBelowRest(gs);
      AddToGroupsAscending(gs[1..], kr);
      AddToGroupsKeys(gs[1..], kr);
      Prepend(gs[0], AddToGroups(gs[1..], kr));
    }
  }

  /** The groups come in strictly ascending key order, as ORDER BY ... ASC returns them. */
  lemma {:induction false} GroupKeyedAscending(krs: seq<Keyed>)
    ensures Ascending(GroupKeyed(krs))
  {
    if krs != [] {
      GroupKeyedAscending(krs[..|krs| - 1]);
      AddToGroupsAscending(GroupKeyed(krs[..|krs| - 1]), krs[|krs| - 1]);
    }
  }

  lemma {:induction false} AddToGroupsFind(gs: seq<Group>, kr: Keyed, k: string)
    requires Ascending(gs)
    ensures Find(AddToGroups(gs, kr), k) == if k == kr.key then Some(Joining(Find(gs, k), k, kr.row)) else Find(gs, k)
  {
    if gs != [] && gs[0].key != kr.key {
      if Less(kr.key, gs[0].key) {
        AboveFirstIsAboveAll(gs, kr.key);
        if Find(gs, kr.key).Some? {
          LessIrreflexive(kr.key);
        }
      } else {
        HeadBelowRest(gs);
        AddToGroupsFind(gs[1..], kr, k);
      }
    }
  }

  /** What group k holds after all rows are added: nothing when no row has key k, else the sums over its rows. */
  function Expected(krs: seq<Keyed>, k: string): Option<Group> {
    if HasKey(krs, k) then Some(Group(k, LastDay(krs, k), SumAmount(krs, k), SumQuantity(krs, k))) else None
  }

  lemma {:induction false} SumsOfAbsentKey(krs: seq<Keyed>, k: string)
    requires !HasKey(krs, k)
    ensures SumAmount(krs, k) == 0 && SumQuantity(krs, k) == 0
  {
    if krs != [] {
      HasKeyStep(krs, k);
      SumsOfAbsentKey(krs[..|krs| - 1], k);
    }
  }

  lemma ExpectedStep(krs: seq<Keyed>, k: string)
    requires krs != []
    ensures var kr := krs[|krs| - 1];
      Expected(krs, k) == if kr.key == k then Some(Joining(Expected(krs[..|krs| - 1], k), k, kr.row)) else Expected(krs[..|krs| - 1], k)
  {
    HasKeyStep(krs, k);
    if !HasKey(krs[..|krs| - 1], k) {
      SumsOfAbsentKey(krs[..|krs| - 1], k);
    }
  }

  /** Group k is exactly what the rows with key k add up to. */
  lemma {:induction false} GroupKeyedFind(krs: seq<Keyed>, k: string)
    ensures Find(GroupKeyed(krs), k) == Expected(krs, k)
  {
    if krs != [] {
      var init := krs[..|krs| - 1];
      GroupKeyedFind(init, k);
      GroupKeyedAscending(init);
      AddToGroupsFind(GroupKeyed(init), krs[|krs| - 1], k);
      ExpectedStep(krs, k);
    }
  }

  lemma {:induction false} FindAscending(gs: seq<Group>, j: nat)
    requires Ascending(gs) && j < |gs|
    ensures Find(gs, gs[j].key) == Some(gs[j])
  {
    if j > 0 {
      LessIrreflexive(gs[0].key);
      assert Less(gs[0].key, gs[j].key);
      HeadBelowRest(gs);
      assert gs[1..][j - 1] == gs[j];
      FindAscending(gs[1..], j - 1);
    }
  }

  /** Group j holds the sums over exactly the rows with its key, and the day of the last of them. */
  predicate GroupIsSum(gs: seq<Group>, krs: seq<Keyed>, j: nat)
    requires j < |gs|
  {
    && HasKey(krs, gs[j].key)
    && gs[j] == Group(gs[j].key, LastDay(krs, gs[j].key), SumAmount(krs, gs[j].key), SumQuantity(krs, gs[j].key))
  }

  /**
    Every group holds the sums over exactly the rows with its key and shows the
    day of the last of them, and every row's key has its group.
  */
  lemma GroupsAreSums(krs: seq<Keyed>)
    ensures forall j :: 0 <= j < |GroupKeyed(krs)| ==> GroupIsSum(GroupKeyed(krs), krs, j)
    ensures forall i :: 0 <= i < |krs| ==> Find(GroupKeyed(krs), krs[i].key).Some?
  {
    var gs := GroupKeyed(krs);
    GroupKeyedAscending(krs);
    forall j | 0 <= j < |gs| ensures GroupIsSum(gs, krs, j) {
      FindAscending(gs, j);
      GroupKeyedFind(krs, gs[j].key);
    }
    forall i | 0 <= i < |krs| ensures Find(gs, krs[i].key).Some? {
      GroupKeyedFind(krs, krs[i].key);
    }
  }

  // ---------------------------------------------------------------------------
  // query_sales_report and the JSON endpoint
  // ---------------------------------------------------------------------------

  /** One result row; NULL columns are None. */
  datatype ReportRow = ReportRow(period: Option<string>, totalAmount: Option<int>, totalQuantity: Option<int>)

  function Sum(rows: seq<Row>): (int, int) {
    if rows == [] then (0, 0)
    else
      var s := Sum(rows[..|rows| - 1]);
      (s.0 + rows[|rows| - 1].amount, s.1 + rows[|rows| - 1].quantity)
  }

  function ReportOf(gs: seq<Group>): (out: seq<ReportRow>)
    ensures |out| == |gs|
  {
    seq(|gs|, i requires 0 <= i < |gs| => ReportRow(Some(DayKey(gs[i].last)), Some(gs[i].amount), Some(gs[i].quantity)))
  }

  /**
    The result of the query over joined rows: one row per group when grouped;
    without grouping one aggregate row, all NULL when nothing matched, else with
    the last matching row's day as its period.
  */
  function Aggregate(rows: seq<Row>, g: Grouping): seq<ReportRow> {
    if g == Ungrouped then
      if rows == [] then [ReportRow(None, None, None)]
      else [ReportRow(Some(DayKey(rows[|rows| - 1].date)), Some(Sum(rows).0), Some(Sum(rows).1))]
    else ReportOf(GroupRows(rows, g))
  }

  /** query_sales_report. fault stands for any exception raised on the way, which yields an empty result. */
  function QuerySalesReport(hs: seq<Header>, ls: seq<LedgerLine>, from: Bound, to: Bound, groupBy: string, fault: bool): (out: seq<ReportRow>)
    ensures fault ==> out == []
    ensures !fault && GroupingOf(groupBy) == Ungrouped ==> |out| == 1
  {
    if fault then [] else Aggregate(Matching(Joined(hs, ls), from, to), GroupingOf(groupBy))
  }

  /** A grouped report has one row per group, in ascending key order, each with its group's sums; nothing matching gives []. */
  lemma GroupedReport(hs: seq<Header>, ls: seq<LedgerLine>, from: Bound, to: Bound, groupBy: string)
    requires GroupingOf(groupBy) != Ungrouped
    ensures var krs := KeyRows(Matching(Joined(hs, ls), from, to), GroupingOf(groupBy));
      var gs := GroupKeyed(krs);
      && Ascending(gs)
      && QuerySalesReport(hs, ls, from, to, groupBy, false) == ReportOf(gs)
      && (forall j :: 0 <= j < |gs| ==> GroupIsSum(gs, krs, j))
      && (krs == [] <==> gs == [])
  {
    var krs := KeyRows(Matching(Joined(hs, ls), from, to), GroupingOf(groupBy));
    GroupKeyedAscending(krs);
    GroupsAreSums(krs);
    if krs != [] {
      assert Find(GroupKeyed(krs), krs[0].key).Some?;
    }
  }

  /** Without a recognised grouping, the query returns exactly one row, whatever matches. */
  lemma UngroupedReportHasOneRow(hs: seq<Header>, ls: seq<LedgerLine>, from: Bound, to: Bound, groupBy: string)
    requires groupBy != "daily" && groupBy != "weekly" && groupBy != "monthly"
    ensures |QuerySalesReport(hs, ls, from, to, groupBy, false)| == 1
    ensures Matching(Joined(hs, ls), from, to) == [] <==> QuerySalesReport(hs, ls, from, to, groupBy, false) == [ReportRow(None, None, None)]
  {
  }

  /** In a daily report, every row of an earlier period is from an earlier day than every row of a later period. */
  lemma DailyReportIsChronological(rows: seq<Row>, i: nat, j: nat, a: Row, b: Row)
    requires forall r :: r in rows ==> ValidDate(r.date)
    requires i < j < |GroupRows(rows, Daily)|
    requires a in rows && DayKey(a.date) == GroupRows(rows, Daily)[i].key
    requires b in rows && DayKey(b.date) == GroupRows(rows, Daily)[j].key
    ensures Before(a.date, b.date)
  {
    GroupKeyedAscending(KeyRows(rows, Daily));
    DayKeyOrder(a.date, b.date);
  }

  /** A JSON row: the period (null when NULL) and the two sums, NULL written as 0. */
  datatype JsonRow = JsonRow(period: Option<string>, totalAmount: int, totalQuantity: int)

  function OrZero(x: Option<int>): int {
    if x.Some? then x.value else 0
  }

  function JsonRows(rows: seq<ReportRow>): (out: seq<JsonRow>)
    ensures |out| == |rows|
    ensures forall i :: 0 <= i < |rows| ==> out[i].period == rows[i].period
    ensures forall i :: 0 <= i < |rows| ==> out[i].totalAmount == (if rows[i].totalAmount.Some? then rows[i].totalAmount.value else 0)
    ensures forall i :: 0 <= i < |rows| ==> out[i].totalQuantity == (if rows[i].totalQuantity.Some? then rows[i].totalQuantity.value else 0)
  {
    seq(|rows|, i requires 0 <= i < |rows| => JsonRow(rows[i].period, OrZero(rows[i].totalAmount), OrZero(rows[i].totalQuantity)))
  }

  /** sales_report_json: the group parameter defaults to "daily". */
  function SalesReportJson(hs: seq<Header>, ls: seq<LedgerLine>, from: Bound, to: Bound, group: Option<string>, fault: bool): (out: seq<JsonRow>)
    ensures fault ==> out == []
    ensures group.None? ==> out == JsonRows(QuerySalesReport(hs, ls, from, to, "daily", fault))
    ensures !fault && group.Some? && GroupingOf(group.value) == Ungrouped ==> |out| == 1
  {
    JsonRows(QuerySalesReport(hs, ls, from, to, if group.Some? then group.value else "daily", fault))
  }

  /** Without a group parameter the endpoint reports daily; a range matching nothing gives [] grouped and one zero row ungrouped. */
  lemma SalesReportJsonDefaults(hs: seq<Header>, ls: seq<LedgerLine>, from: Bound, to: Bound, s: string)
    ensures SalesReportJson(hs, ls, from, to, None, false) == SalesReportJson(hs, ls, from, to, Some("daily"), false)
    ensures Matching(Joined(hs, ls), from, to) == [] ==>
      && SalesReportJson(hs, ls, from, to, None, false) == []
      && (GroupingOf(s) == Ungrouped ==> SalesReportJson(hs, ls, from, to, Some(s), false) == [JsonRow(None, 0, 0)])
  {
  }

  // ---------------------------------------------------------------------------
  // The header total counted once per line
  // ---------------------------------------------------------------------------

  /** One header with two lines joins to two rows, each carrying the header's total. */
  lemma TwoLinesJoinToTwoRows(d: Date)
    ensures Joined([Header(1, 1000, DateTime(d, 10, 0, 0), "cash")], [LedgerLine("Tea", 1, 400, 1), LedgerLine("Cake", 1, 300, 2)])
      == [Row(1, d, 1000, 1), Row(1, d, 1000, 2)]
  {
    var hs := [Header(1, 1000, DateTime(d, 10, 0, 0), "cash")];
    var ls := [LedgerLine("Tea", 1, 400, 1), LedgerLine("Cake", 1, 300, 2)];
    assert ls[..1] == [LedgerLine("Tea", 1, 400, 1)] && ls[..1][..0] == [];
    assert HeaderWithId(hs, 1) == Some(hs[0]);
    assert Joined(hs, ls[..1]) == [Row(1, d, 1000, 1)];
  }

  /** Two rows of the same day form one daily group holding both amounts. */
  lemma SameDayRowsGroup(d: Date, r1: Row, r2: Row)
    requires r1.date == d && r2.date == d
    ensures GroupRows([r1, r2], Daily) == [Group(DayKey(d), d, r1.amount + r2.amount, r1.quantity + r2.quantity)]
  {
    var krs := KeyRows([r1, r2], Daily);
    assert krs == [Keyed(DayKey(d), r1), Keyed(DayKey(d), r2)];
    assert krs[..1] == [Keyed(DayKey(d), r1)] && krs[..1][..0] == [];
    assert GroupKeyed(krs[..1]) == [Group(DayKey(d), d, r1.amount, r1.quantity)];
  }

  /** A sale of 10.00 on day d with two lines (quantities 1 and 2): the daily report shows 20.00. */
  lemma TotalCountedPerLine(d: Date)
    ensures var hs := [Header(1, 1000, DateTime(d, 10, 0, 0), "cash")];
      var ls := [LedgerLine("Tea", 1, 400, 1), LedgerLine("Cake", 1, 300, 2)];
      QuerySalesReport(hs, ls, NoBound, NoBound, "daily", false) == [ReportRow(Some(DayKey(d)), Some(2000), Some(3))]
  {
    var rows := [Row(1, d, 1000, 1), Row(1, d, 1000, 2)];
    TwoLinesJoinToTwoRows(d);
    UnboundedKeepsAll(rows);
    SameDayRowsGroup(d, rows[0], rows[1]);
  }

  /** The quantity sold of transaction id: the sum over its lines. */
  function LineQuantity(ls: seq<LedgerLine>, id: int): int {
    if ls == [] then 0 else LineQuantity(ls[..|ls| - 1], id) + (if ls[|ls| - 1].transactionId == id then ls[|ls| - 1].quantity else 0)
  }

  predicate HasLine(ls: seq<LedgerLine>, id: int) {
    exists i :: 0 <= i < |ls| && ls[i].transactionId == id
  }

  /** One row per transaction that has lines: its total once, and the quantity of all its lines. */
  function PerTransaction(hs: seq<Header>, ls: seq<LedgerLine>): (rows: seq<Row>)
    ensures forall r :: r in rows ==>
      exists h :: h in hs && HasLine(ls, h.id) && r == Row(h.id, h.dateAndTime.date, h.totalAmount, LineQuantity(ls, h.id))
    ensures forall h :: h in hs && HasLine(ls, h.id) ==> Row(h.id, h.dateAndTime.date, h.totalAmount, LineQuantity(ls, h.id)) in rows
  {
    if hs == [] then []
    else
      var h := hs[|hs| - 1];
      var rows := PerTransaction(hs[..|hs| - 1], ls) + (if HasLine(ls, h.id) then [Row(h.id, h.dateAndTime.date, h.totalAmount, LineQuantity(ls, h.id))] else []);
      assert hs == hs[..|hs| - 1] + [h];
      rows
  }

  /** No two rows come from the same transaction. */
  predicate OncePerTransaction(rows: seq<Row>) {
    forall i, j :: 0 <= i < j < |rows| ==> rows[i].transactionId != rows[j].transactionId
  }

  /** With distinct transaction ids, no transaction appears twice, so no total is counted twice. */
  lemma {:induction false} PerTransactionOnce(hs: seq<Header>, ls: seq<LedgerLine>)
    requires forall i, j :: 0 <= i < j < |hs| ==> hs[i].id != hs[j].id
    ensures OncePerTransaction(PerTransaction(hs, ls))
  {
    if hs != [] {
      var init := hs[..|hs| - 1];
      var h := hs[|hs| - 1];
      PerTransactionOnce(init, ls);
      var ri := PerTransaction(init, ls);
      var rows := PerTransaction(hs, ls);
      forall k | 0 <= k < |ri| ensures ri[k].transactionId != h.id {
        assert ri[k] in ri;
        var h' :| h' in init && HasLine(ls, h'.id) && ri[k] == Row(h'.id, h'.dateAndTime.date, h'.totalAmount, LineQuantity(ls, h'.id));
        var m :| 0 <= m < |init| && init[m] == h';
        assert hs[m] == h';
      }
      if HasLine(ls, h.id) {
        assert rows == ri + [Row(h.id, h.dateAndTime.date, h.totalAmount, LineQuantity(ls, h.id))];
        forall i, j | 0 <= i < j < |rows| ensures rows[i].transactionId != rows[j].transactionId {
          assert rows[i] == ri[i];
          if j < |ri| {
            assert rows[j] == ri[j];
          }
        }
      } else {
        assert rows == ri;
      }
    }
  }

  /** The report with each transaction's total counted once. */
  function QuerySalesReportOnce(hs: seq<Header>, ls: seq<LedgerLine>, from: Bound, to: Bound, groupBy: string, fault: bool): seq<ReportRow> {
    if fault then [] else Aggregate(Matching(PerTransaction(hs, ls), from, to), GroupingOf(groupBy))
  }

  /** The same sale in the corrected report: 10.00 and 3 units. */
  lemma TotalCountedOnce(d: Date)
    ensures var hs := [Header(1, 1000, DateTime(d, 10, 0, 0), "cash")];
      var ls := [LedgerLine("Tea", 1, 400, 1), LedgerLine("Cake", 1, 300, 2)];
      QuerySalesReportOnce(hs, ls, NoBound, NoBound, "daily", false) == [ReportRow(Some(DayKey(d)), Some(1000), Some(3))]
  {
    var hs := [Header(1, 1000, DateTime(d, 10, 0, 0), "cash")];
    var ls := [LedgerLine("Tea", 1, 400, 1), LedgerLine("Cake", 1, 300, 2)];
    assert ls[..1] == [LedgerLine("Tea", 1, 400, 1)] && ls[..1][..0] == [];
    assert LineQuantity(ls, 1) == 3;
    assert HasLine(ls, 1) by {
      assert ls[0].transactionId == 1;
    }
    var rows := [Row(1, d, 1000, 3)];
    assert hs[..0] == [];
    assert PerTransaction(hs, ls) == rows;
    UnboundedKeepsAll(rows);
    var krs := KeyRows(rows, Daily);
    assert krs == [Keyed(DayKey(d), rows[0])] && krs[..0] == [];
    assert GroupKeyed(krs) == [Group(DayKey(d), d, 1000, 3)];
  }

  /**
    The corrected grouped report has one row per group in ascending key order;
    every group's amount is the sum of the totals of the distinct matching
    transactions with its key, each once, and its quantity the sum of their
    lines' quantities.
  */
  lemma CorrectedGroupsAreSums(hs: seq<Header>, ls: seq<LedgerLine>, from: Bound, to: Bound, groupBy: string)
    requires forall i, j :: 0 <= i < j < |hs| ==> hs[i].id != hs[j].id
    requires GroupingOf(groupBy) != Ungrouped
    ensures OncePerTransaction(Matching(PerTransaction(hs, ls), from, to))
    ensures var krs := KeyRows(Matching(PerTransaction(hs, ls), from, to), GroupingOf(groupBy));
      var gs := GroupKeyed(krs);
      && Ascending(gs)
      && QuerySalesReportOnce(hs, ls, from, to, groupBy, false) == ReportOf(gs)
      && forall j :: 0 <= j < |gs| ==> GroupIsSum(gs, krs, j)
  {
    var all := PerTransaction(hs, ls);
    PerTransactionOnce(hs, ls);
    MatchingKeepsDistinct(all, from, to);
    var krs := KeyRows(Matching(all, from, to), GroupingOf(groupBy));
    GroupKeyedAscending(krs);
    GroupsAreSums(krs);
  }

  lemma {:induction false} MatchingKeepsDistinct(rows: seq<Row>, from: Bound, to: Bound)
    requires OncePerTransaction(rows)
    ensures OncePerTransaction(Matching(rows, from, to))
  {
    if rows != [] {
      var init := rows[..|rows| - 1];
      var last := rows[|rows| - 1];
      OnceWithoutLast(rows);
      MatchingKeepsDistinct(init, from, to);
      var mi := Matching(init, from, to);
      if InRange(last.date, from, to) {
        assert Matching(rows, from, to) == mi + [last];
        OnceAppend(mi, last);
      } else {
        assert Matching(rows, from, to) == mi;
      }
    }
  }

  lemma OnceWithoutLast(rows: seq<Row>)
    requires OncePerTransaction(rows) && rows != []
    ensures OncePerTransaction(rows[..|rows| - 1])
    ensures forall x :: x in rows[..|rows| - 1] ==> x.transactionId != rows[|rows| - 1].transactionId
  {
    var init := rows[..|rows| - 1];
    assert forall i :: 0 <= i < |init| ==> init[i] == rows[i];
  }

  lemma OnceAppend(rows: seq<Row>, r: Row)
    requires OncePerTransaction(rows)
    requires forall x :: x in rows ==> x.transactionId != r.transactionId
    ensures OncePerTransaction(rows + [r])
  {
    var m := rows + [r];
    forall i, j | 0 <= i < j < |m| ensures m[i].transactionId != m[j].transactionId {
      assert m[i] == rows[i] && rows[i] in rows;
      if j < |rows| {
        assert m[j] == rows[j];
      }
    }
  }
}
