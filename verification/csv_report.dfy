/**
 The layout of the CSV report, stated as the list of its lines. The report is
 those lines, each followed by a line break; the fields of a row are separated
 by commas and never quoted.
 */
module CsvReport {
  import opened Render
  import opened DashboardData

  /** The text of `lines`, each line followed by `\n`. */
  function Terminated(lines: seq<string>): (text: string)
    ensures lines == [] ==> text == ""
  {
    if lines == [] then ""
    else Terminated(lines[..|lines| - 1]) + lines[|lines| - 1] + "\n"
  }

  lemma {:induction false} TerminatedAppend(a: seq<string>, b: seq<string>)
    ensures Terminated(a + b) == Terminated(a) + Terminated(b)
    decreases |b|
  {
    if b == [] {
      assert a + b == a;
    } else {
      var b' := b[..|b| - 1];
      assert (a + b)[..|a + b| - 1] == a + b';
      TerminatedAppend(a, b');
    }
  }

  /** Adding a line adds its text and a line break at the end. */
  lemma TerminatedSnoc(lines: seq<string>, line: string)
    ensures Terminated(lines + [line]) == Terminated(lines) + (line + "\n")
  {
    assert (lines + [line])[..|lines|] == lines;
  }

  /** A line followed by a blank line, as one append writes them. */
  lemma TerminatedThenBlank(lines: seq<string>, line: string)
    ensures Terminated(lines + [line, ""]) == Terminated(lines) + (line + "\n\n")
  {
    assert lines + [line, ""] == lines + [line] + [""];
    TerminatedSnoc(lines, line);
    TerminatedSnoc(lines + [line], "");
  }

  /** A blank line followed by a line, as one append writes them. */
  lemma TerminatedBlankThen(lines: seq<string>, line: string)
    ensures Terminated(lines + ["", line]) == Terminated(lines) + ("\n" + line + "\n")
  {
    assert lines + ["", line] == lines + [""] + [line];
    TerminatedSnoc(lines, "");
    TerminatedSnoc(lines + [""], line);
  }

  /** A line terminated alone. */
  lemma TerminatedSingle(line: string)
    ensures Terminated([line]) == line + "\n"
  {
    assert [line][..0] == [];
  }

  /** Peeling the first line off a terminated text. */
  lemma TerminatedCons(line: string, rest: seq<string>)
    ensures Terminated([line] + rest) == line + "\n" + Terminated(rest)
  {
    TerminatedAppend([line], rest);
    TerminatedSingle(line);
  }

  predicate NoLineBreak(s: string) {
    '\n' !in s
  }

  /** How many times `c` occurs in `s`. */
  function CountChar(s: string, c: char): nat {
    if s == [] then 0
    else CountChar(s[..|s| - 1], c) + (if s[|s| - 1] == c then 1 else 0)
  }

  lemma {:induction false} CountCharAppend(a: string, b: string, c: char)
    ensures CountChar(a + b, c) == CountChar(a, c) + CountChar(b, c)
    decreases |b|
  {
    if b == [] {
      assert a + b == a;
    } else {
      var b' := b[..|b| - 1];
      assert (a + b)[..|a + b| - 1] == a + b';
      CountCharAppend(a, b', c);
    }
  }

  lemma {:induction false} CountCharAbsent(s: string, c: char)
    requires c !in s
    ensures CountChar(s, c) == 0
    decreases |s|
  {
    if s != [] {
      CountCharAbsent(s[..|s| - 1], c);
    }
  }

  /** A text of lines without line breaks holds exactly one `\n` per line. */
  lemma {:induction false} TerminatedLineBreaks(lines: seq<string>)
    requires forall i :: 0 <= i < |lines| ==> NoLineBreak(lines[i])
    ensures CountChar(Terminated(lines), '\n') == |lines|
    decreases |lines|
  {
    if lines != [] {
      var init, last := lines[..|lines| - 1], lines[|lines| - 1];
      TerminatedLineBreaks(init);
      CountCharAppend(Terminated(init), last, '\n');
      CountCharAppend(Terminated(init) + last, "\n", '\n');
      CountCharAbsent(last, '\n');
    }
  }

  /** The index of the first line break in `s`, or `|s|` when there is none. */
  function LineEnd(s: string): (k: nat)
    ensures k <= |s|
    ensures NoLineBreak(s[..k])
    ensures k < |s| ==> s[k] == '\n'
  {
    if s == [] || s[0] == '\n' then 0
    else
      var k := 1 + LineEnd(s[1..]);
      assert s[..k] == [s[0]] + s[1..][..k - 1];
      k
  }

  /** The lines of a text, as a reader splitting at each `\n` sees them. */
  function SplitLines(s: string): seq<string>
    decreases |s|
  {
    if s == [] then []
    else
      var k := LineEnd(s);
      if k == |s| then [s] else [s[..k]] + SplitLines(s[k + 1..])
  }

  /** Splitting a terminated text gives back its lines, in order, when no line holds a break. */
  lemma {:induction false} SplitTerminated(lines: seq<string>)
    requires forall i :: 0 <= i < |lines| ==> NoLineBreak(lines[i])
    ensures SplitLines(Terminated(lines)) == lines
    decreases |lines|
  {
    if lines != [] {
      var line, rest := lines[0], lines[1..];
      assert lines == [line] + rest;
      TerminatedCons(line, rest);
      var s := Terminated(lines);
      assert s == line + "\n" + Terminated(rest);
      var k := LineEnd(s);
      assert s[|line|] == '\n' && s[..|line|] == line;
      assert s[..k] == line;
      assert s[k + 1..] == Terminated(rest);
      SplitTerminated(rest);
    }
  }

  /** The five statistics rows, in their fixed order. */
  function StatisticsLines(st: Stats): (lines: seq<string>)
    ensures |lines| == 5
  {
    [ "Total Users," + NatToString(st.totalUsers),
      "Total Revenue,$" + DecimalToString(st.totalRevenue),
      "Total Orders," + NatToString(st.totalOrders),
      "Conversion Rate," + DecimalToString(st.conversionRate) + "%",
      "Active Users," + NatToString(st.activeUsers) ]
  }

  function SalesRow(p: SalesPoint): string {
    p.month + "," + DecimalToString(p.sales)
  }

  function SegmentRow(u: UserSegment): string {
    u.name + "," + NatToString(u.value)
  }

  function SalesRows(sales: seq<SalesPoint>): (rows: seq<string>)
    ensures |rows| == |sales|
    ensures forall k :: 0 <= k < |sales| ==> rows[k] == SalesRow(sales[k])
  {
    seq(|sales|, k requires 0 <= k < |sales| => SalesRow(sales[k]))
  }

  function SegmentRows(users: seq<UserSegment>): (rows: seq<string>)
    ensures |rows| == |users|
    ensures forall k :: 0 <= k < |users| ==> rows[k] == SegmentRow(users[k])
  {
    seq(|users|, k requires 0 <= k < |users| => SegmentRow(users[k]))
  }

  /** One more sales point adds its row after the rows before it. */
  lemma SalesRowsStep(head: seq<string>, sales: seq<SalesPoint>, i: nat)
    requires i < |sales|
    ensures head + SalesRows(sales[..i + 1]) == head + SalesRows(sales[..i]) + [SalesRow(sales[i])]
  {
    assert SalesRows(sales[..i + 1]) == SalesRows(sales[..i]) + [SalesRow(sales[i])];
  }

  /** One more user segment adds its row after the rows before it. */
  lemma SegmentRowsStep(head: seq<string>, users: seq<UserSegment>, i: nat)
    requires i < |users|
    ensures head + SegmentRows(users[..i + 1]) == head + SegmentRows(users[..i]) + [SegmentRow(users[i])]
  {
    assert SegmentRows(users[..i + 1]) == SegmentRows(users[..i]) + [SegmentRow(users[i])];
  }

  const ReportHeader := ["Dashboard Report", "", "Statistics", "Metric,Value"]
  const SalesHeader := ["", "Sales Data", "Month,Sales"]
  const UsersHeader := ["", "User Distribution", "Category,Value"]

  /** The lines before the first sales row: title, statistics block, sales headings. */
  function ReportHead(st: Stats): (lines: seq<string>)
    ensures |lines| == 12
  {
    ReportHeader + StatisticsLines(st) + SalesHeader
  }

  /** Every line of the report, in order. */
  function ReportLines(st: Stats, sales: seq<SalesPoint>, users: seq<UserSegment>): (lines: seq<string>)
    ensures |lines| == 15 + |sales| + |users|
  {
    ReportHead(st) + SalesRows(sales) + UsersHeader + SegmentRows(users)
  }

  /**
   Where each line sits: the four title lines, the five statistics, the sales
   headings, one row per sales point in order, the user headings, and one row
   per user segment in order.
   */
  lemma ReportLinesLayout(st: Stats, sales: seq<SalesPoint>, users: seq<UserSegment>)
    ensures var lines := ReportLines(st, sales, users);
      && lines[..4] == ReportHeader
      && lines[4..9] == StatisticsLines(st)
      && lines[9..12] == SalesHeader
      && (forall k :: 0 <= k < |sales| ==> lines[12 + k] == SalesRow(sales[k]))
      && lines[12 + |sales|..15 + |sales|] == UsersHeader
      && (forall k :: 0 <= k < |users| ==> lines[15 + |sales| + k] == SegmentRow(users[k]))
  {
  }

  /** The title and statistics headings, as the export appends them. */
  lemma ReportHeaderAppends()
    ensures Terminated(ReportHeader) == "Dashboard Report\n\n" + "Statistics\n" + "Metric,Value\n"
  {
    TerminatedThenBlank([], "Dashboard Report");
    assert [] + ["Dashboard Report", ""] == ["Dashboard Report", ""];
    assert "" + ("Dashboard Report" + "\n\n") == "Dashboard Report\n\n";
    TerminatedSnoc(["Dashboard Report", ""], "Statistics");
    assert "Statistics" + "\n" == "Statistics\n";
    TerminatedSnoc(["Dashboard Report", "", "Statistics"], "Metric,Value");
    assert "Metric,Value" + "\n" == "Metric,Value\n";
    assert ["Dashboard Report", "", "Statistics"] + ["Metric,Value"] == ReportHeader;
  }

  /** The five statistics rows and the blank line after them, as the export appends them. */
  lemma StatisticsAppends(lines: seq<string>, st: Stats)
    ensures Terminated(lines + StatisticsLines(st) + [""]) ==
      Terminated(lines)
      + ("Total Users," + NatToString(st.totalUsers) + "\n")
      + ("Total Revenue,$" + DecimalToString(st.totalRevenue) + "\n")
      + ("Total Orders," + NatToString(st.totalOrders) + "\n")
      + ("Conversion Rate," + DecimalToString(st.conversionRate) + "%\n")
      + ("Active Users," + NatToString(st.activeUsers) + "\n\n")
  {
    var rows := StatisticsLines(st);
    TerminatedSnoc(lines, rows[0]);
    TerminatedSnoc(lines + [rows[0]], rows[1]);
    TerminatedSnoc(lines + [rows[0], rows[1]], rows[2]);
    TerminatedSnoc(lines + [rows[0], rows[1], rows[2]], rows[3]);
    TerminatedThenBlank(lines + [rows[0], rows[1], rows[2], rows[3]], rows[4]);
    assert lines + [rows[0]] + [rows[1]] == lines + [rows[0], rows[1]];
    assert lines + [rows[0], rows[1]] + [rows[2]] == lines + [rows[0], rows[1], rows[2]];
    assert lines + [rows[0], rows[1], rows[2]] + [rows[3]] == lines + [rows[0], rows[1], rows[2], rows[3]];
    assert lines + [rows[0], rows[1], rows[2], rows[3]] + [rows[4], ""] == lines + rows + [""];
  }

  /**
   The lines before the first sales row, as the export appends them: one piece
   per append, the title and the last statistic each followed by a blank line.
   */
  lemma ReportHeadText(st: Stats)
    ensures Terminated(ReportHead(st)) ==
      "Dashboard Report\n\n" + "Statistics\n" + "Metric,Value\n"
      + ("Total Users," + NatToString(st.totalUsers) + "\n")
      + ("Total Revenue,$" + DecimalToString(st.totalRevenue) + "\n")
      + ("Total Orders," + NatToString(st.totalOrders) + "\n")
      + ("Conversion Rate," + DecimalToString(st.conversionRate) + "%\n")
      + ("Active Users," + NatToString(st.activeUsers) + "\n\n")
      + "Sales Data\n" + "Month,Sales\n"
  {
    var lines := ReportHeader + StatisticsLines(st) + [""];
    ReportHeaderAppends();
    StatisticsAppends(ReportHeader, st);
    TerminatedSnoc(lines, "Sales Data");
    assert "Sales Data" + "\n" == "Sales Data\n";
    TerminatedSnoc(lines + ["Sales Data"], "Month,Sales");
    assert "Month,Sales" + "\n" == "Month,Sales\n";
    assert lines + ["Sales Data"] + ["Month,Sales"] == ReportHead(st);
  }

  /** The user-distribution headings, as the export appends them. */
  lemma UsersHeaderAppends(lines: seq<string>)
    ensures Terminated(lines + UsersHeader) == Terminated(lines) + "\nUser Distribution\n" + "Category,Value\n"
  {
    var heading := lines + ["", "User Distribution"];
    TerminatedBlankThen(lines, "User Distribution");
    assert "\n" + "User Distribution" + "\n" == "\nUser Distribution\n";
    TerminatedSnoc(heading, "Category,Value");
    assert "Category,Value" + "\n" == "Category,Value\n";
    assert heading + ["Category,Value"] == lines + UsersHeader;
  }

  /**
   The exported CSV text: every report line followed by a line break. When no
   label holds a line break, a reader splitting the text at line breaks gets
   back exactly the report's lines.
   */
  function CsvText(st: Stats, sales: seq<SalesPoint>, users: seq<UserSegment>): (text: string)
    ensures LabelsOnOneLine(sales, users) ==> SplitLines(text) == ReportLines(st, sales, users)
  {
    var lines := ReportLines(st, sales, users);
    assert LabelsOnOneLine(sales, users) ==> SplitLines(Terminated(lines)) == lines by {
      if LabelsOnOneLine(sales, users) {
        ReportLinesOnOneLine(st, sales, users);
        SplitTerminated(lines);
      }
    }
    Terminated(lines)
  }

  /** No month or category label contains a line break. */
  predicate LabelsOnOneLine(sales: seq<SalesPoint>, users: seq<UserSegment>) {
    && (forall k :: 0 <= k < |sales| ==> NoLineBreak(sales[k].month))
    && (forall k :: 0 <= k < |users| ==> NoLineBreak(users[k].name))
  }

  lemma NumeralOnOneLine(s: string)
    requires IsNumeral(s)
    ensures NoLineBreak(s)
  {
  }

  /** Every line of `lines` is free of line breaks. */
  predicate AllOnOneLine(lines: seq<string>) {
    forall i :: 0 <= i < |lines| ==> NoLineBreak(lines[i])
  }

  lemma AllOnOneLineAppend(a: seq<string>, b: seq<string>)
    requires AllOnOneLine(a) && AllOnOneLine(b)
    ensures AllOnOneLine(a + b)
  {
    forall i | 0 <= i < |a + b|
      ensures NoLineBreak((a + b)[i])
    {
      if i < |a| {
        assert (a + b)[i] == a[i];
      } else {
        assert (a + b)[i] == b[i - |a|];
      }
    }
  }

  /** Joining two texts without line breaks gives a text without one. */
  lemma JoinOnOneLine(a: string, b: string)
    requires NoLineBreak(a) && NoLineBreak(b)
    ensures NoLineBreak(a + b)
  {
  }

  lemma StatisticsOnOneLine(st: Stats)
    ensures AllOnOneLine(StatisticsLines(st))
  {
    NumeralOnOneLine(NatToString(st.totalUsers));
    NumeralOnOneLine(DecimalToString(st.totalRevenue));
    NumeralOnOneLine(NatToString(st.totalOrders));
    NumeralOnOneLine(DecimalToString(st.conversionRate));
    NumeralOnOneLine(NatToString(st.activeUsers));
    JoinOnOneLine("Total Users,", NatToString(st.totalUsers));
    JoinOnOneLine("Total Revenue,$", DecimalToString(st.totalRevenue));
    JoinOnOneLine("Total Orders,", NatToString(st.totalOrders));
    JoinOnOneLine("Conversion Rate,", DecimalToString(st.conversionRate));
    JoinOnOneLine("Conversion Rate," + DecimalToString(st.conversionRate), "%");
    JoinOnOneLine("Active Users,", NatToString(st.activeUsers));
  }

  lemma SalesRowsOnOneLine(sales: seq<SalesPoint>)
    requires forall k :: 0 <= k < |sales| ==> NoLineBreak(sales[k].month)
    ensures AllOnOneLine(SalesRows(sales))
  {
    forall k | 0 <= k < |sales|
      ensures NoLineBreak(SalesRow(sales[k]))
    {
      NumeralOnOneLine(DecimalToString(sales[k].sales));
      JoinOnOneLine(sales[k].month, ",");
      JoinOnOneLine(sales[k].month + ",", DecimalToString(sales[k].sales));
    }
  }

  lemma SegmentRowsOnOneLine(users: seq<UserSegment>)
    requires forall k :: 0 <= k < |users| ==> NoLineBreak(users[k].name)
    ensures AllOnOneLine(SegmentRows(users))
  {
    forall k | 0 <= k < |users|
      ensures NoLineBreak(SegmentRow(users[k]))
    {
      NumeralOnOneLine(NatToString(users[k].value));
      JoinOnOneLine(users[k].name, ",");
      JoinOnOneLine(users[k].name + ",", NatToString(users[k].value));
    }
  }

  lemma ReportLinesOnOneLine(st: Stats, sales: seq<SalesPoint>, users: seq<UserSegment>)
    requires LabelsOnOneLine(sales, users)
    ensures AllOnOneLine(ReportLines(st, sales, users))
  {
    StatisticsOnOneLine(st);
    SalesRowsOnOneLine(sales);
    SegmentRowsOnOneLine(users);
    AllOnOneLineAppend(ReportHeader, StatisticsLines(st));
    AllOnOneLineAppend(ReportHeader + StatisticsLines(st), SalesHeader);
    AllOnOneLineAppend(ReportHead(st), SalesRows(sales));
    AllOnOneLineAppend(ReportHead(st) + SalesRows(sales), UsersHeader);
    AllOnOneLineAppend(ReportHead(st) + SalesRows(sales) + UsersHeader, SegmentRows(users));
  }

  /** The report holds exactly 15 + |sales| + |users| line breaks when no label holds one. */
  lemma CsvLineBreakCount(st: Stats, sales: seq<SalesPoint>, users: seq<UserSegment>)
    requires LabelsOnOneLine(sales, users)
    ensures CountChar(CsvText(st, sales, users), '\n') == 15 + |sales| + |users|
  {
    ReportLinesOnOneLine(st, sales, users);
    TerminatedLineBreaks(ReportLines(st, sales, users));
  }

  /** The report always opens with the title, a blank line and the statistics headings. */
  lemma CsvStartsWithHeader(st: Stats, sales: seq<SalesPoint>, users: seq<UserSegment>)
    ensures "Dashboard Report\n\n" + "Statistics\n" + "Metric,Value\n" <= CsvText(st, sales, users)
  {
    var lines := ReportLines(st, sales, users);
    assert lines == ReportHeader + lines[4..];
    TerminatedAppend(ReportHeader, lines[4..]);
    ReportHeaderAppends();
  }

  /** With no sales and no users the report holds only headings and the statistics block. */
  lemma CsvOfEmptySeries(st: Stats)
    ensures CsvText(st, [], []) ==
      "Dashboard Report\n\n" + "Statistics\n" + "Metric,Value\n"
      + ("Total Users," + NatToString(st.totalUsers) + "\n")
      + ("Total Revenue,$" + DecimalToString(st.totalRevenue) + "\n")
      + ("Total Orders," + NatToString(st.totalOrders) + "\n")
      + ("Conversion Rate," + DecimalToString(st.conversionRate) + "%\n")
      + ("Active Users," + NatToString(st.activeUsers) + "\n\n")
      + "Sales Data\n" + "Month,Sales\n"
      + "\nUser Distribution\n" + "Category,Value\n"
  {
    assert ReportLines(st, [], []) == ReportHead(st) + UsersHeader;
    UsersHeaderAppends(ReportHead(st));
    ReportHeadText(st);
  }

  /** The fallback dataset's revenue and conversion-rate rows. */
  lemma FallbackStatisticsRows()
    ensures StatisticsLines(FallbackStats)[1] == "Total Revenue,$45678"
    ensures StatisticsLines(FallbackStats)[3] == "Conversion Rate,5.2%"
  {
    assert NatToString(4) == "4";
    assert NatToString(45) == "45";
    assert NatToString(456) == "456";
    assert NatToString(4567) == "4567";
    assert NatToString(45678) == "45678";
    assert NatToString(5) == "5";
    assert DigitsToString([2]) == "2";
  }

  /**
   When the statistics were committed from a response, the report's "Active Users"
   row carries the estimate from the total, not a figure the server sent.
   */
  lemma CsvActiveUsersRow(st: Stats, sales: seq<SalesPoint>, users: seq<UserSegment>)
    requires ActiveUsersDerived(st)
    ensures ReportLines(st, sales, users)[8] == "Active Users," + NatToString(EstimateActiveUsers(st.totalUsers))
  {
  }
}
