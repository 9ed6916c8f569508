/**
 The admin dashboard component: its four pieces of state, the refresh handler
 that replaces the data from the backend or from the fallback dataset, and the
 two export handlers that read the state and produce what is downloaded.
 */
module Dashboard {
  import opened Wrappers
  import opened Render
  import opened DashboardData
  import opened CsvReport
  import opened JsonReport
  import opened FileNames

  class AdminDashboard {
    var salesData: seq<SalesPoint>
    var userData: seq<UserSegment>
    var stats: Stats
    var loading: bool

    /** The component's invariant: `activeUsers` is the estimate derived from `totalUsers`. */
    ghost predicate Valid()
      reads this
    {
      ActiveUsersDerived(stats)
    }

    /** A freshly mounted dashboard: no series, zero statistics, and a load under way. */
    constructor ()
      ensures salesData == [] && userData == [] && stats == InitialStats && loading
      ensures Valid()
    {
      salesData := [];
      userData := [];
      stats := InitialStats;
      loading := true;
    }

    /**
     One refresh. `result` is the outcome of the request and of parsing its body:
     `None` for any failure (network error, unparsable body, missing `stats`).
     All three containers are replaced, from the answer or from the fallback
     dataset, whatever they held before; `loading` is clear afterwards.
     */
    method FetchDashboardData(result: Option<Response>)
      modifies this
      ensures result.Some? ==>
        && salesData == result.value.salesData
        && userData == result.value.userData
        && stats == CommitStats(result.value.stats)
      ensures result.None? ==>
        salesData == FallbackSales && userData == FallbackUsers && stats == FallbackStats
      ensures !loading
      ensures Valid()
    {
      loading := true;
      match result {
        case Some(response) =>
          salesData := response.salesData;
          userData := response.userData;
          stats := CommitStats(response.stats);
        case None =>
          salesData := FallbackSales;
          userData := FallbackUsers;
          stats := FallbackStats;
      }
      loading := false;
    }

    /**
     The CSV export: the report text built by appending section by section, and
     the file name for the download time `now`. The state is only read.
     */
    method DownloadCsv(now: string) returns (csv: string, fileName: string)
      ensures csv == CsvText(stats, salesData, userData)
      ensures fileName == ExportFileName(now, Csv)
    {
      csv := "Dashboard Report\n\n";
      csv := csv + "Statistics\n";
      csv := csv + "Metric,Value\n";
      csv := csv + ("Total Users," + NatToString(stats.totalUsers) + "\n");
      csv := csv + ("Total Revenue,$" + DecimalToString(stats.totalRevenue) + "\n");
      csv := csv + ("Total Orders," + NatToString(stats.totalOrders) + "\n");
      csv := csv + ("Conversion Rate," + DecimalToString(stats.conversionRate) + "%\n");
      csv := csv + ("Active Users," + NatToString(stats.activeUsers) + "\n\n");

      csv := csv + "Sales Data\n";
      csv := csv + "Month,Sales\n";
      ReportHeadText(stats);
      ghost var lines := ReportHead(stats);
      assert ReportHead(stats) + SalesRows(salesData[..0]) == ReportHead(stats);

      for i := 0 to |salesData|
        invariant csv == Terminated(ReportHead(stats) + SalesRows(salesData[..i]))
      {
        SalesRowsStep(ReportHead(stats), salesData, i);
        csv := csv + (salesData[i].month + "," + DecimalToString(salesData[i].sales) + "\n");
        TerminatedSnoc(ReportHead(stats) + SalesRows(salesData[..i]), SalesRow(salesData[i]));
      }
      assert salesData[..|salesData|] == salesData;
      lines := lines + SalesRows(salesData);

      csv := csv + "\nUser Distribution\n";
      csv := csv + "Category,Value\n";
      UsersHeaderAppends(lines);
      lines := lines + UsersHeader;
      assert lines + SegmentRows(userData[..0]) == lines;
      for i := 0 to |userData|
        invariant csv == Terminated(lines + SegmentRows(userData[..i]))
      {
        SegmentRowsStep(lines, userData, i);
        csv := csv + (userData[i].name + "," + NatToString(userData[i].value) + "\n");
        TerminatedSnoc(lines + SegmentRows(userData[..i]), SegmentRow(userData[i]));
      }
      assert userData[..|userData|] == userData;

      fileName := ExportFileName(now, Csv);
    }

    /**
     The JSON export: the snapshot record of the current state, stamped with
     `generatedAt`, and the file name for `now`. The source reads the clock
     twice, once for each, so the two instants are separate inputs.
     */
    method DownloadDashboardData(generatedAt: string, now: string)
      returns (doc: ExportDocument, fileName: string)
      ensures doc == Snapshot(generatedAt, stats, salesData, userData)
      ensures fileName == ExportFileName(now, Json)
    {
      doc := Snapshot(generatedAt, stats, salesData, userData);
      fileName := ExportFileName(now, Json);
    }
  }
}
