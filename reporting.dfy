/**
 * The daily revenue report: fetch a bearer token, fetch yesterday's per-app
 * report for every ad network, load the spreadsheet's sheets by title, and
 * append to each network's sheet one row holding the date and, per app key,
 * the revenue summed over the report's rows.
 *
 * The ad network's API and the spreadsheet are objects with request and
 * write logs; the report parsing and the row construction are functions.
 */
module Reporting {
  import opened Common
  import opened Calendar

  const IRONSOURCE_AUTH_URL: string := "https://platform.ironsrc.com/partners/publisher/auth"
  const IRONSOURCE_REPORTING_URL: string :=
    "https://platform.ironsrc.com/partners/publisher/mediation/applications/v6/stats"
  const AD_NETWORKS: seq<string> := ["ironSource"]

  /** One row of an app's report; only `revenue` is used, the other columns are kept for the lemmas. */
  datatype AppData = AppData(revenue: real, eCPM: real, impressions: int)

  /** One app's report for the day. */
  datatype AppReport = AppReport(appKey: string, date: string, data: seq<AppData>)

  /** The sum of `revenue` over the rows, added up from the first row on, starting at 0. */
  function Revenue(rows: seq<AppData>): (total: real)
    ensures (forall i :: 0 <= i < |rows| ==> rows[i].revenue >= 0.0) ==> total >= 0.0
  {
    if rows == [] then 0.0 else Revenue(rows[..|rows| - 1]) + rows[|rows| - 1].revenue
  }

  /** The app keys that occur in a list of reports. */
  function AppKeys(reports: seq<AppReport>): set<string>
  {
    set i | 0 <= i < |reports| :: reports[i].appKey
  }

  /**
   * `parseReport`: a fold over the reports that assigns to each report's app
   * key the revenue of its rows.
   */
  function ParseReport(reports: seq<AppReport>): (byApp: map<string, real>)
    ensures byApp.Keys == AppKeys(reports)
  {
    if reports == [] then map[]
    else
      var last := reports[|reports| - 1];
      var before := reports[..|reports| - 1];
      assert AppKeys(reports) == AppKeys(before) + {last.appKey} by {
        forall k | k in AppKeys(reports) ensures k in AppKeys(before) + {last.appKey} {
          var i :| 0 <= i < |reports| && reports[i].appKey == k;
          if i < |reports| - 1 { assert before[i] == reports[i]; }
        }
        forall k | k in AppKeys(before) ensures k in AppKeys(reports) {
          var i :| 0 <= i < |before| && before[i].appKey == k;
          assert reports[i] == before[i];
        }
      }
      ParseReport(before)[last.appKey := Revenue(last.data)]
  }

  /** Every row counts: the revenue of two stretches of rows is the sum of their revenues. */
  lemma {:induction false} RevenueConcat(a: seq<AppData>, b: seq<AppData>)
    ensures Revenue(a + b) == Revenue(a) + Revenue(b)
    decreases |b|
  {
    if b == [] {
      assert a + b == a;
    } else {
      var b' := b[..|b| - 1];
      assert (a + b)[..|a + b| - 1] == a + b';
      assert (a + b)[|a + b| - 1] == b[|b| - 1];
      RevenueConcat(a, b');
    }
  }

  /** The revenue depends on the `revenue` column alone, whatever `eCPM` and `impressions` hold. */
  lemma {:induction false} RevenueReadsOnlyRevenue(a: seq<AppData>, b: seq<AppData>)
    requires |a| == |b|
    requires forall i :: 0 <= i < |a| ==> a[i].revenue == b[i].revenue
    ensures Revenue(a) == Revenue(b)
    decreases |a|
  {
    if a != [] {
      RevenueReadsOnlyRevenue(a[..|a| - 1], b[..|b| - 1]);
    }
  }

  /**
   * An app key maps to the revenue of the LAST report carrying it: a later
   * report with the same key replaces an earlier one's sum.
   */
  lemma {:induction false} ParseReportLastWins(reports: seq<AppReport>, i: nat)
    requires i < |reports|
    requires forall j :: i < j < |reports| ==> reports[j].appKey != reports[i].appKey
    ensures ParseReport(reports)[reports[i].appKey] == Revenue(reports[i].data)
    decreases |reports|
  {
    if i < |reports| - 1 {
      var before := reports[..|reports| - 1];
      assert before[i] == reports[i];
      ParseReportLastWins(before, i);
    }
  }

  /** Two reports for one app: the second's sum is kept, the two sums are not added. */
  lemma ParseReportAssignsNotAccumulates(first: AppReport, second: AppReport)
    requires first.appKey == second.appKey
    ensures ParseReport([first, second]) == map[first.appKey := Revenue(second.data)]
  {
    assert [first, second][..1] == [first];
    assert [first][..0] == [];
  }

  /** The reporting fixture: a zero-eCPM row still contributes its revenue. */
  lemma ParseReportFixture()
    ensures var rows := [AppData(revenue := 0.02, eCPM := 2.0, impressions := 100),
                         AppData(revenue := 0.02, eCPM := 0.0, impressions := 50),
                         AppData(revenue := 0.03, eCPM := 3.0, impressions := 10)];
            ParseReport([AppReport("appKey", "2020-04-03", rows)]) == map["appKey" := 0.07]
  {
    var rows := [AppData(revenue := 0.02, eCPM := 2.0, impressions := 100),
                 AppData(revenue := 0.02, eCPM := 0.0, impressions := 50),
                 AppData(revenue := 0.03, eCPM := 3.0, impressions := 10)];
    assert rows[..2][..1][..0] == [];
    assert Revenue([]) == 0.0;
    assert Revenue(rows[..2][..1]) == 0.02;
    assert Revenue(rows[..2]) == 0.04;
    assert Revenue(rows) == 0.07;
    var reports := [AppReport("appKey", "2020-04-03", rows)];
    assert reports[..0] == [];
  }

  // ---- the sheet row ----

  /** A spreadsheet cell: the date column holds text, the app columns numbers. */
  datatype Cell = Text(text: string) | Number(number: real)

  type Row = map<string, Cell>

  /**
   * `{Date: startDate, ...parseReport(report)}`: the date column overlaid by
   * the per-app revenues (an app key spelled `Date` would overwrite the date).
   */
  function SheetRow(startDate: string, reports: seq<AppReport>): (row: Row)
    ensures row.Keys == {"Date"} + AppKeys(reports)
    ensures "Date" !in AppKeys(reports) ==> row["Date"] == Text(startDate)
    ensures forall k :: k in AppKeys(reports) ==> row[k] == Number(ParseReport(reports)[k])
  {
    var byApp := ParseReport(reports);
    map["Date" := Text(startDate)] + map k | k in byApp :: Number(byApp[k])
  }

  /** The single date, yesterday's, used as both the start and the end of the range. */
  function ReportDay(today: Date): (day: string)
    requires ValidDate(today)
    ensures 0 <= PreviousDay(today).year <= 9999 ==> ParseDate(day) == Some(PreviousDay(today))
  {
    var yesterday := PreviousDay(today);
    if 0 <= yesterday.year <= 9999 then
      FormatParseRoundTrip(yesterday);
      FormatDate(yesterday)
    else
      FormatDate(yesterday)
  }

  /** The reporting fixture: run on 2020-01-01, the report covers 2019-12-31. */
  lemma ReportDayFixture()
    ensures ReportDay(Date(2020, 1, 1)) == "2019-12-31"
  {
    assert PreviousDay(Date(2020, 1, 1)) == Date(2019, 12, 31);
    assert Decimal(2) == "2";
    assert Decimal(20) == "20";
    assert Decimal(201) == "201";
    assert Decimal(2019) == "2019";
    assert Decimal(12) == "12";
    assert Decimal(3) == "3";
    assert Decimal(31) == "31";
    assert ZeroFill(2019, 4) == "2019";
    assert ZeroFill(12, 2) == "12";
    assert ZeroFill(31, 2) == "31";
  }

  // ---- the spreadsheet ----

  /**
   * The spreadsheet document. A sheet is identified by its position in
   * `sheetsByIndex`, which holds its title, or None where the document has no
   * sheet. The two logs record the calls made on the sheets, in order.
   */
  class Doc {
    const sheetsByIndex: seq<Option<string>>
    var headerLoads: seq<nat>
    var addedRows: seq<(nat, Row)>

    constructor (sheetsByIndex: seq<Option<string>>)
      ensures this.sheetsByIndex == sheetsByIndex && headerLoads == [] && addedRows == []
    {
      this.sheetsByIndex := sheetsByIndex;
      headerLoads := [];
      addedRows := [];
    }

    /** `sheet.loadHeaderRow()` on the sheet at `index`. */
    method LoadHeaderRow(index: nat)
      modifies this`headerLoads
      ensures headerLoads == old(headerLoads) + [index]
    {
      headerLoads := headerLoads + [index];
    }

    /** `sheet.addRow(row)` on the sheet at `index`. */
    method AddRow(index: nat, row: Row)
      modifies this`addedRows
      ensures addedRows == old(addedRows) + [(index, row)]
    {
      addedRows := addedRows + [(index, row)];
    }
  }

  /** How many sheets are visited: the index of the first missing sheet. */
  function VisitedCount(sheets: seq<Option<string>>): (n: nat)
    ensures n <= |sheets|
    ensures forall i :: 0 <= i < n ==> sheets[i].Some?
    ensures n < |sheets| ==> sheets[n].None?
  {
    if sheets == [] || sheets[0].None? then 0 else 1 + VisitedCount(sheets[1..])
  }

  /** 0, 1, ..., n - 1. */
  function Indices(n: nat): (s: seq<nat>)
    ensures |s| == n && forall i :: 0 <= i < n ==> s[i] == i
  {
    if n == 0 then [] else Indices(n - 1) + [n - 1]
  }

  /** The titles of the first `n` sheets. */
  function Titles(sheets: seq<Option<string>>, n: nat): set<string>
    requires n <= |sheets| && forall i :: 0 <= i < n ==> sheets[i].Some?
  {
    if n == 0 then {} else Titles(sheets, n - 1) + {sheets[n - 1].value}
  }

  /** The title-to-sheet dictionary built from the first `n` sheets, a later sheet overwriting an earlier one. */
  function TitleIndex(sheets: seq<Option<string>>, n: nat): (byTitle: map<string, nat>)
    requires n <= |sheets| && forall i :: 0 <= i < n ==> sheets[i].Some?
    ensures byTitle.Keys == Titles(sheets, n)
  {
    if n == 0 then map[] else TitleIndex(sheets, n - 1)[sheets[n - 1].value := n - 1]
  }

  /** Every title among the first `n` sheets is in the dictionary. */
  lemma {:induction false} TitleIndexHasEveryTitle(sheets: seq<Option<string>>, n: nat, i: nat)
    requires n <= |sheets| && forall k :: 0 <= k < n ==> sheets[k].Some?
    requires i < n
    ensures sheets[i].value in TitleIndex(sheets, n)
  {
    if i < n - 1 {
      TitleIndexHasEveryTitle(sheets, n - 1, i);
    }
  }

  /** A title maps to a sheet carrying it, and no later one among the first `n` carries it. */
  lemma {:induction false} TitleIndexPicksLastSheet(sheets: seq<Option<string>>, n: nat, t: string)
    requires n <= |sheets| && forall k :: 0 <= k < n ==> sheets[k].Some?
    requires t in TitleIndex(sheets, n)
    ensures TitleIndex(sheets, n)[t] < n && sheets[TitleIndex(sheets, n)[t]] == Some(t)
    ensures forall j :: TitleIndex(sheets, n)[t] < j < n ==> sheets[j] != Some(t)
  {
    if t != sheets[n - 1].value {
      TitleIndexPicksLastSheet(sheets, n - 1, t);
    }
  }

  /**
   * `loadAllSheets`: visit the sheets from index 0 upward until the first
   * missing one, loading each one's header row, and index them by title.
   */
  method LoadAllSheets(doc: Doc) returns (sheets: map<string, nat>)
    modifies doc`headerLoads
    ensures sheets == TitleIndex(doc.sheetsByIndex, VisitedCount(doc.sheetsByIndex))
    ensures doc.headerLoads == old(doc.headerLoads) + Indices(VisitedCount(doc.sheetsByIndex))
  {
    sheets := map[];
    var i := 0;
    while true
      invariant i <= VisitedCount(doc.sheetsByIndex)
      invariant sheets == TitleIndex(doc.sheetsByIndex, i)
      invariant doc.headerLoads == old(doc.headerLoads) + Indices(i)
      decreases |doc.sheetsByIndex| - i
    {
      var sheet := if i < |doc.sheetsByIndex| then doc.sheetsByIndex[i] else None;
      if sheet.None? {
        break;
      }
      doc.LoadHeaderRow(i);
      sheets := sheets[sheet.value := i];
      i := i + 1;
    }
  }

  // ---- the ad network's API ----

  /** An outbound GET request with its headers. */
  datatype Request = Request(url: string, headers: seq<(string, string)>)

  /** The value of the first header with this name, if any. */
  function HeaderValue(headers: seq<(string, string)>, name: string): Option<string>
  {
    if headers == [] then None
    else if headers[0].0 == name then Some(headers[0].1)
    else HeaderValue(headers[1..], name)
  }

  /** The token request: the auth URL, carrying the secret key and the refresh token. */
  function AuthRequest(secretKey: string, refreshToken: string): (r: Request)
    ensures r.url == IRONSOURCE_AUTH_URL
    ensures HeaderValue(r.headers, "secretkey") == Some(secretKey)
    ensures HeaderValue(r.headers, "refreshToken") == Some(refreshToken)
    ensures HeaderValue(r.headers, "Authorization") == None
  {
    var headers := [("secretkey", secretKey), ("refreshToken", refreshToken)];
    assert headers[1..][1..] == [];
    assert HeaderValue(headers[1..], "Authorization") == None;
    Request(IRONSOURCE_AUTH_URL, headers)
  }

  /** The report URL: the stats endpoint, queried first by start date and last by ad source. */
  function StatsUrl(startDate: string, endDate: string, adSource: string): (url: string)
    ensures IRONSOURCE_REPORTING_URL + "?startDate=" + startDate <= url
    ensures var tail := "&adSource=" + adSource; |tail| <= |url| && url[|url| - |tail|..] == tail
  {
    var head := IRONSOURCE_REPORTING_URL + "?startDate=" + startDate;
    var middle := "&endDate=" + endDate + "&breakdown=app&ironSource";
    assert (head + middle + ("&adSource=" + adSource))[..|head|] == head;
    head + middle + ("&adSource=" + adSource)
  }

  /** A report request: the report URL, carrying the bearer token. */
  /** The report URL as one left-to-right concatenation, as the template string writes it. */
  lemma StatsUrlFlat(startDate: string, endDate: string, adSource: string)
    ensures StatsUrl(startDate, endDate, adSource)
            == IRONSOURCE_REPORTING_URL + "?startDate=" + startDate + "&endDate=" + endDate
               + "&breakdown=app&ironSource" + "&adSource=" + adSource
  {
  }

  /** The test's report query, joined from the template's pieces. */
  lemma FixtureStatsQueryLiteral()
    ensures "?startDate=" + "2019-12-31" + "&endDate=" + "2019-12-31" + "&breakdown=app&ironSource"
            + "&adSource=" + "ironSource"
            == "?startDate=2019-12-31&endDate=2019-12-31&breakdown=app&ironSource&adSource=ironSource"
  {
    var a := "?startDate=" + "2019-12-31";
    assert a == "?startDate=2019-12-31";
    var b := a + "&endDate=";
    assert b == "?startDate=2019-12-31&endDate=";
    var c := b + "2019-12-31";
    assert c == "?startDate=2019-12-31&endDate=2019-12-31";
    var d := c + "&breakdown=app&ironSource";
    assert d == "?startDate=2019-12-31&endDate=2019-12-31&breakdown=app&ironSource";
    var e := d + "&adSource=";
    assert e == "?startDate=2019-12-31&endDate=2019-12-31&breakdown=app&ironSource&adSource=";
    assert e + "ironSource" == "?startDate=2019-12-31&endDate=2019-12-31&breakdown=app&ironSource&adSource=ironSource";
  }

  /** The report URL of the reporting fixture: yesterday as both dates, for the one ad network. */
  lemma StatsUrlFixture()
    ensures StatsUrl("2019-12-31", "2019-12-31", "ironSource")
            == IRONSOURCE_REPORTING_URL
               + "?startDate=2019-12-31&endDate=2019-12-31&breakdown=app&ironSource&adSource=ironSource"
  {
    StatsUrlFlat("2019-12-31", "2019-12-31", "ironSource");
    FixtureStatsQueryLiteral();
    JoinPieces(IRONSOURCE_REPORTING_URL, "?startDate=", "2019-12-31", "&endDate=", "2019-12-31",
               "&breakdown=app&ironSource", "&adSource=", "ironSource");
  }

  /** Left-nested joining of eight pieces equals the first piece followed by the rest joined. */
  lemma JoinPieces(p0: string, p1: string, p2: string, p3: string, p4: string, p5: string, p6: string, p7: string)
    ensures p0 + p1 + p2 + p3 + p4 + p5 + p6 + p7 == p0 + (p1 + p2 + p3 + p4 + p5 + p6 + p7)
  {
  }

  function StatsRequest(startDate: string, endDate: string, bearerToken: string, adSource: string): (r: Request)
    ensures r.url == StatsUrl(startDate, endDate, adSource)
    ensures HeaderValue(r.headers, "Authorization") == Some("Bearer " + bearerToken)
    ensures HeaderValue(r.headers, "secretkey") == None
  {
    Request(StatsUrl(startDate, endDate, adSource), [("Authorization", "Bearer " + bearerToken)])
  }

  /**
   * The ad network's API as seen by the job: the token its auth endpoint
   * returns and the report each stats URL returns (None, or an absent URL,
   * where the call rejects), and the log of the requests made to it.
   */
  class AdNetworkApi {
    const authReply: Option<string>
    const statsReplies: map<string, seq<AppReport>>
    var requests: seq<Request>

    constructor (authReply: Option<string>, statsReplies: map<string, seq<AppReport>>)
      ensures this.authReply == authReply && this.statsReplies == statsReplies && requests == []
    {
      this.authReply := authReply;
      this.statsReplies := statsReplies;
      requests := [];
    }

    method GetBearerToken(secretKey: string, refreshToken: string) returns (token: Option<string>)
      modifies this`requests
      ensures requests == old(requests) + [AuthRequest(secretKey, refreshToken)]
      ensures token == authReply
    {
      requests := requests + [AuthRequest(secretKey, refreshToken)];
      token := authReply;
    }

    method GetYesterdayReport(startDate: string, endDate: string, bearerToken: string, adSource: string)
      returns (report: Option<seq<AppReport>>)
      modifies this`requests
      ensures requests == old(requests) + [StatsRequest(startDate, endDate, bearerToken, adSource)]
      ensures report == StatsReply(statsReplies, StatsUrl(startDate, endDate, adSource))
    {
      requests := requests + [StatsRequest(startDate, endDate, bearerToken, adSource)];
      report := StatsReply(statsReplies, StatsUrl(startDate, endDate, adSource));
    }
  }

  function StatsReply(replies: map<string, seq<AppReport>>, url: string): Option<seq<AppReport>>
  {
    if url in replies then Some(replies[url]) else None
  }

  /** The report requests of one run, one per network, in order. */
  function StatsRequests(networks: seq<string>, day: string, bearerToken: string): (rs: seq<Request>)
    ensures |rs| == |networks|
    ensures forall i :: 0 <= i < |networks| ==> rs[i] == StatsRequest(day, day, bearerToken, networks[i])
  {
    if networks == [] then []
    else StatsRequests(networks[..|networks| - 1], day, bearerToken)
           + [StatsRequest(day, day, bearerToken, networks[|networks| - 1])]
  }

  /** The replies to those requests, in order. */
  function StatsReplies(replies: map<string, seq<AppReport>>, networks: seq<string>, day: string)
    : (rs: seq<Option<seq<AppReport>>>)
    ensures |rs| == |networks|
    ensures forall i :: 0 <= i < |networks| ==> rs[i] == StatsReply(replies, StatsUrl(day, day, networks[i]))
  {
    if networks == [] then []
    else StatsReplies(replies, networks[..|networks| - 1], day)
           + [StatsReply(replies, StatsUrl(day, day, networks[|networks| - 1]))]
  }

  /** `Promise.all`: every reply, or None as soon as one call rejects. */
  function AllReplies(replies: seq<Option<seq<AppReport>>>): (all: Option<seq<seq<AppReport>>>)
    ensures all.Some? <==> forall i :: 0 <= i < |replies| ==> replies[i].Some?
    ensures all.Some? ==> |all.value| == |replies| &&
                          forall i :: 0 <= i < |replies| ==> replies[i] == Some(all.value[i])
  {
    if replies == [] then Some([])
    else
      match AllReplies(replies[..|replies| - 1])
      case None => None
      case Some(before) =>
        match replies[|replies| - 1]
        case None => None
        case Some(last) => Some(before + [last])
  }

  /**
   * The rows appended for the networks, in order: the network's row goes to
   * the sheet its name is the title of, and a network without such a sheet
   * gets no row.
   */
  function RowsWritten(networks: seq<string>, reports: seq<seq<AppReport>>,
                       sheets: map<string, nat>, day: string): (rows: seq<(nat, Row)>)
    requires |networks| == |reports|
    ensures |rows| <= |networks|
  {
    if networks == [] then []
    else
      var n := |networks| - 1;
      RowsWritten(networks[..n], reports[..n], sheets, day)
        + (if networks[n] in sheets then [(sheets[networks[n]], SheetRow(day, reports[n]))] else [])
  }

  /** When every network has a sheet, there is one row per network, in order, on that network's sheet. */
  lemma {:induction false} RowsWrittenOnePerNetwork(networks: seq<string>, reports: seq<seq<AppReport>>,
                                                    sheets: map<string, nat>, day: string)
    requires |networks| == |reports|
    requires forall i :: 0 <= i < |networks| ==> networks[i] in sheets
    ensures var rows := RowsWritten(networks, reports, sheets, day);
            |rows| == |networks| &&
            forall i :: 0 <= i < |networks| ==> rows[i] == (sheets[networks[i]], SheetRow(day, reports[i]))
  {
    if networks != [] {
      var n := |networks| - 1;
      RowsWrittenOnePerNetwork(networks[..n], reports[..n], sheets, day);
    }
  }

  /** The networks whose sheet is missing, in order. */
  function Unwritten(networks: seq<string>, sheets: map<string, nat>): (missing: seq<string>)
    ensures forall x :: x in missing <==> x in networks && x !in sheets
  {
    if networks == [] then []
    else
      var n := |networks| - 1;
      assert forall x :: x in networks <==> x in networks[..n] || x == networks[n] by {
        assert networks == networks[..n] + [networks[n]];
      }
      Unwritten(networks[..n], sheets) + (if networks[n] in sheets then [] else [networks[n]])
  }

  /** Every network gets either a row or a place in the returned list, never both and never neither. */
  lemma {:induction false} RowsAndUnwrittenPartitionNetworks(networks: seq<string>, reports: seq<seq<AppReport>>,
                                                             sheets: map<string, nat>, day: string)
    requires |networks| == |reports|
    ensures |RowsWritten(networks, reports, sheets, day)| + |Unwritten(networks, sheets)| == |networks|
  {
    if networks != [] {
      var n := |networks| - 1;
      RowsAndUnwrittenPartitionNetworks(networks[..n], reports[..n], sheets, day);
    }
  }

  /** The positions of the networks that have a sheet, in increasing order. */
  function SheetedIndices(networks: seq<string>, sheets: map<string, nat>): (ks: seq<nat>)
    ensures forall t :: 0 <= t < |ks| ==> ks[t] < |networks| && networks[ks[t]] in sheets
    ensures forall t, u :: 0 <= t < u < |ks| ==> ks[t] < ks[u]
    ensures forall i :: 0 <= i < |networks| && networks[i] in sheets ==> i in ks
  {
    if networks == [] then []
    else
      var n := |networks| - 1;
      var before := SheetedIndices(networks[..n], sheets);
      assert forall i :: 0 <= i < n ==> networks[..n][i] == networks[i];
      before + (if networks[n] in sheets then [n] else [])
  }

  /**
   * The rows are the in-order filter of the networks by "has a sheet": the
   * t-th row is the row of the t-th network that has a sheet, on its sheet.
   */
  lemma {:induction false} RowsWrittenFiltersNetworks(networks: seq<string>, reports: seq<seq<AppReport>>,
                                                      sheets: map<string, nat>, day: string)
    requires |networks| == |reports|
    ensures var rows := RowsWritten(networks, reports, sheets, day);
            var ks := SheetedIndices(networks, sheets);
            |rows| == |ks| &&
            forall t :: 0 <= t < |ks| ==> rows[t] == (sheets[networks[ks[t]]], SheetRow(day, reports[ks[t]]))
  {
    if networks != [] {
      var n := |networks| - 1;
      RowsWrittenFiltersNetworks(networks[..n], reports[..n], sheets, day);
      var ks := SheetedIndices(networks[..n], sheets);
      forall t | 0 <= t < |ks|
        ensures networks[..n][ks[t]] == networks[ks[t]] && reports[..n][ks[t]] == reports[ks[t]]
      {
      }
    }
  }

  /** Each appended row lands on a sheet titled exactly after its network. */
  lemma RowsGoToSheetsTitledByNetwork(doc: Doc, networks: seq<string>, reports: seq<seq<AppReport>>, day: string)
    requires |networks| == |reports|
    requires forall i :: 0 <= i < |networks| ==>
               networks[i] in TitleIndex(doc.sheetsByIndex, VisitedCount(doc.sheetsByIndex))
    ensures var rows := RowsWritten(networks, reports,
                                     TitleIndex(doc.sheetsByIndex, VisitedCount(doc.sheetsByIndex)), day);
            |rows| == |networks| &&
            forall i :: 0 <= i < |networks| ==>
              rows[i].0 < |doc.sheetsByIndex| && doc.sheetsByIndex[rows[i].0] == Some(networks[i]) &&
              rows[i].1 == SheetRow(day, reports[i])
  {
    var sheets := TitleIndex(doc.sheetsByIndex, VisitedCount(doc.sheetsByIndex));
    RowsWrittenOnePerNetwork(networks, reports, sheets, day);
    forall i | 0 <= i < |networks|
      ensures sheets[networks[i]] < |doc.sheetsByIndex| && doc.sheetsByIndex[sheets[networks[i]]] == Some(networks[i])
    {
      TitleIndexPicksLastSheet(doc.sheetsByIndex, VisitedCount(doc.sheetsByIndex), networks[i]);
    }
  }

  // ---- the job ----

  /** Why a run stopped before writing anything. */
  datatype Failure = AuthFailed | ReportFailed

  /** A finished run names the networks whose row could not be added. */
  datatype RunResult = Completed(unwritten: seq<string>) | Aborted(failure: Failure)

  /** `Promise.all` over the networks: one report request per network, in order. */
  method FetchReports(api: AdNetworkApi, day: string, bearerToken: string, networks: seq<string>)
    returns (replies: seq<Option<seq<AppReport>>>)
    modifies api`requests
    ensures api.requests == old(api.requests) + StatsRequests(networks, day, bearerToken)
    ensures replies == StatsReplies(api.statsReplies, networks, day)
  {
    replies := [];
    var i := 0;
    while i < |networks|
      invariant i <= |networks|
      invariant api.requests == old(api.requests) + StatsRequests(networks[..i], day, bearerToken)
      invariant replies == StatsReplies(api.statsReplies, networks[..i], day)
    {
      var reply := api.GetYesterdayReport(day, day, bearerToken, networks[i]);
      assert networks[..i + 1][..i] == networks[..i];
      replies := replies + [reply];
      i := i + 1;
    }
    assert networks[..i] == networks;
  }

  /** The `forEach` over the networks: add each one's row to its sheet, if it has one. */
  method WriteRows(doc: Doc, sheets: map<string, nat>, networks: seq<string>,
                   reports: seq<seq<AppReport>>, day: string) returns (unwritten: seq<string>)
    requires |networks| == |reports|
    modifies doc`addedRows
    ensures doc.addedRows == old(doc.addedRows) + RowsWritten(networks, reports, sheets, day)
    ensures unwritten == Unwritten(networks, sheets)
  {
    unwritten := [];
    var i := 0;
    while i < |networks|
      invariant i <= |networks|
      invariant doc.addedRows == old(doc.addedRows) + RowsWritten(networks[..i], reports[..i], sheets, day)
      invariant unwritten == Unwritten(networks[..i], sheets)
    {
      assert networks[..i + 1][..i] == networks[..i];
      assert reports[..i + 1][..i] == reports[..i];
      var adNetwork := networks[i];
      if adNetwork in sheets {
        doc.AddRow(sheets[adNetwork], SheetRow(day, reports[i]));
      } else {
        unwritten := unwritten + [adNetwork];
      }
      i := i + 1;
    }
    assert networks[..i] == networks;
    assert reports[..i] == reports;
  }

  /**
   * The reporting job, run on `today`: one token request, one report request
   * per network, then (if every call succeeded) the sheets' header rows are
   * loaded and each network's row is appended to its sheet.
   */
  method RunReporting(today: Date, secretKey: string, refreshToken: string, api: AdNetworkApi, doc: Doc)
    returns (result: RunResult)
    requires ValidDate(today)
    modifies api`requests, doc`headerLoads, doc`addedRows
    ensures var day := ReportDay(today);
            api.requests == old(api.requests) + [AuthRequest(secretKey, refreshToken)]
                            + (if api.authReply.Some? then StatsRequests(AD_NETWORKS, day, api.authReply.value) else [])
    ensures api.authReply.None? ==> result == Aborted(AuthFailed)
    ensures api.authReply.Some? &&
            AllReplies(StatsReplies(api.statsReplies, AD_NETWORKS, ReportDay(today))).None? ==>
              result == Aborted(ReportFailed)
    ensures result.Aborted? ==> doc.headerLoads == old(doc.headerLoads) && doc.addedRows == old(doc.addedRows)
    ensures var day := ReportDay(today);
            var all := AllReplies(StatsReplies(api.statsReplies, AD_NETWORKS, day));
            var visited := VisitedCount(doc.sheetsByIndex);
            var sheets := TitleIndex(doc.sheetsByIndex, visited);
            api.authReply.Some? && all.Some? ==>
              && result == Completed(Unwritten(AD_NETWORKS, sheets))
              && doc.headerLoads == old(doc.headerLoads) + Indices(visited)
              && doc.addedRows == old(doc.addedRows) + RowsWritten(AD_NETWORKS, all.value, sheets, day)
  {
    // the start and the end of the range are both yesterday's date
    var startDate := ReportDay(today);

    var bearerToken := api.GetBearerToken(secretKey, refreshToken);
    if bearerToken.None? {
      return Aborted(AuthFailed);
    }
    var replies := FetchReports(api, startDate, bearerToken.value, AD_NETWORKS);
    var reportsByAdNetwork := AllReplies(replies);
    if reportsByAdNetwork.None? {
      return Aborted(ReportFailed);
    }

    var sheets := LoadAllSheets(doc);
    var unwritten := WriteRows(doc, sheets, AD_NETWORKS, reportsByAdNetwork.value, startDate);
    return Completed(unwritten);
  }
}
