/** The "all reports" tab: a count and one list item per sample report, and the
    tab bar with Reports active. */
module ReportsScreen {
  import opened Common
  import opened TabPress

  /** A report as the list shows it. */
  datatype ReportSummary = ReportSummary(id: string, title: string, location: string, time: string, status: Status)

  const Where := "No.123/A, Area 51, Science building"

  /** The sample reports the screen holds. */
  const AllReports: seq<ReportSummary> := [
    ReportSummary("1", "Missing brown leather wallet", Where, "Just Now", Lost),
    ReportSummary("2", "Lost my wallet with phone ne...", Where, "1 hour ago", Lost),
    ReportSummary("3", "Missing black leather wallet", Where, "2 hours ago", Lost),
    ReportSummary("4", "Lost my wallet near the cant...", Where, "3 hours ago", Lost),
    ReportSummary("5", "Lost my wallet near the cant...", Where, "3 hours ago", Lost)
  ]

  /** A rendered list item: its React key and the props it receives. */
  datatype ListItem = ListItem(key: string, title: string, location: string, time: string, status: Option<Status>)

  /** `allReports.map(report => <ReportItem key={report.id} ... />)`. */
  function RenderList(reports: seq<ReportSummary>): seq<ListItem> {
    seq(|reports|, i requires 0 <= i < |reports| =>
      ListItem(reports[i].id, reports[i].title, reports[i].location, reports[i].time, Some(reports[i].status)))
  }

  /** `${allReports.length} reports`: the number shown. */
  function ReportCount(reports: seq<ReportSummary>): nat {
    |reports|
  }

  predicate DistinctIds(reports: seq<ReportSummary>) {
    forall i, j :: 0 <= i < j < |reports| ==> reports[i].id != reports[j].id
  }

  /** The list has one item per report, in order, keyed by the report's id, so
      with distinct ids the keys are distinct and the count shown is the number
      of items. */
  lemma OneItemPerReport(reports: seq<ReportSummary>)
    requires DistinctIds(reports)
    ensures |RenderList(reports)| == ReportCount(reports)
    ensures forall i :: 0 <= i < |reports| ==>
      RenderList(reports)[i].key == reports[i].id && RenderList(reports)[i].title == reports[i].title
    ensures forall i, j :: 0 <= i < j < |reports| ==> RenderList(reports)[i].key != RenderList(reports)[j].key
  {
  }

  /** The sample data has five reports with distinct ids. */
  lemma SampleDataIsWellKeyed()
    ensures ReportCount(AllReports) == 5
    ensures DistinctIds(AllReports)
  {
    forall i, j | 0 <= i < j < |AllReports| ensures AllReports[i].id != AllReports[j].id {
      assert AllReports[i].id == [('1' as int + i) as char];
      assert AllReports[j].id == [('1' as int + j) as char];
    }
  }

  class ReportsScreen {
    var activeTab: Tab

    constructor ()
      ensures activeTab == Reports
    {
      activeTab := Reports;
    }

    /** `handleTabPress`: the pressed tab becomes active, and any tab other than
        Reports is jumped to. */
    method HandleTabPress(tab: Tab) returns (nav: Option<NavAction>)
      modifies this
      ensures activeTab == tab
      ensures nav == JumpFor(Reports, tab)
    {
      activeTab := tab;
      if tab != Reports {
        nav := Some(JumpTo(tab));
      } else {
        nav := None;
      }
    }
  }
}

/** The profile tab: a placeholder page and the tab bar with Profile active. */
module ProfileScreen {
  import opened Common
  import opened TabPress

  class ProfileScreen {
    var activeTab: Tab

    constructor ()
      ensures activeTab == Profile
    {
      activeTab := Profile;
    }

    /** `handleTabPress`: the pressed tab becomes active even when the screen then
        jumps away; pressing Profile leaves Profile active and does not navigate. */
    method HandleTabPress(tab: Tab) returns (nav: Option<NavAction>)
      modifies this
      ensures activeTab == tab
      ensures nav == JumpFor(Profile, tab)
      ensures tab == Profile ==> nav.None? && activeTab == Profile
    {
      activeTab := tab;
      if tab != Profile {
        nav := Some(JumpTo(tab));
      } else {
        nav := None;
      }
    }
  }
}
