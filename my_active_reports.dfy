/** The "my active reports" tab: the user's reports, each with the found item a
    finder attached, a bottom sheet to verify ownership of it, and the success
    alert that follows. */
module MyActiveReports {
  import opened Common
  import opened Strings
  import opened TabPress
  import ReportInfo

  /** What a finder attached to a report (the images are left out). */
  datatype FoundItem = FoundItem(id: string, foundBy: string, description: string, location: string, foundDate: string)

  /** The part of the screen's state the handlers change. */
  datatype SheetState = SheetState(activeTab: Tab, showVerificationSheet: bool, selectedFound: Option<FoundItem>) {

    /** `handleTabPress`: the pressed tab becomes active. */
    function TabPressed(tab: Tab): SheetState {
      this.(activeTab := tab)
    }

    /** `openVerificationSheet(item)`: remember the item and show the sheet. */
    function OpenSheet(item: FoundItem): SheetState {
      this.(selectedFound := Some(item), showVerificationSheet := true)
    }

    /** Every way of closing the sheet: its X, Cancel, the system back request and
        both buttons of the success alert. The remembered item stays. */
    function HideSheet(): SheetState {
      this.(showVerificationSheet := false)
    }
  }

  const Initial := SheetState(Reports, false, None)

  /** `handleVerifyOwnership`: the success alert it raises, naming the item it
      captured, or `None` when no item is selected and nothing happens. */
  function VerifyOwnership(s: SheetState): Option<FoundItem> {
    if s.selectedFound.Some? then Some(s.selectedFound.value) else None
  }

  /** The message of the "Contacting" alert the Contact Finder button raises. */
  function ContactMessage(item: FoundItem): string {
    "Opening contact dialog for " + item.foundBy
  }

  /** The letter on the finder's avatar. */
  function AvatarLetter(item: FoundItem): string {
    InitialLetter(item.foundBy)
  }

  /** Tapping a report's card opens its detail screen with the report itself. */
  function OpenReport(report: ReportData): NavAction {
    Navigate(ReportInfo(report))
  }

  /** A card press opens the detail screen for exactly the pressed report, and
      for a lost report that screen offers "Item has found" and "Contact Poster". */
  lemma OpenReportShowsThatReport(report: ReportData)
    ensures OpenReport(report).Navigate? && OpenReport(report).route.ReportInfo?
    ensures OpenReport(report).route.report == report
    ensures report.status == Lost ==>
      ReportInfo.FoundAndContactShown(ReportInfo.IsItemFound, OpenReport(report).route.report.status)
  {
  }

  /** Opening the sheet selects exactly the pressed item and shows the sheet;
      closing it hides the sheet and keeps the selection; the tab press changes
      only the active tab. */
  lemma SheetTransitions(s: SheetState, item: FoundItem, tab: Tab)
    ensures s.OpenSheet(item).selectedFound == Some(item) && s.OpenSheet(item).showVerificationSheet
    ensures s.OpenSheet(item).activeTab == s.activeTab
    ensures !s.HideSheet().showVerificationSheet && s.HideSheet().selectedFound == s.selectedFound
    ensures s.HideSheet().activeTab == s.activeTab
    ensures s.TabPressed(tab).activeTab == tab
    ensures s.TabPressed(tab).showVerificationSheet == s.showVerificationSheet
    ensures s.TabPressed(tab).selectedFound == s.selectedFound
  {
  }

  /** Verifying raises the alert exactly when an item is selected, and the alert
      names that item; with no item selected it does nothing. */
  lemma VerifyNeedsASelection(s: SheetState)
    ensures VerifyOwnership(s).Some? <==> s.selectedFound.Some?
    ensures VerifyOwnership(s) == s.selectedFound
  {
  }

  /** The avatar shows the finder's first character upper-cased, and the contact
      alert names the finder after its fixed prefix. */
  lemma FinderShownAndNamed(item: FoundItem)
    requires item.foundBy != []
    ensures |AvatarLetter(item)| == 1 && AvatarLetter(item)[0] == ToUpper(item.foundBy[0])
    ensures ContactMessage(item)[|"Opening contact dialog for "|..] == item.foundBy
  {
  }

  /** What the user can do on the screen, including the success alert's buttons. */
  datatype ActiveEvent =
    | PressTab(tab: Tab)
    | PressVerify(item: FoundItem)
    | CloseByX
    | PressCancel
    | RequestClose
    | PressVerifyAndCollect
    | PressContactFinder
    | PressClose

  /** The screen with the success alert, if one is open: the alert holds the item
      the handler captured when it raised it. */
  datatype ScreenView = ScreenView(screen: SheetState, alert: Option<FoundItem>)

  /** Which controls can be touched: the alert blocks everything but its buttons,
      and the sheet, a modal, blocks the list and the tab bar beneath it. */
  predicate Enabled(d: ScreenView, e: ActiveEvent) {
    if d.alert.Some? then e.PressContactFinder? || e.PressClose?
    else if d.screen.showVerificationSheet then e.CloseByX? || e.PressCancel? || e.RequestClose? || e.PressVerifyAndCollect?
    else e.PressTab? || e.PressVerify?
  }

  function Apply(d: ScreenView, e: ActiveEvent): ScreenView {
    match e
    case PressTab(tab) => d.(screen := d.screen.TabPressed(tab))
    case PressVerify(item) => d.(screen := d.screen.OpenSheet(item))
    case CloseByX => d.(screen := d.screen.HideSheet())
    case PressCancel => d.(screen := d.screen.HideSheet())
    case RequestClose => d.(screen := d.screen.HideSheet())
    case PressVerifyAndCollect => d.(alert := VerifyOwnership(d.screen))
    case PressContactFinder => ScreenView(d.screen.HideSheet(), None)
    case PressClose => ScreenView(d.screen.HideSheet(), None)
  }

  function Run(d: ScreenView, events: seq<ActiveEvent>): ScreenView
    decreases |events|
  {
    if events == [] then d else Run(Apply(d, events[0]), events[1..])
  }

  predicate Feasible(d: ScreenView, events: seq<ActiveEvent>)
    decreases |events|
  {
    events == [] || (Enabled(d, events[0]) && Feasible(Apply(d, events[0]), events[1..]))
  }

  /** What holds on every screen the user can reach: the sheet is only shown with
      an item selected, and an open alert sits over the sheet and names the
      selected item. */
  ghost predicate Reachable(d: ScreenView) {
    (d.screen.showVerificationSheet ==> d.screen.selectedFound.Some?) &&
    (d.alert.Some? ==> d.screen.showVerificationSheet && d.alert == d.screen.selectedFound)
  }

  lemma StepKeepsReachable(d: ScreenView, e: ActiveEvent)
    requires Reachable(d) && Enabled(d, e)
    ensures Reachable(Apply(d, e))
  {
  }

  lemma {:induction false} RunKeepsReachable(d: ScreenView, events: seq<ActiveEvent>)
    requires Reachable(d) && Feasible(d, events)
    ensures Reachable(Run(d, events))
    decreases |events|
  {
    if events != [] {
      StepKeepsReachable(d, events[0]);
      RunKeepsReachable(Apply(d, events[0]), events[1..]);
    }
  }

  /** On any screen reached from the initial one, "Verify & Collect" always raises
      the success alert: the null check in the handler never fails in practice. */
  lemma VerifyFromSheetAlwaysAlerts(events: seq<ActiveEvent>)
    requires Feasible(ScreenView(Initial, None), events)
    ensures var d := Run(ScreenView(Initial, None), events);
      Enabled(d, PressVerifyAndCollect) ==> Apply(d, PressVerifyAndCollect).alert.Some?
  {
    RunKeepsReachable(ScreenView(Initial, None), events);
  }

  /** Once an item has been selected, no sequence of events clears the selection. */
  lemma {:induction false} SelectionIsNeverCleared(d: ScreenView, events: seq<ActiveEvent>)
    requires d.screen.selectedFound.Some?
    ensures Run(d, events).screen.selectedFound.Some?
    decreases |events|
  {
    if events != [] {
      SelectionIsNeverCleared(Apply(d, events[0]), events[1..]);
    }
  }

  class MyActiveReportsScreen {
    var activeTab: Tab
    var showVerificationSheet: bool
    var selectedFound: Option<FoundItem>

    function Form(): SheetState
      reads this
    {
      SheetState(activeTab, showVerificationSheet, selectedFound)
    }

    constructor ()
      ensures Form() == Initial
    {
      activeTab := Reports;
      showVerificationSheet := false;
      selectedFound := None;
    }

    /** `handleTabPress`: remember the tab and jump to any tab but Reports. */
    method HandleTabPress(tab: Tab) returns (nav: Option<NavAction>)
      modifies this
      ensures Form() == old(Form()).TabPressed(tab)
      ensures nav == JumpFor(Reports, tab)
    {
      activeTab := tab;
      if tab != Reports {
        nav := Some(JumpTo(tab));
      } else {
        nav := None;
      }
    }

    method OpenVerificationSheet(item: FoundItem)
      modifies this
      ensures Form() == old(Form()).OpenSheet(item)
    {
      selectedFound := Some(item);
      showVerificationSheet := true;
    }

    /** `handleVerifyOwnership`: returns the success alert it raises, if any. */
    method HandleVerifyOwnership() returns (alert: Option<FoundItem>)
      ensures alert == VerifyOwnership(Form())
    {
      if selectedFound.Some? {
        alert := Some(selectedFound.value);
      } else {
        alert := None;
      }
    }

    /** The sheet's X, Cancel, the system back request and the alert's Close. */
    method CloseSheet()
      modifies this
      ensures Form() == old(Form()).HideSheet()
    {
      showVerificationSheet := false;
    }

    /** The alert's Contact Finder button: hide the sheet and name the finder the
        alert captured. */
    method ContactFinder(captured: FoundItem) returns (message: string)
      modifies this
      ensures Form() == old(Form()).HideSheet()
      ensures message == ContactMessage(captured)
    {
      showVerificationSheet := false;
      message := "Opening contact dialog for " + captured.foundBy;
    }
  }
}
