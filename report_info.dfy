/** The report detail screen: the status badge and label, the action buttons the
    status allows, and where its buttons and related items lead. */
module ReportInfo {
  import opened Common
  import opened Strings
  import Colors
  import FoundReport

  /** The badge background; unlike the list item this screen has no case for
      Resolved, which falls to the light primary tint. */
  function InfoBackground(status: Status): string {
    match status
    case Lost => "#FFE8E8"
    case Found => "#E8F5E9"
    case Resolved => Colors.PrimaryLight
  }

  /** The badge text colour; Resolved falls to the primary colour. */
  function InfoTextColor(status: Status): string {
    match status
    case Lost => "#FF4444"
    case Found => "#44AA44"
    case Resolved => Colors.Primary
  }

  /** The "Report Status" card. */
  function StatusLabel(status: Status): string {
    if status == Lost then "Still searching" else "Item found"
  }

  /** `isItemFound` starts false and no handler sets it. */
  const IsItemFound := false

  /** "Item has found" and "Contact Poster" are drawn. */
  predicate FoundAndContactShown(isItemFound: bool, status: Status) {
    !isItemFound && status == Lost
  }

  /** "Claim Your Item" is drawn. */
  predicate ClaimShown(status: Status) {
    status == Found
  }

  /** "Thank you for reporting" is drawn. */
  predicate SuccessMessageShown(isItemFound: bool) {
    isItemFound
  }

  /** The item-details row is drawn when `itemDetails` is truthy. */
  predicate ItemDetailsShown(report: ReportData) {
    report.itemDetails.Some? && report.itemDetails.value != ""
  }

  /** The poster's avatar letter. */
  function PosterLetter(report: ReportData): string {
    InitialLetter(report.postedBy)
  }

  /** The avatar shows the poster's first character upper-cased, and nothing when
      the poster's name is empty. */
  lemma PosterLetterIsInitial(report: ReportData)
    ensures report.postedBy == [] ==> PosterLetter(report) == []
    ensures report.postedBy != [] ==>
      |PosterLetter(report)| == 1 && PosterLetter(report)[0] == ToUpper(report.postedBy[0])
  {
  }

  /** "Item has found" opens the found-report form with this report as the one
      it relates to. */
  function ItemHasFound(report: ReportData): NavAction {
    Navigate(MakeFoundReport(report))
  }

  /** A related item as the list holds it. */
  datatype RelatedItem = RelatedItem(id: string, title: string, location: string, status: Status, postedBy: string)

  const RelatedItems: seq<RelatedItem> := [
    RelatedItem("1", "Black Leather Wallet", "Near Shopping Mall", Lost, "John"),
    RelatedItem("2", "Blue Travel Bag", "Bus Station", Found, "Sarah"),
    RelatedItem("3", "Silver Watch", "Airport Lounge", Lost, "Mike"),
    RelatedItem("4", "Car Keys with Keychain", "Parking Area", Found, "Emma")
  ]

  /** `{ ...item, time: 'Today' }`: the item's own fields and the time; the item
      has no description or details. */
  function AsReport(item: RelatedItem): ReportData {
    ReportData(item.id, item.title, item.location, "Today", item.status, None, item.postedBy, None)
  }

  /** Tapping a related item pushes another detail screen for it. */
  function OpenRelated(item: RelatedItem): NavAction {
    Push(ReportInfo(AsReport(item)))
  }

  /** The "Report Status" card reads "Still searching" exactly for a lost report
      and "Item found" for every other status. */
  lemma StatusLabelSearchingOnlyWhenLost(status: Status)
    ensures StatusLabel(status) == "Still searching" <==> status == Lost
    ensures StatusLabel(status) != "Still searching" ==> StatusLabel(status) == "Item found"
  {
    assert "Still searching"[0] != "Item found"[0];
  }

  /** The badge colours tell Lost and Found apart, and Resolved, which this screen
      has no case for, gets the fallback colours and is the only status that does. */
  lemma StatusColours(status: Status)
    ensures InfoBackground(Lost) != InfoBackground(Found)
    ensures InfoTextColor(Lost) != InfoTextColor(Found)
    ensures status == Resolved <==> InfoBackground(status) == Colors.PrimaryLight
    ensures status == Resolved <==> InfoTextColor(status) == Colors.Primary
  {
    assert "#FFE8E8"[2] != "#E8F5E9"[2] && "#FF4444"[1] != "#44AA44"[1];
    assert Colors.PrimaryLight[1] != "#FFE8E8"[1] && Colors.PrimaryLight[4] != "#E8F5E9"[4];
    assert Colors.Primary[1] != "#FF4444"[1] && Colors.Primary[1] != "#44AA44"[1];
  }

  /** The found/contact pair and the claim button are never drawn together; with
      the flag as the screen keeps it, the pair shows exactly for a lost report,
      and the success message never shows. */
  lemma ActionGroupsExclusive(isItemFound: bool, status: Status)
    ensures !(FoundAndContactShown(isItemFound, status) && ClaimShown(status))
    ensures FoundAndContactShown(IsItemFound, status) <==> status == Lost
    ensures ClaimShown(status) <==> status == Found
    ensures !SuccessMessageShown(IsItemFound)
    ensures status == Resolved ==> !FoundAndContactShown(isItemFound, status) && !ClaimShown(status)
  {
  }

  /** "Item has found" hands over the report unchanged, so the found report built
      from that form relates to this report's id whenever the id is non-empty. */
  lemma FoundReportRelatesToThisReport(report: ReportData)
    ensures ItemHasFound(report).Navigate? && ItemHasFound(report).route.MakeFoundReport?
    ensures ItemHasFound(report).route.relatedReport == report
    ensures report.id != "" ==> FoundReport.RelatedId(Some(ItemHasFound(report).route.relatedReport)) == Some(report.id)
    ensures report.id == "" ==> FoundReport.RelatedId(Some(ItemHasFound(report).route.relatedReport)).None?
  {
  }

  /** A related item opens as a report with its own id, title, place, status and
      poster, the time "Today" and no description or details row. */
  lemma RelatedItemOpensItself(item: RelatedItem)
    ensures OpenRelated(item).Push? && OpenRelated(item).route.ReportInfo?
    ensures var r := OpenRelated(item).route.report;
      r.id == item.id && r.title == item.title && r.location == item.location &&
      r.status == item.status && r.postedBy == item.postedBy && r.time == "Today" &&
      r.description.None? && !ItemDetailsShown(r)
  {
  }

  /** Every related item is lost or found, and opening one and pressing "Item has
      found" on it yields a found report related to the item's id. */
  lemma RelatedItemsChainToFoundReports(i: nat)
    requires i < |RelatedItems|
    ensures RelatedItems[i].status != Resolved
    ensures FoundReport.RelatedId(Some(ItemHasFound(AsReport(RelatedItems[i])).route.relatedReport)) == Some(RelatedItems[i].id)
  {
    assert RelatedItems[i].id != "";
  }
}
