/** Values shared by the screens: optional values, the three bottom tabs, report
    statuses, locations, report records and the navigation actions a handler issues. */
module Common {

  datatype Option<T> = None | Some(value: T)

  /** The three tabs of the main tab navigator. */
  datatype Tab = Home | Reports | Profile

  /** The statuses a report can carry. */
  datatype Status = Lost | Found | Resolved

  /** The string a status is in the source, which is also the text its badge shows. */
  function StatusName(s: Status): string {
    match s
    case Lost => "Lost"
    case Found => "Found"
    case Resolved => "Resolved"
  }

  /** A place on the map. The coordinates come from the device or from a map tap
      and are never computed on; `address` is the label shown for them. */
  datatype Location = Location(latitude: real, longitude: real, address: string)

  /** A report as the detail screen receives it in its route parameters. Fields the
      sender does not supply are `None` (JavaScript `undefined`). */
  datatype ReportData = ReportData(
    id: string,
    title: string,
    location: string,
    time: string,
    status: Status,
    description: Option<string>,
    postedBy: string,
    itemDetails: Option<string>)

  /** Route names with the parameters the screens pass to them. */
  datatype Route =
    | Splash
    | Welcome
    | Login
    | SignUp
    | HomeRoute(userName: string)
    | MainApp(userName: string)
    | MakeFoundReport(relatedReport: ReportData)
    | ReportInfo(report: ReportData)

  /** What a handler asks the navigator to do. */
  datatype NavAction =
    | Replace(route: Route)
    | Navigate(route: Route)
    | Push(route: Route)
    | GoBack
    | JumpTo(tab: Tab)

  /** A button of a native alert dialog: its label and the navigation its
      `onPress` handler issues, if it has a handler at all. */
  datatype AlertButton = AlertButton(text: string, onPress: Option<NavAction>)

  /** The routes declared in the root stack's parameter list. */
  predicate DeclaredInRootStack(r: Route) {
    r.Splash? || r.Welcome? || r.Login? || r.SignUp? || r.HomeRoute?
  }
}

/** The colour constants the status badges and the tab bar use. */
module Colors {
  const Primary := "#0066FF"
  const PrimaryLight := "#E8F0FF"
  const TextTertiary := "#999999"
}
