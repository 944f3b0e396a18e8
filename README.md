# FindDesk screens in Dafny

FindDesk is a React Native lost-and-found app. This project models its screen
logic: the drafts that the "make lost report" and "make found report" screens
edit and submit, the welcome, login and sign-up validators, the tab-press
handlers and the bottom tab bar, the "my active reports" ownership sheet, and
the status badges, buttons and navigation of the report list item and the
report detail screen.

Layout:

- `strings.dfy`: `Strings`, which holds JavaScript `trim`, string truthiness and
  `charAt(0).toUpperCase()`.
- `common.dfy`: `Common`, the shared values: tabs, statuses, locations, report
  data, routes and navigation actions. It also holds `Colors`.
- `image_list.dfy`: `ImageList`, the photo-list expressions that both report
  screens share.
- `draft.dfy`: `Draft`, the ordered submit checks that both report screens share.
- `lost_report.dfy`, `found_report.dfy`: one module per report screen. Each
  has three parts:
  - a value-level form with one transition per handler;
  - an event model with reachability invariants;
  - a class with the component's state fields. Its methods are proved to
    perform those transitions.
- `welcome.dfy`, `login.dfy`, `signup.dfy`: the onboarding screens.
- `bottom_tab_bar.dfy`: `BottomTabBar`, and `TabPress`, the tab handler that
  the tab screens repeat.
- `reports_screen.dfy`: `ReportsScreen` and `ProfileScreen`.
- `my_active_reports.dfy`: `MyActiveReports`.
- `report_item.dfy`: `ReportItem`.
- `report_info.dfy`: `ReportInfo`.

What the device, the user or a library supplies becomes a parameter. This covers
permission outcomes, picker responses, position fixes, map taps, clock values
and typed text.

## Model

| member | source | states |
|---|---|---|
| Strings.TrimStart | src/screens/WelcomeScreen.tsx:25 | the result is a suffix of the input and does not start with whitespace |
| Strings.TrimStartDropsOnlyWhitespace | src/screens/WelcomeScreen.tsx:25 | every character the leading trim removes is whitespace |
| Strings.TrimEnd | src/screens/WelcomeScreen.tsx:25 | the result is a prefix of the input and does not end with whitespace |
| Strings.TrimEndDropsOnlyWhitespace | src/screens/WelcomeScreen.tsx:25 | every character the trailing trim removes is whitespace |
| Strings.TrimBounds | src/screens/MakeLostReportScreen.tsx:383 | `trim()` keeps one slice `s[i..j]` and everything before `i` and from `j` on is whitespace |
| Strings.TrimIsInnerSlice | src/screens/MakeLostReportScreen.tsx:383 | `trim()` returns a contiguous slice of its input with no whitespace at either end, and only whitespace outside it |
| Strings.TrimStartEmptyIff | src/screens/WelcomeScreen.tsx:25 | the leading trim empties a string exactly when every character is whitespace |
| Strings.TrimEndEmptyIff | src/screens/WelcomeScreen.tsx:25 | the trailing trim empties a string exactly when every character is whitespace |
| Strings.BlankIffAllWhitespace | src/screens/LoginScreen.tsx:29 | `s.trim()` is falsy exactly when every character of `s` is whitespace |
| Strings.TrimStartDropsPrefix | src/screens/MakeLostReportScreen.tsx:383 | a whitespace prefix does not change the leading trim |
| Strings.TrimEndDropsSuffix | src/screens/MakeLostReportScreen.tsx:383 | a whitespace suffix does not change the trailing trim |
| Strings.TrimStartKeepsTail | src/screens/MakeLostReportScreen.tsx:383 | once the leading trim stops inside `s`, text appended after `s` is kept unchanged |
| Strings.TrimIgnoresTrailingPadding | src/screens/SignUpScreen.tsx:31 | whitespace appended to a string does not change its `trim()` |
| Strings.TrimIgnoresPadding | src/screens/MakeLostReportScreen.tsx:383 | whitespace added on either side does not change `trim()` |
| Strings.ToUpper | src/screens/MyActiveReportsScreen.tsx:182 | ASCII lower-case letters map to their upper-case letter; every other character is unchanged |
| Strings.InitialLetter | src/screens/ReportInfoScreen.tsx:140 | `charAt(0).toUpperCase()` is empty for the empty string; otherwise it is the upper-cased first character |
| ImageList.Take | src/screens/MakeLostReportScreen.tsx:187 | `slice(0, n)` is the prefix of length `min(|s|, n)` |
| ImageList.CameraAppendsAtMostOne | src/screens/MakeLostReportScreen.tsx:141-158 | the camera result appends one non-empty URI at the end, or changes nothing. It appends exactly when the response delivered a truthy URI and fewer than five photos were held |
| ImageList.UndeliveredChangesNothing | src/screens/MakeFoundReportScreen.tsx:101-110 | a cancelled response, or one with an error code, leaves the photo list unchanged |
| ImageList.DefinedUrisExactly | src/screens/MakeLostReportScreen.tsx:184-186 | the map/filter keeps exactly the asset URIs that are not `undefined` |
| ImageList.DefinedUrisInOrder | src/screens/MakeLostReportScreen.tsx:184-186 | one asset contributes its URI or nothing, and the URIs of concatenated asset lists are concatenated, so asset order is kept |
| ImageList.GalleryKeepsOrderAndCap | src/screens/MakeFoundReportScreen.tsx:142-147 | the library result is the prefix of old photos plus new URIs whose length is their total count cut at five. It keeps the old photos in place |
| ImageList.GalleryFitDropsNothing | src/screens/MakeLostReportScreen.tsx:184-187 | when old and new URIs number at most five, the list grows by exactly the new URIs |
| ImageList.GalleryWithinLimitDropsNothing | src/screens/MakeLostReportScreen.tsx:169-187 | a picker that honours `selectionLimit` makes the list grow by exactly the picked URIs |
| ImageList.GalleryBeyondLimitTruncates | src/screens/MakeLostReportScreen.tsx:187 | a picker that ignores the limit still leaves exactly five photos. The photos already held are kept |
| ImageList.RemoveIndexDeletesOne | src/screens/MakeLostReportScreen.tsx:374-376 | `removeImage(i)` deletes exactly element `i` and keeps the order of the rest. An index outside the list changes nothing |
| ImageList.RemoveIndexShifts | src/screens/MakeFoundReportScreen.tsx:152-154 | after a removal, earlier photos stay in place and later photos move down by one |
| ImageList.OperationsKeepCap | src/screens/MakeLostReportScreen.tsx:155-187 | no photo operation takes a list of at most five above five |
| Draft.ValidateReportsFirstFailure | src/screens/MakeLostReportScreen.tsx:378-393 | the reported error is the first failing check: category, then trimmed length ≥ 10, then a photo. A draft passes exactly when all three hold |
| Draft.ValidateIgnoresDescriptionPadding | src/screens/MakeFoundReportScreen.tsx:161 | whitespace around the description never changes the verdict. A description of only whitespace is too short |
| LostReport.SubmitChecksInOrderWithoutLocation | src/screens/MakeLostReportScreen.tsx:378-397 | submission checks category, description and photos in order, and ignores the location |
| LostReport.SubmitNeverNavigates | src/screens/MakeLostReportScreen.tsx:399-417 | the success alert reports the draft's category, description and photo count. The buttons array is concatenated into the message, so the alert has no buttons and the screen never goes back |
| LostReport.PhotoCapAlwaysHolds | src/screens/MakeLostReportScreen.tsx:123-191 | after any sequence of handler calls, whatever the pickers return, the photo list holds at most five |
| LostReport.StepKeepsCap | src/screens/MakeLostReportScreen.tsx:155-187 | a single handler call, whether or not its control is enabled, keeps a list of at most five photos at most five |
| LostReport.StepKeepsReachable | src/screens/MakeLostReportScreen.tsx:43-48 | every enabled event keeps the screen invariant. No control opens the location sheet or the map, no location is held, and the photo, description and category limits hold |
| LostReport.RunKeepsReachable | src/screens/MakeLostReportScreen.tsx:43-48 | every feasible run keeps the screen invariant |
| LostReport.LocationIsNeverAttached | src/screens/MakeLostReportScreen.tsx:701-734 | the location buttons are commented out. From the initial state, attach-location, open-map, map-press and confirm are never enabled, and no location is attached |
| LostReport.MakeLostReportScreen.constructor | src/screens/MakeLostReportScreen.tsx:37-48 | the screen mounts with an empty draft, every modal closed and no location |
| LostReport.MakeLostReportScreen.HandleTakePhoto | src/screens/MakeLostReportScreen.tsx:123-161 | closes the photo sheet; with permission, applies the camera result to the photo list |
| LostReport.MakeLostReportScreen.HandleSelectFromGallery | src/screens/MakeLostReportScreen.tsx:163-191 | closes the photo sheet and applies the library result to the photo list |
| LostReport.MakeLostReportScreen.RemoveImage | src/screens/MakeLostReportScreen.tsx:374-376 | removes the photo at the index |
| LostReport.MakeLostReportScreen.HandleAttachLocation | src/screens/MakeLostReportScreen.tsx:193-250 | closes the sheet. A fix that arrives with permission becomes the selected and the map location. The loading flag ends false |
| LostReport.MakeLostReportScreen.HandleOpenMap | src/screens/MakeLostReportScreen.tsx:312-336 | closes the sheet, defaults the map location when none is set, and shows the map |
| LostReport.MakeLostReportScreen.HandleMapPress | src/screens/MakeLostReportScreen.tsx:338-365 | a tap with a coordinate moves the map location; a tap without one is ignored |
| LostReport.MakeLostReportScreen.HandleConfirmLocation | src/screens/MakeLostReportScreen.tsx:367-372 | with a map location set, it becomes the selected location and the map closes |
| LostReport.MakeLostReportScreen.HandleSubmit | src/screens/MakeLostReportScreen.tsx:378-418 | returns the validation alert or the success alert for the current draft, and changes no state |
| FoundReport.SubmitStartsOneRequest | src/screens/MakeFoundReportScreen.tsx:156-175 | a failing check changes nothing. A passing draft sets the loading flag and captures exactly the current category, description and photos |
| FoundReport.RequestOutcomesResetLoading | src/screens/MakeFoundReportScreen.tsx:174-228 | success and failure both reset the loading flag and leave the draft fields unchanged |
| FoundReport.ReportCarriesDraftAndRelation | src/screens/MakeFoundReportScreen.tsx:180-193 | the record carries the captured draft, the position and a non-empty address. `relatedToReport` equals the related report's id exactly when that id is truthy |
| FoundReport.OkClearsDraft | src/screens/MakeFoundReportScreen.tsx:207-216 | OK clears the category, the description and the photos, and goes back |
| FoundReport.StepKeepsReachable | src/screens/MakeFoundReportScreen.tsx:156-229 | every enabled event keeps the invariant: the loading flag is set exactly while a request with a valid captured draft is outstanding |
| FoundReport.RunKeepsReachable | src/screens/MakeFoundReportScreen.tsx:156-229 | every feasible run keeps that invariant |
| FoundReport.ValidDraftMakesValidReport | src/screens/MakeFoundReportScreen.tsx:180-193 | a record built from a draft that passed the checks has a category, a description of at least ten characters after trimming, and one to five photos |
| FoundReport.ReachableStateFacts | src/screens/MakeFoundReportScreen.tsx:174-193 | under the invariant, a pending request disables submit and only a pending request can resolve. A record built from the pending draft satisfies the checks |
| FoundReport.OneRequestAtATime | src/screens/MakeFoundReportScreen.tsx:575-582 | in every reachable state, a pending request disables submit and only a pending request can resolve. Its record satisfies the checks |
| FoundReport.MakeFoundReportScreen.constructor | src/screens/MakeFoundReportScreen.tsx:39-45 | the screen mounts with an empty draft, no request and the route's related report |
| FoundReport.MakeFoundReportScreen.HandleTakePhoto | src/screens/MakeFoundReportScreen.tsx:82-120 | closes the photo sheet; with permission, applies the camera result |
| FoundReport.MakeFoundReportScreen.HandleSelectFromGallery | src/screens/MakeFoundReportScreen.tsx:122-150 | closes the photo sheet and applies the library result |
| FoundReport.MakeFoundReportScreen.RemoveImage | src/screens/MakeFoundReportScreen.tsx:152-154 | removes the photo at the index |
| FoundReport.MakeFoundReportScreen.HandleSubmit | src/screens/MakeFoundReportScreen.tsx:156-175 | returns the first failing check. On success it sets the loading flag and starts a request that captures the draft |
| FoundReport.MakeFoundReportScreen.OnPosition | src/screens/MakeFoundReportScreen.tsx:176-219 | builds the record from the captured draft, resets the loading flag and returns the OK button |
| FoundReport.MakeFoundReportScreen.OnPositionError | src/screens/MakeFoundReportScreen.tsx:221-228 | resets only the loading flag |
| FoundReport.MakeFoundReportScreen.PressOk | src/screens/MakeFoundReportScreen.tsx:210-216 | clears the draft fields and goes back |
| Welcome.GetStartedNeedsAName | src/screens/WelcomeScreen.tsx:24-29 | Get Started replaces the screen with Login exactly when the name has a non-whitespace character, which is exactly when the button is enabled. The name is not passed on |
| Welcome.WhitespaceNameStays | src/screens/WelcomeScreen.tsx:25 | a name of only spaces, tabs or line breaks does not navigate |
| Welcome.WelcomeScreen.constructor | src/screens/WelcomeScreen.tsx:21 | the name starts empty |
| Welcome.WelcomeScreen.SetUserName | src/screens/WelcomeScreen.tsx:65 | typing sets the name |
| Welcome.WelcomeScreen.HandleGetStarted | src/screens/WelcomeScreen.tsx:24-29 | issues the Get Started navigation for the current name |
| LoginScreen.LoginAcceptsAnyNonBlankPair | src/screens/LoginScreen.tsx:28-39 | Login navigates exactly when both fields have a non-whitespace character, always to MainApp with the user name "User" |
| LoginScreen.LoginTargetUndeclared | src/screens/LoginScreen.tsx:31 | the login target `MainApp` is not a route declared in the root stack's parameter list |
| LoginScreen.LoginScreen.constructor | src/screens/LoginScreen.tsx:23-25 | the fields start empty and the password starts hidden |
| LoginScreen.LoginScreen.SetEmail | src/screens/LoginScreen.tsx:75 | typing sets only the email |
| LoginScreen.LoginScreen.SetPassword | src/screens/LoginScreen.tsx:89 | typing sets only the password |
| LoginScreen.LoginScreen.TogglePassword | src/screens/LoginScreen.tsx:94 | the eye button flips only the password's visibility |
| LoginScreen.LoginScreen.Login | src/screens/LoginScreen.tsx:28-33 | navigates exactly when the Login button is enabled |
| LoginScreen.LoginScreen.GoToSignUp | src/screens/LoginScreen.tsx:35-37 | goes to SignUp |
| SignUpScreen.SignUpNavigatesIffValid | src/screens/SignUpScreen.tsx:30-45 | Sign up navigates exactly when the form is valid, to Home with the user name "User". The confirmation's own blank check adds nothing |
| SignUpScreen.TrailingWhitespaceIsMismatch | src/screens/SignUpScreen.tsx:41-45 | the passwords are compared untrimmed, so a password with trailing whitespace does not match itself without it |
| SignUpScreen.BlankEmailBlocks | src/screens/SignUpScreen.tsx:31 | an email of only whitespace blocks sign-up even when the passwords match |
| SignUpScreen.SignUpScreen.constructor | src/screens/SignUpScreen.tsx:23-27 | the fields start empty and both passwords start hidden |
| SignUpScreen.SignUpScreen.SetEmail | src/screens/SignUpScreen.tsx:81 | typing replaces only the email |
| SignUpScreen.SignUpScreen.SetPassword | src/screens/SignUpScreen.tsx:95 | typing replaces only the password |
| SignUpScreen.SignUpScreen.SetConfirmPassword | src/screens/SignUpScreen.tsx:115 | typing replaces only the confirmation |
| SignUpScreen.SignUpScreen.TogglePassword | src/screens/SignUpScreen.tsx:100 | flips only the password's visibility |
| SignUpScreen.SignUpScreen.ToggleConfirmPassword | src/screens/SignUpScreen.tsx:120 | flips only the confirmation's visibility |
| SignUpScreen.SignUpScreen.SignUp | src/screens/SignUpScreen.tsx:30-35 | navigates exactly when the Sign up button is enabled |
| SignUpScreen.SignUpScreen.GoToLogin | src/screens/SignUpScreen.tsx:37-39 | goes to Login |
| BottomTabBar.ExactlyOneActive | src/components/BottomTabBar.tsx:26-70 | exactly the active tab's button has icon size 30, the primary colour and the active label. The others use size 26 and the tertiary colour. Each button reports its own tab |
| TabPress.JumpOnlyElsewhere | src/screens/ReportsScreen.tsx:33-38 | a tab press jumps, to the pressed tab, exactly when that tab is not the screen's own |
| ReportsScreen.OneItemPerReport | src/screens/ReportsScreen.tsx:98-114 | one list item per report, in order and keyed by its id. The shown count equals the number of items, and distinct ids give distinct keys |
| ReportsScreen.SampleDataIsWellKeyed | src/screens/ReportsScreen.tsx:41-77 | the sample data has five reports with distinct ids |
| ReportsScreen.ReportsScreen.constructor | src/screens/ReportsScreen.tsx:31 | the active tab starts as Reports |
| ReportsScreen.ReportsScreen.HandleTabPress | src/screens/ReportsScreen.tsx:33-38 | the pressed tab becomes active. The screen jumps to it exactly when it is not Reports |
| ProfileScreen.ProfileScreen.constructor | src/screens/ProfileScreen.tsx:29 | the active tab starts as Profile |
| ProfileScreen.ProfileScreen.HandleTabPress | src/screens/ProfileScreen.tsx:31-36 | the pressed tab becomes active even when the screen jumps away. Pressing Profile does not navigate |
| MyActiveReports.OpenReportShowsThatReport | src/screens/MyActiveReportsScreen.tsx:149-151 | a card press navigates to the detail screen carrying exactly the pressed report. For a lost report that screen shows "Item has found" and "Contact Poster" |
| MyActiveReports.SheetTransitions | src/screens/MyActiveReportsScreen.tsx:57-112 | opening the sheet selects the item and shows the sheet. Every close hides the sheet and keeps the selection. A tab press changes only the tab |
| MyActiveReports.VerifyNeedsASelection | src/screens/MyActiveReportsScreen.tsx:94-117 | Verify raises the success alert exactly when an item is selected, naming that item |
| MyActiveReports.FinderShownAndNamed | src/screens/MyActiveReportsScreen.tsx:182 | the avatar shows the finder's upper-cased initial, and the contact alert names the finder |
| MyActiveReports.StepKeepsReachable | src/screens/MyActiveReportsScreen.tsx:89-117 | every enabled event keeps the invariant: the sheet shows only with an item selected, and an open alert names that item |
| MyActiveReports.RunKeepsReachable | src/screens/MyActiveReportsScreen.tsx:89-117 | every feasible run keeps that invariant |
| MyActiveReports.VerifyFromSheetAlwaysAlerts | src/screens/MyActiveReportsScreen.tsx:94-96 | from the initial state, pressing "Verify & Collect" always raises the alert, so the null check never fails |
| MyActiveReports.SelectionIsNeverCleared | src/screens/MyActiveReportsScreen.tsx:89-117 | once an item is selected, no sequence of events clears the selection |
| MyActiveReports.MyActiveReportsScreen.constructor | src/screens/MyActiveReportsScreen.tsx:51-55 | starts on Reports with the sheet hidden and nothing selected |
| MyActiveReports.MyActiveReportsScreen.HandleTabPress | src/screens/MyActiveReportsScreen.tsx:57-62 | sets the tab. The screen jumps exactly when the tab is not Reports |
| MyActiveReports.MyActiveReportsScreen.OpenVerificationSheet | src/screens/MyActiveReportsScreen.tsx:89-92 | selects the item and shows the sheet |
| MyActiveReports.MyActiveReportsScreen.HandleVerifyOwnership | src/screens/MyActiveReportsScreen.tsx:94-117 | returns the alert for the selected item, if any, and changes nothing |
| MyActiveReports.MyActiveReportsScreen.CloseSheet | src/screens/MyActiveReportsScreen.tsx:341-344 | hides the sheet and keeps the selection |
| MyActiveReports.MyActiveReportsScreen.ContactFinder | src/screens/MyActiveReportsScreen.tsx:100-108 | hides the sheet and returns the contact message naming the captured finder |
| ReportItem.BadgeShownExactlyWithStatus | src/components/ReportItem.tsx:74-86 | the badge is drawn exactly when the item has a status. It shows the status name on that status's own tint, never the fallback |
| ReportItem.BackgroundsTellStatusesApart | src/components/ReportItem.tsx:31-42 | the three statuses have pairwise different backgrounds, none of which is the fallback |
| ReportItem.TextColors | src/components/ReportItem.tsx:44-55 | Lost and Found text colours differ from each other and from the primary colour. Resolved and the fallback are both the primary colour |
| ReportInfo.StatusLabelSearchingOnlyWhenLost | src/screens/ReportInfoScreen.tsx:227 | the status card reads "Still searching" exactly for Lost and "Item found" otherwise |
| ReportInfo.PosterLetterIsInitial | src/screens/ReportInfoScreen.tsx:140 | the poster avatar is empty for an empty name and otherwise the upper-cased first character of `postedBy` |
| ReportInfo.StatusColours | src/screens/ReportInfoScreen.tsx:80-100 | Lost and Found badge colours differ. Resolved, and only Resolved, gets the fallback colours |
| ReportInfo.ActionGroupsExclusive | src/screens/ReportInfoScreen.tsx:239-285 | the found/contact pair and the claim button never show together. With the screen's flag, the pair shows exactly for Lost, and the success message never shows |
| ReportInfo.FoundReportRelatesToThisReport | src/screens/ReportInfoScreen.tsx:243-246 | "Item has found" passes the report unchanged, so the found report relates to its id when that id is non-empty |
| ReportInfo.RelatedItemOpensItself | src/screens/ReportInfoScreen.tsx:316-319 | a related item opens as a report with its own fields and time "Today". It has no description and no details row |
| ReportInfo.RelatedItemsChainToFoundReports | src/screens/ReportInfoScreen.tsx:42-71 | every related item is Lost or Found. Reporting it found relates the new report to the item's id |

## Left out

- Permission requests are not modelled. Each camera and location handler takes the outcome as a boolean parameter.
- The camera, photo-library and geolocation libraries are not modelled. Their responses are parameters. Error messages and alert titles and texts are not modelled, except the contact message.
- Coordinates are opaque real numbers. The `toFixed(4)` address strings are not computed: a fix arrives with its address.
- `Date.now()` and `new Date().toISOString()` are not modelled. The record's `id` and `timestamp` are parameters.
- The picker callbacks are modelled as if they ran right after the tap. In the source they close over the photo list as it was at the tap, so edits made meanwhile are not modelled.
- LostReport.MakeLostReportScreen.HandleAttachLocation: the handler's await and the position callback are modelled as one atomic step. The `catch` branch for an unexpected exception is not modelled. The handler is unreachable anyway.
- The lost screen's `useEffect` is not modelled. It sets the map location to a default with another longitude (79.8612) when the map opens without one. `handleOpenMap` has already set a location by then, so the effect cannot change anything.
- FoundReport.Enabled allows the OK button whenever no request is outstanding. This is more often than the alert actually appears, so the proved invariants hold for a larger set of runs.
- The success alert's message and the console logging are not modelled.
- Styles, layout and images are not modelled, nor are the placeholder buttons without handlers ("Contact Poster", "Claim Your Item", the filter button) or the back buttons' `goBack` beyond what the table lists.
- `ReportsScreen`'s list items have empty `onPress` handlers, which are not modelled.
- Strings.ToUpper: only ASCII letters are upper-cased. JavaScript's full Unicode case mapping is not modelled.
- String lengths count Dafny characters, not the UTF-16 code units JavaScript counts. The two differ only for characters outside the Basic Multilingual Plane.
- The navigator itself, `App.tsx`, the splash and home screens, and the shared components other than the tab bar and the report item are not part of this model.
