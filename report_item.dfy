/** The report list item: a card with the report's title, place and time and,
    when the report has a status, a coloured badge naming it. */
module ReportItem {
  import opened Common
  import Colors

  /** `getStatusBackgroundColor`: one tint per status, the light primary colour
      when the item has none. */
  function BadgeBackground(status: Option<Status>): string {
    match status
    case Some(Lost) => "#FFE8E8"
    case Some(Found) => "#E8F5E9"
    case Some(Resolved) => "#E3F2FD"
    case None => Colors.PrimaryLight
  }

  /** `getStatusTextColor`: one text colour per status, the primary colour when
      the item has none. */
  function BadgeTextColor(status: Option<Status>): string {
    match status
    case Some(Lost) => "#FF4444"
    case Some(Found) => "#44AA44"
    case Some(Resolved) => "#0066FF"
    case None => Colors.Primary
  }

  /** The status badge: its text and its two colours. */
  datatype Badge = Badge(text: string, background: string, textColor: string)

  /** `status && <badge/>`: the badge is drawn when `status` is truthy, that is
      present and not the empty string. */
  function RenderBadge(status: Option<Status>): Option<Badge> {
    if status.Some? && StatusName(status.value) != "" then
      Some(Badge(StatusName(status.value), BadgeBackground(status), BadgeTextColor(status)))
    else None
  }

  /** Every status name is a non-empty string, so the badge is drawn exactly when
      the item has a status; it names that status, and its background is the
      status's own tint, never the fallback. */
  lemma BadgeShownExactlyWithStatus(status: Option<Status>)
    ensures RenderBadge(status).Some? <==> status.Some?
    ensures status.Some? ==>
      RenderBadge(status).value.text == StatusName(status.value) &&
      RenderBadge(status).value.background != BadgeBackground(None)
  {
    if status.Some? {
      BackgroundsTellStatusesApart(status.value, status.value);
    }
  }

  /** The three statuses get three different backgrounds, none of them the
      fallback tint, so whenever a badge is drawn its background tells its status. */
  lemma BackgroundsTellStatusesApart(s: Status, t: Status)
    ensures BadgeBackground(Some(s)) == BadgeBackground(Some(t)) <==> s == t
    ensures BadgeBackground(Some(s)) != BadgeBackground(None)
  {
    assert "#FFE8E8"[2] != "#E8F5E9"[2] && "#E8F5E9"[4] != "#E3F2FD"[4] && "#FFE8E8"[2] != "#E3F2FD"[2];
    assert Colors.PrimaryLight[1] != "#FFE8E8"[1] && Colors.PrimaryLight[4] != "#E8F5E9"[4] && Colors.PrimaryLight[2] != "#E3F2FD"[2];
  }

  /** The text colours of Lost and Found differ from each other and from the
      fallback; Resolved is drawn in exactly the primary colour. */
  lemma TextColors()
    ensures BadgeTextColor(Some(Resolved)) == Colors.Primary == BadgeTextColor(None)
    ensures BadgeTextColor(Some(Lost)) != BadgeTextColor(Some(Found))
    ensures BadgeTextColor(Some(Lost)) != Colors.Primary && BadgeTextColor(Some(Found)) != Colors.Primary
  {
    assert "#FF4444"[1] != "#44AA44"[1];
    assert "#FF4444"[1] != Colors.Primary[1] && "#44AA44"[1] != Colors.Primary[1];
  }
}
