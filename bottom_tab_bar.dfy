/** The bottom tab bar: three buttons, the one for the active tab drawn larger and
    in the primary colour, each reporting its own tab when pressed. */
module BottomTabBar {
  import opened Common
  import Colors

  const ActiveIconSize: nat := 30
  const InactiveIconSize: nat := 26

  /** The buttons from left to right. */
  const TabOrder: seq<Tab> := [Home, Reports, Profile]

  /** `isActive(tab)`. */
  predicate IsActive(activeTab: Tab, tab: Tab) {
    activeTab == tab
  }

  /** How one button is drawn and what its press reports. */
  datatype TabButton = TabButton(onPressTab: Tab, iconSize: nat, iconColor: string, activeLabel: bool)

  function Button(activeTab: Tab, tab: Tab): TabButton {
    TabButton(tab,
              if IsActive(activeTab, tab) then ActiveIconSize else InactiveIconSize,
              if IsActive(activeTab, tab) then Colors.Primary else Colors.TextTertiary,
              IsActive(activeTab, tab))
  }

  /** The bar as rendered for `activeTab`. */
  function Render(activeTab: Tab): seq<TabButton> {
    seq(|TabOrder|, i requires 0 <= i < |TabOrder| => Button(activeTab, TabOrder[i]))
  }

  /** Exactly one button is drawn active, the one for `activeTab`: it alone has the
      large icon, the primary colour and the active label; the others have the
      small icon in the tertiary colour. Each button reports its own tab. */
  lemma ExactlyOneActive(activeTab: Tab)
    ensures |Render(activeTab)| == 3
    ensures forall i :: 0 <= i < 3 ==> Render(activeTab)[i].onPressTab == TabOrder[i]
    ensures exists i :: 0 <= i < 3 && TabOrder[i] == activeTab
    ensures forall i :: 0 <= i < 3 ==>
      (Render(activeTab)[i].iconSize == ActiveIconSize <==> TabOrder[i] == activeTab) &&
      (Render(activeTab)[i].iconColor == Colors.Primary <==> TabOrder[i] == activeTab) &&
      (Render(activeTab)[i].activeLabel <==> TabOrder[i] == activeTab)
    ensures forall i, j :: 0 <= i < j < 3 ==> !(Render(activeTab)[i].activeLabel && Render(activeTab)[j].activeLabel)
  {
    assert Colors.Primary != Colors.TextTertiary by {
      assert Colors.Primary[1] != Colors.TextTertiary[1];
    }
    assert TabOrder[0] == Home && TabOrder[1] == Reports && TabOrder[2] == Profile;
    match activeTab {
      case Home => assert TabOrder[0] == activeTab;
      case Reports => assert TabOrder[1] == activeTab;
      case Profile => assert TabOrder[2] == activeTab;
    }
  }
}

/** The tab press handler the three tab screens repeat: remember the pressed tab,
    and jump to it unless it is the screen's own tab. */
module TabPress {
  import opened Common

  /** The jump `handleTabPress(tab)` issues on the screen for `ownTab`. */
  function JumpFor(ownTab: Tab, tab: Tab): Option<NavAction> {
    if tab != ownTab then Some(JumpTo(tab)) else None
  }

  /** A jump happens exactly when the pressed tab is not the screen's own, and it
      goes to the pressed tab. */
  lemma JumpOnlyElsewhere(ownTab: Tab, tab: Tab)
    ensures JumpFor(ownTab, tab).Some? <==> tab != ownTab
    ensures JumpFor(ownTab, tab).Some? ==> JumpFor(ownTab, tab).value.JumpTo? && JumpFor(ownTab, tab).value.tab == tab
  {
  }
}
