/** The dashboard's control cards and the permission checks behind them:
    which cards a user sees, what the garage and stop buttons answer, and
    how the gate-logic hook's own role check compares with the shared
    permission test. */
module DashboardControls {
  import opened Wrappers
  import opened Permissions
  import HookLogic

  /** The three control cards, in the order the dashboard lists them. */
  datatype Card = GateControl | GarageControl | StopControl

  const AllCards := [GateControl, GarageControl, StopControl]

  /** Whether the dashboard shows card `c` to `user`: the gate card always,
      the garage and stop cards only with their permission. */
  predicate CardShown(c: Card, user: Option<UserData>) {
    match c
    case GateControl => true
    case GarageControl => CanControlGarage(user)
    case StopControl => CanUseStopMode(user)
  }

  /** The cards of `cards` the user may see, in their original order. */
  function FilterCards(cards: seq<Card>, user: Option<UserData>): (r: seq<Card>)
    ensures |r| <= |cards|
    ensures forall c :: c in r <==> c in cards && CardShown(c, user)
    decreases |cards|
  {
    if cards == [] then []
    else
      var rest := FilterCards(cards[1..], user);
      assert forall c :: c in cards <==> c == cards[0] || c in cards[1..];
      if CardShown(cards[0], user) then [cards[0]] + rest else rest
  }

  function VisibleCards(user: Option<UserData>): seq<Card> {
    FilterCards(AllCards, user)
  }

  /** The dashboard lists the gate card first and then the garage and stop
      cards exactly when the user may drive the garage and use stop mode. */
  lemma VisibleCardsAre(user: Option<UserData>)
    ensures VisibleCards(user)
         == [GateControl]
          + (if CanControlGarage(user) then [GarageControl] else [])
          + (if CanUseStopMode(user) then [StopControl] else [])
    ensures GateControl in VisibleCards(user)
    ensures GarageControl in VisibleCards(user) <==> CanControlGarage(user)
    ensures StopControl in VisibleCards(user) <==> CanUseStopMode(user)
  {
    assert AllCards[1..] == [GarageControl, StopControl];
    assert AllCards[1..][1..] == [StopControl];
    assert AllCards[1..][1..][1..] == [];
  }

  // --------------------------------------------------- garage and stop

  const GarageDenied := "Nemáte oprávnění ovládat garáž"
  const GarageSent := "Příkaz garáže odeslán"
  const StopDenied := "Nemáte oprávnění pro STOP režim"
  const StopSent := "STOP režim aktivován - brána nezavře"

  /** What a button press leaves behind: whether a command goes to the
      broker and the message shown (none without a user). */
  datatype Press = Press(publishes: bool, message: Option<string>)

  /** The garage button: without a user nothing happens; without the garage
      permission the denial shows; otherwise the confirmation shows, though
      no command is sent. */
  function GarageButton(user: Option<UserData>): Press {
    if user.None? then Press(false, None)
    else if !CanControlGarage(user) then Press(false, Some(GarageDenied))
    else Press(false, Some(GarageSent))
  }

  /** The stop button, built the same way on the stop-mode permission. */
  function StopButton(user: Option<UserData>): Press {
    if user.None? then Press(false, None)
    else if !CanUseStopMode(user) then Press(false, Some(StopDenied))
    else Press(false, Some(StopSent))
  }

  /** Neither button sends anything; each shows its confirmation exactly
      when a logged-in user holds its permission, and its denial exactly
      when a logged-in user does not. */
  lemma ButtonsFollowPermissions(user: Option<UserData>)
    ensures !GarageButton(user).publishes && !StopButton(user).publishes
    ensures GarageButton(user).message == Some(GarageSent) <==> CanControlGarage(user)
    ensures GarageButton(user).message == Some(GarageDenied) <==> user.Some? && !CanControlGarage(user)
    ensures StopButton(user).message == Some(StopSent) <==> CanUseStopMode(user)
    ensures StopButton(user).message == Some(StopDenied) <==> user.Some? && !CanUseStopMode(user)
  {
  }

  // ------------------------------------------ the hook's own role check

  /** For approved accounts with their role's default flags the hook's role
      check and the shared gate permission agree. */
  lemma HookCheckAgreesOnDefaults(role: Role)
    ensures HookLogic.HookCanControlGate(RoleName(role))
        == CanControlGate(Some(UserData(role, true, Some(DefaultFlags(role)))))
  {
    if role != Admin {
      DefaultsDecide(role, Gate);
    }
  }

  /** Away from the defaults they part: an unapproved user passes the hook's
      check but not the shared test, and an approved viewer granted the gate
      flag passes the shared test but not the hook's check. */
  lemma HookCheckIgnoresApprovalAndFlags()
    ensures HookLogic.HookCanControlGate(RoleName(RegularUser))
        && !CanControlGate(Some(UserData(RegularUser, false, Some(DefaultFlags(RegularUser)))))
    ensures CanControlGate(Some(UserData(Viewer, true, Some(map[Gate := true]))))
        && !HookLogic.HookCanControlGate(RoleName(Viewer))
  {
  }
}
