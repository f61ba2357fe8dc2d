/** What each gate-screen test says about the seven states the parser can
    report. */
module GateSignals {
  import opened Text
  import opened StatusParser
  import opened GateTests
  import opened GateLabelFacts

  /** Only the open state reads as open. */
  lemma OpenTestOnLabels(g: GateState)
    ensures OpenTest(GateLabel(g)) <==> g == GateOpen
  {
    LowerGateLabelCorrect(g);
    match g
    case GateClosed => OpenMatchOnClosed();
    case GateOpen => OpenMatchOnOpen();
    case GateOpening => OpenMatchOnOpening();
    case GateClosing => OpenMatchOnClosing();
    case GateStopped => OpenMatchOnStopped();
    case GateStopMode => OpenMatchOnStopMode();
    case GateUnknown => OpenMatchOnUnknown();
  }

  /** Only the closed state reads as closed. */
  lemma ClosedTestOnLabels(g: GateState)
    ensures ClosedTest(GateLabel(g)) <==> g == GateClosed
  {
    LowerGateLabelCorrect(g);
    match g
    case GateClosed => ClosedMatchOnClosed();
    case GateOpen => ClosedMatchOnOpen();
    case GateOpening => ClosedMatchOnOpening();
    case GateClosing => ClosedMatchOnClosing();
    case GateStopped => ClosedMatchOnStopped();
    case GateStopMode => ClosedMatchOnStopMode();
    case GateUnknown => ClosedMatchOnUnknown();
  }

  /** The dashboard sees the closing state as closing, and nothing else. */
  lemma DashboardClosingTestOnLabels(g: GateState)
    ensures DashboardClosingTest(GateLabel(g)) <==> g == GateClosing
  {
    LowerGateLabelCorrect(g);
    match g
    case GateClosed => DashboardClosingMatchOnClosed();
    case GateOpen => DashboardClosingMatchOnOpen();
    case GateOpening => DashboardClosingMatchOnOpening();
    case GateClosing => DashboardClosingMatchOnClosing();
    case GateStopped => DashboardClosingMatchOnStopped();
    case GateStopMode => DashboardClosingMatchOnStopMode();
    case GateUnknown => DashboardClosingMatchOnUnknown();
  }

  /** The hook sees the closing state as closing, and nothing else. */
  lemma HookClosingTestOnLabels(g: GateState)
    ensures HookClosingTest(GateLabel(g)) <==> g == GateClosing
  {
    LowerGateLabelCorrect(g);
    match g
    case GateClosed => HookClosingMatchOnClosed();
    case GateOpen => HookClosingMatchOnOpen();
    case GateOpening => HookClosingMatchOnOpening();
    case GateClosing => HookClosingMatchOnClosing();
    case GateStopped => HookClosingMatchOnStopped();
    case GateStopMode => HookClosingMatchOnStopMode();
    case GateUnknown => HookClosingMatchOnUnknown();
  }

  /** Only the closed state stops the card's countdown: "Zavírá se..." does not
      contain "zavírání". */
  lemma CardStopTestOnLabels(g: GateState)
    ensures CardStopTest(GateLabel(g)) <==> g == GateClosed
  {
    LowerGateLabelCorrect(g);
    match g
    case GateClosed => CardStopMatchOnClosed();
    case GateOpen => CardStopMatchOnOpen();
    case GateOpening => CardStopMatchOnOpening();
    case GateClosing => CardStopMatchOnClosing();
    case GateStopped => CardStopMatchOnStopped();
    case GateStopMode => CardStopMatchOnStopMode();
    case GateUnknown => CardStopMatchOnUnknown();
  }

  /** Only the opening state reads as opening. */
  lemma OpeningTestOnLabels(g: GateState)
    ensures OpeningTest(GateLabel(g)) <==> g == GateOpening
  {
    LowerGateLabelCorrect(g);
    match g
    case GateClosed => OpeningMatchOnClosed();
    case GateOpen => OpeningMatchOnOpen();
    case GateOpening => OpeningMatchOnOpening();
    case GateClosing => OpeningMatchOnClosing();
    case GateStopped => OpeningMatchOnStopped();
    case GateStopMode => OpeningMatchOnStopMode();
    case GateUnknown => OpeningMatchOnUnknown();
  }

  /** A gate command sees the gate closed exactly in the closed state. */
  lemma CommandSeesClosedOnLabels(g: GateState)
    ensures CommandSeesClosed(GateLabel(g)) <==> g == GateClosed
  {
    LowerGateLabelCorrect(g);
    match g
    case GateClosed => CommandClosedMatchOnClosed();
    case GateOpen => CommandClosedMatchOnOpen();
    case GateOpening => CommandClosedMatchOnOpening();
    case GateClosing => CommandClosedMatchOnClosing();
    case GateStopped => CommandClosedMatchOnStopped();
    case GateStopMode => CommandClosedMatchOnStopMode();
    case GateUnknown => CommandClosedMatchOnUnknown();
  }

  /** The card's colour for each state: open green, closed red, opening
      yellow, closing orange, the other three gray. */
  lemma StatusToneOnLabels(g: GateState)
    ensures StatusTone(GateLabel(g)) ==
              match g
              case GateOpen => Green
              case GateClosed => Red
              case GateOpening => Yellow
              case GateClosing => Orange
              case _ => Gray
  {
    LowerGateLabelCorrect(g);
    match g
    case GateClosed => ToneOnClosed();
    case GateOpen => ToneOnOpen();
    case GateOpening => ToneOnOpening();
    case GateClosing => ToneOnClosing();
    case GateStopped => ToneOnStopped();
    case GateStopMode => ToneOnStopMode();
    case GateUnknown => ToneOnUnknown();
  }
}
