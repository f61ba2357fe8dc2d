/** The substring tests the gate screens apply to the reported gate status.
    Most tests lower-case the status first; every upper-case letter
    in the seven labels is ASCII, so on them ASCII lower-casing is what
    `toLowerCase` does. */
module GateTests {
  import opened Text
  import opened StatusParser

  /** The lower-cased label of each gate state. */
  function LowerGateLabel(g: GateState): string {
    match g
    case GateClosed => "brána zavřena"
    case GateOpen => "brána otevřena"
    case GateOpening => "otevírá se..."
    case GateClosing => "zavírá se..."
    case GateStopped => "zastavena"
    case GateStopMode => "stop režim"
    case GateUnknown => "neznámý stav"
  }

  lemma LowerGateLabelCorrect(g: GateState)
    ensures AsciiLower(GateLabel(g)) == LowerGateLabel(g)
  {
    match g
    case GateClosed => LowerOfClosed();
    case GateOpen => LowerOfOpen();
    case GateOpening => LowerOfOpening();
    case GateClosing => LowerOfClosing();
    case GateStopped => LowerOfStopped();
    case GateStopMode => LowerOfStopMode();
    case GateUnknown => LowerOfUnknown();
  }

  lemma LowerOfClosed()
    ensures AsciiLower("Brána zavřena") == "brána zavřena"
  {
    AsciiLowerIs("Brána zavřena", "brána zavřena");
  }

  lemma LowerOfOpen()
    ensures AsciiLower("Brána otevřena") == "brána otevřena"
  {
    AsciiLowerIs("Brána otevřena", "brána otevřena");
  }

  lemma LowerOfOpening()
    ensures AsciiLower("Otevírá se...") == "otevírá se..."
  {
    AsciiLowerIs("Otevírá se...", "otevírá se...");
  }

  lemma LowerOfClosing()
    ensures AsciiLower("Zavírá se...") == "zavírá se..."
  {
    AsciiLowerIs("Zavírá se...", "zavírá se...");
  }

  lemma LowerOfStopped()
    ensures AsciiLower("Zastavena") == "zastavena"
  {
    AsciiLowerIs("Zastavena", "zastavena");
  }

  lemma LowerOfStopMode()
    ensures AsciiLower("STOP režim") == "stop režim"
  {
    AsciiLowerIs("STOP režim", "stop režim");
  }

  lemma LowerOfUnknown()
    ensures AsciiLower("Neznámý stav") == "neznámý stav"
  {
    AsciiLowerIs("Neznámý stav", "neznámý stav");
  }

  // ----------------------------------------------------------- the tests

  // Each test is split into its alternatives on the lower-cased status `l`
  // and on the status `s` as reported.

  /** "The gate is open", the same test in every gate screen. */
  predicate OpenMatch(l: string, s: string) {
    Contains(l, "otevřena") || Contains(l, "open") || Contains(l, "otevreno") || Contains(l, "brána otevřena")
    || Contains(l, "gate open") || Contains(s, "Brána otevřena") || Contains(s, "Gate open") || Contains(s, "OPEN")
  }

  predicate OpenTest(s: string) {
    OpenMatch(AsciiLower(s), s)
  }

  /** "The gate is closed", the same test in every gate screen. */
  predicate ClosedMatch(l: string, s: string) {
    Contains(l, "zavřena") || Contains(l, "closed") || Contains(l, "zavřeno")
  }

  predicate ClosedTest(s: string) {
    ClosedMatch(AsciiLower(s), s)
  }

  /** The dashboard's "the gate is closing". */
  predicate DashboardClosingMatch(l: string, s: string) {
    Contains(l, "zavírání") || Contains(l, "closing") || Contains(l, "zavirani") || Contains(s, "Zavírá se...")
  }

  predicate DashboardClosingTest(s: string) {
    DashboardClosingMatch(AsciiLower(s), s)
  }

  /** The gate hook's "the gate is closing". Its last alternative looks for
      an upper-case letter in the lower-cased status. */
  predicate HookClosingMatch(l: string, s: string) {
    Contains(l, "zavírání") || Contains(l, "zavirani") || Contains(l, "zavirá") || Contains(l, "zavírá se")
    || Contains(l, "zavira se") || Contains(l, "closing") || Contains(l, "Zavírá se")
  }

  predicate HookClosingTest(s: string) {
    HookClosingMatch(AsciiLower(s), s)
  }

  /** The condition on the status under which the gate card and the status
      tracker stop the countdown: closed, or "zavírání" in the lower-cased
      status. */
  predicate CardStopMatch(l: string, s: string) {
    ClosedMatch(l, s) || Contains(l, "zavírání")
  }

  predicate CardStopTest(s: string) {
    CardStopMatch(AsciiLower(s), s)
  }

  /** "The gate has started opening", the same test in the dashboard, the
      gate hook and the status tracker. */
  predicate OpeningMatch(l: string, s: string) {
    OpeningLowerMatch(l) || OpeningRawMatch(s)
  }

  predicate OpeningLowerMatch(l: string) {
    Contains(l, "otevírá se") || Contains(l, "opening") || Contains(l, "otevirá se") || Contains(l, "otevirá")
    || Contains(l, "otevreni")
  }

  predicate OpeningRawMatch(s: string) {
    Contains(s, "Otevírá se...") || Contains(s, "Opening...") || Contains(s, "OTEVIRA SE")
    || Contains(s, "Otevírá se") || Contains(s, "otevírá se") || Contains(s, "OTEVÍRÁ SE")
  }

  predicate OpeningTest(s: string) {
    OpeningMatch(AsciiLower(s), s)
  }

  /** "The gate is closed" as a gate command sees it: the dashboard arms the
      open check on it and the gate hook keeps its retry flag on it. */
  predicate CommandClosedMatch(l: string, s: string) {
    Contains(l, "zavřena") || Contains(l, "closed")
  }

  predicate CommandSeesClosed(s: string) {
    CommandClosedMatch(AsciiLower(s), s)
  }

  /** The colour the gate card gives the status text. */
  datatype Tone = Green | Red | Yellow | Orange | Gray

  /** The gate card's colour on the lower-cased status, first match wins:
      open, closed, opening, closing. Its icon follows the same order. */
  function ToneOf(l: string): Tone {
    if Contains(l, "otevřena") || Contains(l, "open") then Green
    else if Contains(l, "zavřena") || Contains(l, "closed") then Red
    else if Contains(l, "otevírá") || Contains(l, "opening") then Yellow
    else if Contains(l, "zavírá") || Contains(l, "closing") then Orange
    else Gray
  }

  function StatusTone(s: string): Tone {
    ToneOf(AsciiLower(s))
  }

  function ToneClass(t: Tone): string {
    match t
    case Green => "text-green-600"
    case Red => "text-red-600"
    case Yellow => "text-yellow-600"
    case Orange => "text-orange-600"
    case Gray => "text-gray-600"
  }

  function ToneIcon(t: Tone): string {
    match t
    case Green => "🔓"
    case Red => "🔒"
    case Yellow => "🔄"
    case Orange => "🔄"
    case Gray => "❓"
  }
}
