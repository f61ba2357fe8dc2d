/** The status helpers of the utilities file: substring tests on a gate or
    garage label telling whether it is moving, open or closed, and the
    colour and icon chosen for it. None of them lower-cases the label. */
module StatusDisplay {
  import opened Text
  import opened StatusParser
  import opened StatusLabelFacts
  import GateTests

  /** A status the helpers accept: a gate label or a garage label. */
  datatype Status = OfGate(gate: GateState) | OfGarage(garage: GarageState)

  function StatusLabel(st: Status): string {
    match st
    case OfGate(g) => GateLabel(g)
    case OfGarage(g) => GarageLabel(g)
  }

  /** `isStatusActive` as written: the label contains "otevírá" or
      "zavírá", compared case-sensitively. */
  predicate IsStatusActive(s: string) {
    Contains(s, "otevírá") || Contains(s, "zavírá")
  }

  /** `isStatusOpen`. */
  predicate IsStatusOpen(s: string) {
    Contains(s, "otevřena")
  }

  /** `isStatusClosed`. */
  predicate IsStatusClosed(s: string) {
    Contains(s, "zavřena")
  }

  /** `getStatusColor`: closed green, open blue, moving amber, stopped red,
      anything else gray, tested in that order. */
  function StatusColor(s: string): string {
    if Contains(s, "zavřena") then "#22c55e"
    else if Contains(s, "otevřena") then "#3b82f6"
    else if Contains(s, "otevírá") || Contains(s, "zavírá") then "#f59e0b"
    else if Contains(s, "Zastavena") || Contains(s, "STOP") then "#ef4444"
    else "#6b7280"
  }

  /** `getStatusIcon`, with the same tests in the same order. */
  function StatusIcon(s: string): string {
    if Contains(s, "zavřena") then "🔒"
    else if Contains(s, "otevřena") then "🔓"
    else if Contains(s, "otevírá") then "🔄"
    else if Contains(s, "zavírá") then "🔄"
    else if Contains(s, "Zastavena") || Contains(s, "STOP") then "🛑"
    else "❓"
  }

  /** The states in which a gate or garage is moving. */
  predicate Moving(st: Status) {
    st == OfGate(GateOpening) || st == OfGate(GateClosing)
    || st == OfGarage(GarageOpening) || st == OfGarage(GarageClosing)
  }

  /** The motion test with the label lower-cased first, so that the gate's
      capitalised "Otevírá se..." and "Zavírá se..." count as well. */
  predicate IsStatusActiveCorrected(s: string) {
    IsStatusActive(AsciiLower(s))
  }

  /** Brings in the substring facts of the label of `st`. */
  lemma LabelFacts(st: Status)
    ensures var l := StatusLabel(st);
      && (Contains(l, "zavřena") <==> st == OfGate(GateClosed) || st == OfGarage(GarageClosed))
      && (Contains(l, "otevřena") <==> st == OfGate(GateOpen) || st == OfGarage(GarageOpen))
      && (Contains(l, "otevírá") <==> st == OfGarage(GarageOpening))
      && (Contains(l, "zavírá") <==> st == OfGarage(GarageClosing))
      && (Contains(l, "Zastavena") <==> st == OfGate(GateStopped))
      && (Contains(l, "STOP") <==> st == OfGate(GateStopMode))
  {
    match st
    case OfGate(GateClosed) => GateClosedFacts();
    case OfGate(GateOpen) => GateOpenFacts();
    case OfGate(GateOpening) => GateOpeningFacts();
    case OfGate(GateClosing) => GateClosingFacts();
    case OfGate(GateStopped) => GateStoppedFacts();
    case OfGate(GateStopMode) => GateStopModeFacts();
    case OfGate(GateUnknown) => UnknownFacts();
    case OfGarage(GarageClosed) => GarageClosedFacts();
    case OfGarage(GarageOpen) => GarageOpenFacts();
    case OfGarage(GarageOpening) => GarageOpeningFacts();
    case OfGarage(GarageClosing) => GarageClosingFacts();
    case OfGarage(GarageUnknown) => UnknownFacts();
  }

  /** The open test holds exactly for the two open states and the closed
      test exactly for the two closed states. */
  lemma OpenClosedOnLabels(st: Status)
    ensures IsStatusOpen(StatusLabel(st)) <==> st == OfGate(GateOpen) || st == OfGarage(GarageOpen)
    ensures IsStatusClosed(StatusLabel(st)) <==> st == OfGate(GateClosed) || st == OfGarage(GarageClosed)
  {
    LabelFacts(st);
  }

  /** As written, the motion test holds only for the two garage motions:
      the gate's opening and closing labels are capitalised and fail it. */
  lemma ActiveOnLabels(st: Status)
    ensures IsStatusActive(StatusLabel(st)) <==> st == OfGarage(GarageOpening) || st == OfGarage(GarageClosing)
  {
    LabelFacts(st);
  }

  /** The gate is moving, yet the helper calls it inactive. */
  lemma AsWrittenMissesGateMotion()
    ensures Moving(OfGate(GateOpening)) && !IsStatusActive(GateLabel(GateOpening))
    ensures Moving(OfGate(GateClosing)) && !IsStatusActive(GateLabel(GateClosing))
  {
    ActiveOnLabels(OfGate(GateOpening));
    ActiveOnLabels(OfGate(GateClosing));
  }

  /** The lower-cased label of each status. */
  function LowerStatusLabel(st: Status): string {
    match st
    case OfGate(g) => GateTests.LowerGateLabel(g)
    case OfGarage(GarageClosed) => "garáž zavřena"
    case OfGarage(GarageOpen) => "garáž otevřena"
    case OfGarage(GarageOpening) => "garáž - otevírá se..."
    case OfGarage(GarageClosing) => "garáž - zavírá se..."
    case OfGarage(GarageUnknown) => "neznámý stav"
  }

  lemma LowerStatusLabelCorrect(st: Status)
    ensures AsciiLower(StatusLabel(st)) == LowerStatusLabel(st)
  {
    match st
    case OfGate(g) => GateTests.LowerGateLabelCorrect(g);
    case OfGarage(GarageClosed) => GarageClosedLower();
    case OfGarage(GarageOpen) => GarageOpenLower();
    case OfGarage(GarageOpening) => GarageOpeningLower();
    case OfGarage(GarageClosing) => GarageClosingLower();
    case OfGarage(GarageUnknown) => GateTests.LowerOfUnknown();
  }

  /** The motion test on the lower-cased labels. */
  lemma ActiveOnLowerLabels(st: Status)
    ensures IsStatusActive(LowerStatusLabel(st)) <==> Moving(st)
  {
    match st
    case OfGate(GateClosed) => GateClosedLowerFacts();
    case OfGate(GateOpen) => GateOpenLowerFacts();
    case OfGate(GateOpening) => GateOpeningLowerFacts();
    case OfGate(GateClosing) => GateClosingLowerFacts();
    case OfGate(GateStopped) => GateStoppedLowerFacts();
    case OfGate(GateStopMode) => GateStopModeLowerFacts();
    case OfGate(GateUnknown) => UnknownLowerFacts();
    case OfGarage(GarageClosed) => GarageClosedLowerFacts();
    case OfGarage(GarageOpen) => GarageOpenLowerFacts();
    case OfGarage(GarageOpening) => GarageOpeningLowerFacts();
    case OfGarage(GarageClosing) => GarageClosingLowerFacts();
    case OfGarage(GarageUnknown) => UnknownLowerFacts();
  }

  /** With the label lower-cased first, the motion test holds exactly for
      the four moving states. */
  lemma ActiveCorrectedOnLabels(st: Status)
    ensures IsStatusActiveCorrected(StatusLabel(st)) <==> Moving(st)
  {
    LowerStatusLabelCorrect(st);
    ActiveOnLowerLabels(st);
  }

  /** The colour of each label: closed green, open blue, the garage's
      motions amber, stopped and stop mode red; the gate's motions fall
      through every test and come out gray, like the unknown state. */
  lemma StatusColorOnLabels(st: Status)
    ensures StatusColor(StatusLabel(st)) ==
              match st
              case OfGate(GateClosed) => "#22c55e"
              case OfGarage(GarageClosed) => "#22c55e"
              case OfGate(GateOpen) => "#3b82f6"
              case OfGarage(GarageOpen) => "#3b82f6"
              case OfGarage(GarageOpening) => "#f59e0b"
              case OfGarage(GarageClosing) => "#f59e0b"
              case OfGate(GateStopped) => "#ef4444"
              case OfGate(GateStopMode) => "#ef4444"
              case _ => "#6b7280"
  {
    LabelFacts(st);
  }

  /** The icon of each label, on the same cases as the colour. */
  lemma StatusIconOnLabels(st: Status)
    ensures StatusIcon(StatusLabel(st)) ==
              match st
              case OfGate(GateClosed) => "🔒"
              case OfGarage(GarageClosed) => "🔒"
              case OfGate(GateOpen) => "🔓"
              case OfGarage(GarageOpen) => "🔓"
              case OfGarage(GarageOpening) => "🔄"
              case OfGarage(GarageClosing) => "🔄"
              case OfGate(GateStopped) => "🛑"
              case OfGate(GateStopMode) => "🛑"
              case _ => "❓"
  {
    LabelFacts(st);
  }

  /** Colour and icon agree with the three predicates on any label: closed
      wins over everything, open over motion, and motion over stop. */
  lemma ColorFollowsPredicates(s: string)
    ensures IsStatusClosed(s) ==> StatusColor(s) == "#22c55e" && StatusIcon(s) == "🔒"
    ensures !IsStatusClosed(s) && IsStatusOpen(s) ==> StatusColor(s) == "#3b82f6" && StatusIcon(s) == "🔓"
    ensures !IsStatusClosed(s) && !IsStatusOpen(s) ==> (StatusColor(s) == "#f59e0b" <==> IsStatusActive(s))
    ensures !IsStatusClosed(s) && !IsStatusOpen(s) ==> (StatusIcon(s) == "🔄" <==> IsStatusActive(s))
  {
  }
}
