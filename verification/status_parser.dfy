/** The client's status vocabulary and the translation of raw broker
    payloads into it. Both the direct client and the HTTP fallback carry
    identical copies of the two parsers. */
module StatusParser {
  import opened Text

  /** The seven gate states the client distinguishes. */
  datatype GateState =
    | GateClosed | GateOpen | GateOpening | GateClosing | GateStopped | GateStopMode | GateUnknown

  /** The five garage states the client distinguishes. */
  datatype GarageState = GarageClosed | GarageOpen | GarageOpening | GarageClosing | GarageUnknown

  /** The connection-quality levels a status report carries. */
  datatype Quality = Excellent | Good | Poor | QualityDisconnected

  /** How the client reaches the broker. */
  datatype ConnectionType = Direct | HttpProxy | NoConnection

  /** The Czech display string the client stores for each gate state. */
  function GateLabel(g: GateState): string {
    match g
    case GateClosed => "Brána zavřena"
    case GateOpen => "Brána otevřena"
    case GateOpening => "Otevírá se..."
    case GateClosing => "Zavírá se..."
    case GateStopped => "Zastavena"
    case GateStopMode => "STOP režim"
    case GateUnknown => "Neznámý stav"
  }

  /** The Czech display string the client stores for each garage state. */
  function GarageLabel(g: GarageState): string {
    match g
    case GarageClosed => "Garáž zavřena"
    case GarageOpen => "Garáž otevřena"
    case GarageOpening => "Garáž - otevírá se..."
    case GarageClosing => "Garáž - zavírá se..."
    case GarageUnknown => "Neznámý stav"
  }

  /** The hardware code the controller publishes for each known gate state. */
  function GateCode(g: GateState): string
    requires g != GateUnknown
  {
    match g
    case GateClosed => "P1"
    case GateOpen => "P2"
    case GateOpening => "P3"
    case GateClosing => "P4"
    case GateStopped => "P5"
    case GateStopMode => "P6"
  }

  /** The parser's lookup table, keyed by the trimmed payload: the labels and
      the codes of the six known states. */
  function GateTable(clean: string): (g: GateState)
    ensures forall k: GateState | k != GateUnknown ::
              g == k <==> (clean == GateLabel(k) || clean == GateCode(k))
  {
    if clean == "Brána zavřena" || clean == "P1" then GateClosed
    else if clean == "Brána otevřena" || clean == "P2" then GateOpen
    else if clean == "Otevírá se..." || clean == "P3" then GateOpening
    else if clean == "Zavírá se..." || clean == "P4" then GateClosing
    else if clean == "Zastavena" || clean == "P5" then GateStopped
    else if clean == "STOP režim" || clean == "P6" then GateStopMode
    else GateUnknown
  }

  /** The gate parser: the trimmed payload is looked up among the labels and
      codes of the six known states; anything else is the unknown state. */
  function ParseGate(raw: string): (g: GateState)
    ensures forall k: GateState | k != GateUnknown ::
              g == k <==> (Trim(raw) == GateLabel(k) || Trim(raw) == GateCode(k))
  {
    GateTable(Trim(raw))
  }

  /** Every known state survives being rendered as its label or its code and
      parsed back; the unknown state's own label is not in the table. */
  lemma ParseGateRoundTrip(g: GateState)
    ensures g != GateUnknown ==> ParseGate(GateLabel(g)) == g && ParseGate(GateCode(g)) == g
    ensures g == GateUnknown ==> ParseGate(GateLabel(g)) == GateUnknown
  {
    LabelTrimmed(g);
    TableOfLabel(g);
    if g != GateUnknown {
      CodeTrimmed(g);
      TableOfCode(g);
    }
  }

  lemma LabelTrimmed(g: GateState)
    ensures Trim(GateLabel(g)) == GateLabel(g)
  {
    TrimOfTrimmed(GateLabel(g));
  }

  lemma CodeTrimmed(g: GateState)
    requires g != GateUnknown
    ensures Trim(GateCode(g)) == GateCode(g)
  {
    TrimOfTrimmed(GateCode(g));
  }

  lemma TableOfLabel(g: GateState)
    ensures GateTable(GateLabel(g)) == g
  {
  }

  lemma TableOfCode(g: GateState)
    requires g != GateUnknown
    ensures GateTable(GateCode(g)) == g
  {
  }

  /** No two gate states share a label. */
  lemma GateLabelInjective(g: GateState, h: GateState)
    requires GateLabel(g) == GateLabel(h)
    ensures g == h
  {
    ParseGateRoundTrip(g);
    ParseGateRoundTrip(h);
  }

  /** The garage parser: only the closed code is recognised, compared after
      upper-casing and without trimming; movement messages ("POHYB") and every
      other payload give the unknown state, because the open and moving garage
      states are never reported by the hardware. */
  function ParseGarage(raw: string): (g: GarageState)
    ensures g == GarageClosed <==> raw == "P1" || raw == "p1"
    ensures g != GarageClosed ==> g == GarageUnknown
  {
    assert AsciiUpper("p1") == "P1";
    assert AsciiUpper(raw) == "P1" ==> raw[0] in "Pp" && raw[1] == '1' && raw == [raw[0], raw[1]];
    if AsciiUpper(raw) == "P1" then GarageClosed
    else if Contains(AsciiUpper(raw), "POHYB") then GarageUnknown
    else GarageUnknown
  }

  // ----------------------------------------------------- as written

  /** What the source's lookup `statusMap[cleanStatus] || 'Neznámý stav'`
      can produce: the table is a plain object literal, so a key it does not
      define still finds the (truthy) members it inherits from
      `Object.prototype`. */
  datatype Lookup = Found(state: GateState) | Inherited(member: string)

  /** The members every plain object inherits from `Object.prototype`. */
  const ObjectPrototypeMembers: set<string> := {
    "constructor", "hasOwnProperty", "isPrototypeOf", "propertyIsEnumerable",
    "toLocaleString", "toString", "valueOf", "__proto__",
    "__defineGetter__", "__defineSetter__", "__lookupGetter__", "__lookupSetter__"}

  /** The gate parser as the source writes it. */
  function ParseGateAsWritten(raw: string): (r: Lookup)
    ensures r.Inherited? <==> ParseGate(raw) == GateUnknown && Trim(raw) in ObjectPrototypeMembers
    ensures r.Inherited? ==> r.member == Trim(raw)
    ensures r.Found? ==> r.state == ParseGate(raw)
  {
    var clean := Trim(raw);
    if GateTable(clean) != GateUnknown then Found(GateTable(clean))
    else if clean in ObjectPrototypeMembers then Inherited(clean)
    else Found(GateUnknown)
  }

  /** A payload naming an inherited member ("toString") makes the source's
      parser return that member, which is neither a gate state nor the
      unknown-state fallback. */
  lemma AsWrittenParserLeaksPrototypeMembers()
    ensures ParseGateAsWritten("toString") == Inherited("toString")
    ensures ParseGate("toString") == GateUnknown
  {
    TrimOfTrimmed("toString");
  }
}
