/** Which of the status helpers' substrings occur in each gate and garage
    label, and which of the two motion words occur in its lower-cased form;
    one lemma per label, each proved from a witness occurrence or from a
    character the label lacks. */
module StatusLabelFacts {
  import opened Text

  lemma GateClosedFacts0()
    ensures Contains("Brána zavřena", "zavřena")
    ensures !Contains("Brána zavřena", "otevřena")
  {
    assert Contains("Brána zavřena", "zavřena") by { MatchAtContains("Brána zavřena", "zavřena", 6); }
    assert !Contains("Brána zavřena", "otevřena") by { AbsentCharNotContained("Brána zavřena", "otevřena", 'o'); }
  }

  lemma GateClosedFacts1()
    ensures !Contains("Brána zavřena", "otevírá")
    ensures !Contains("Brána zavřena", "zavírá")
  {
    assert !Contains("Brána zavřena", "otevírá") by { AbsentCharNotContained("Brána zavřena", "otevírá", 'o'); }
    assert !Contains("Brána zavřena", "zavírá") by { AbsentCharNotContained("Brána zavřena", "zavírá", 'í'); }
  }

  lemma GateClosedFacts2()
    ensures !Contains("Brána zavřena", "Zastavena")
    ensures !Contains("Brána zavřena", "STOP")
  {
    assert !Contains("Brána zavřena", "Zastavena") by { AbsentCharNotContained("Brána zavřena", "Zastavena", 'Z'); }
    assert !Contains("Brána zavřena", "STOP") by { AbsentCharNotContained("Brána zavřena", "STOP", 'S'); }
  }

  lemma GateClosedFacts()
    ensures Contains("Brána zavřena", "zavřena")
    ensures !Contains("Brána zavřena", "otevřena")
    ensures !Contains("Brána zavřena", "otevírá")
    ensures !Contains("Brána zavřena", "zavírá")
    ensures !Contains("Brána zavřena", "Zastavena")
    ensures !Contains("Brána zavřena", "STOP")
  {
    GateClosedFacts0();
    GateClosedFacts1();
    GateClosedFacts2();
  }

  lemma GateClosedLowerFacts()
    ensures !Contains("brána zavřena", "otevírá")
    ensures !Contains("brána zavřena", "zavírá")
  {
    assert !Contains("brána zavřena", "otevírá") by { AbsentCharNotContained("brána zavřena", "otevírá", 'o'); }
    assert !Contains("brána zavřena", "zavírá") by { AbsentCharNotContained("brána zavřena", "zavírá", 'í'); }
  }

  lemma GateOpenFacts0()
    ensures !Contains("Brána otevřena", "zavřena")
    ensures Contains("Brána otevřena", "otevřena")
  {
    assert !Contains("Brána otevřena", "zavřena") by { AbsentCharNotContained("Brána otevřena", "zavřena", 'z'); }
    assert Contains("Brána otevřena", "otevřena") by { MatchAtContains("Brána otevřena", "otevřena", 6); }
  }

  lemma GateOpenFacts1()
    ensures !Contains("Brána otevřena", "otevírá")
    ensures !Contains("Brána otevřena", "zavírá")
  {
    assert !Contains("Brána otevřena", "otevírá") by { AbsentCharNotContained("Brána otevřena", "otevírá", 'í'); }
    assert !Contains("Brána otevřena", "zavírá") by { AbsentCharNotContained("Brána otevřena", "zavírá", 'z'); }
  }

  lemma GateOpenFacts2()
    ensures !Contains("Brána otevřena", "Zastavena")
    ensures !Contains("Brána otevřena", "STOP")
  {
    assert !Contains("Brána otevřena", "Zastavena") by { AbsentCharNotContained("Brána otevřena", "Zastavena", 'Z'); }
    assert !Contains("Brána otevřena", "STOP") by { AbsentCharNotContained("Brána otevřena", "STOP", 'S'); }
  }

  lemma GateOpenFacts()
    ensures !Contains("Brána otevřena", "zavřena")
    ensures Contains("Brána otevřena", "otevřena")
    ensures !Contains("Brána otevřena", "otevírá")
    ensures !Contains("Brána otevřena", "zavírá")
    ensures !Contains("Brána otevřena", "Zastavena")
    ensures !Contains("Brána otevřena", "STOP")
  {
    GateOpenFacts0();
    GateOpenFacts1();
    GateOpenFacts2();
  }

  lemma GateOpenLowerFacts()
    ensures !Contains("brána otevřena", "otevírá")
    ensures !Contains("brána otevřena", "zavírá")
  {
    assert !Contains("brána otevřena", "otevírá") by { AbsentCharNotContained("brána otevřena", "otevírá", 'í'); }
    assert !Contains("brána otevřena", "zavírá") by { AbsentCharNotContained("brána otevřena", "zavírá", 'z'); }
  }

  lemma GateOpeningFacts0()
    ensures !Contains("Otevírá se...", "zavřena")
    ensures !Contains("Otevírá se...", "otevřena")
  {
    assert !Contains("Otevírá se...", "zavřena") by { AbsentCharNotContained("Otevírá se...", "zavřena", 'z'); }
    assert !Contains("Otevírá se...", "otevřena") by { AbsentCharNotContained("Otevírá se...", "otevřena", 'o'); }
  }

  lemma GateOpeningFacts1()
    ensures !Contains("Otevírá se...", "otevírá")
    ensures !Contains("Otevírá se...", "zavírá")
  {
    assert !Contains("Otevírá se...", "otevírá") by { AbsentCharNotContained("Otevírá se...", "otevírá", 'o'); }
    assert !Contains("Otevírá se...", "zavírá") by { AbsentCharNotContained("Otevírá se...", "zavírá", 'z'); }
  }

  lemma GateOpeningFacts2()
    ensures !Contains("Otevírá se...", "Zastavena")
    ensures !Contains("Otevírá se...", "STOP")
  {
    assert !Contains("Otevírá se...", "Zastavena") by { AbsentCharNotContained("Otevírá se...", "Zastavena", 'Z'); }
    assert !Contains("Otevírá se...", "STOP") by { AbsentCharNotContained("Otevírá se...", "STOP", 'S'); }
  }

  lemma GateOpeningFacts()
    ensures !Contains("Otevírá se...", "zavřena")
    ensures !Contains("Otevírá se...", "otevřena")
    ensures !Contains("Otevírá se...", "otevírá")
    ensures !Contains("Otevírá se...", "zavírá")
    ensures !Contains("Otevírá se...", "Zastavena")
    ensures !Contains("Otevírá se...", "STOP")
  {
    GateOpeningFacts0();
    GateOpeningFacts1();
    GateOpeningFacts2();
  }

  lemma GateOpeningLowerFacts()
    ensures Contains("otevírá se...", "otevírá")
    ensures !Contains("otevírá se...", "zavírá")
  {
    assert Contains("otevírá se...", "otevírá") by { MatchAtContains("otevírá se...", "otevírá", 0); }
    assert !Contains("otevírá se...", "zavírá") by { AbsentCharNotContained("otevírá se...", "zavírá", 'z'); }
  }

  lemma GateClosingFacts0()
    ensures !Contains("Zavírá se...", "zavřena")
    ensures !Contains("Zavírá se...", "otevřena")
  {
    assert !Contains("Zavírá se...", "zavřena") by { AbsentCharNotContained("Zavírá se...", "zavřena", 'z'); }
    assert !Contains("Zavírá se...", "otevřena") by { AbsentCharNotContained("Zavírá se...", "otevřena", 'o'); }
  }

  lemma GateClosingFacts1()
    ensures !Contains("Zavírá se...", "otevírá")
    ensures !Contains("Zavírá se...", "zavírá")
  {
    assert !Contains("Zavírá se...", "otevírá") by { AbsentCharNotContained("Zavírá se...", "otevírá", 'o'); }
    assert !Contains("Zavírá se...", "zavírá") by { AbsentCharNotContained("Zavírá se...", "zavírá", 'z'); }
  }

  lemma GateClosingFacts2()
    ensures !Contains("Zavírá se...", "Zastavena")
    ensures !Contains("Zavírá se...", "STOP")
  {
    assert !Contains("Zavírá se...", "Zastavena") by { AbsentCharNotContained("Zavírá se...", "Zastavena", 't'); }
    assert !Contains("Zavírá se...", "STOP") by { AbsentCharNotContained("Zavírá se...", "STOP", 'S'); }
  }

  lemma GateClosingFacts()
    ensures !Contains("Zavírá se...", "zavřena")
    ensures !Contains("Zavírá se...", "otevřena")
    ensures !Contains("Zavírá se...", "otevírá")
    ensures !Contains("Zavírá se...", "zavírá")
    ensures !Contains("Zavírá se...", "Zastavena")
    ensures !Contains("Zavírá se...", "STOP")
  {
    GateClosingFacts0();
    GateClosingFacts1();
    GateClosingFacts2();
  }

  lemma GateClosingLowerFacts()
    ensures !Contains("zavírá se...", "otevírá")
    ensures Contains("zavírá se...", "zavírá")
  {
    assert !Contains("zavírá se...", "otevírá") by { AbsentCharNotContained("zavírá se...", "otevírá", 'o'); }
    assert Contains("zavírá se...", "zavírá") by { MatchAtContains("zavírá se...", "zavírá", 0); }
  }

  lemma GateStoppedFacts0()
    ensures !Contains("Zastavena", "zavřena")
    ensures !Contains("Zastavena", "otevřena")
  {
    assert !Contains("Zastavena", "zavřena") by { AbsentCharNotContained("Zastavena", "zavřena", 'z'); }
    assert !Contains("Zastavena", "otevřena") by { AbsentCharNotContained("Zastavena", "otevřena", 'o'); }
  }

  lemma GateStoppedFacts1()
    ensures !Contains("Zastavena", "otevírá")
    ensures !Contains("Zastavena", "zavírá")
  {
    assert !Contains("Zastavena", "otevírá") by { AbsentCharNotContained("Zastavena", "otevírá", 'o'); }
    assert !Contains("Zastavena", "zavírá") by { AbsentCharNotContained("Zastavena", "zavírá", 'z'); }
  }

  lemma GateStoppedFacts2()
    ensures Contains("Zastavena", "Zastavena")
    ensures !Contains("Zastavena", "STOP")
  {
    assert Contains("Zastavena", "Zastavena") by { MatchAtContains("Zastavena", "Zastavena", 0); }
    assert !Contains("Zastavena", "STOP") by { AbsentCharNotContained("Zastavena", "STOP", 'S'); }
  }

  lemma GateStoppedFacts()
    ensures !Contains("Zastavena", "zavřena")
    ensures !Contains("Zastavena", "otevřena")
    ensures !Contains("Zastavena", "otevírá")
    ensures !Contains("Zastavena", "zavírá")
    ensures Contains("Zastavena", "Zastavena")
    ensures !Contains("Zastavena", "STOP")
  {
    GateStoppedFacts0();
    GateStoppedFacts1();
    GateStoppedFacts2();
  }

  lemma GateStoppedLowerFacts()
    ensures !Contains("zastavena", "otevírá")
    ensures !Contains("zastavena", "zavírá")
  {
    assert !Contains("zastavena", "otevírá") by { AbsentCharNotContained("zastavena", "otevírá", 'o'); }
    assert !Contains("zastavena", "zavírá") by { AbsentCharNotContained("zastavena", "zavírá", 'í'); }
  }

  lemma GateStopModeFacts0()
    ensures !Contains("STOP režim", "zavřena")
    ensures !Contains("STOP režim", "otevřena")
  {
    assert !Contains("STOP režim", "zavřena") by { AbsentCharNotContained("STOP režim", "zavřena", 'z'); }
    assert !Contains("STOP režim", "otevřena") by { AbsentCharNotContained("STOP režim", "otevřena", 'o'); }
  }

  lemma GateStopModeFacts1()
    ensures !Contains("STOP režim", "otevírá")
    ensures !Contains("STOP režim", "zavírá")
  {
    assert !Contains("STOP režim", "otevírá") by { AbsentCharNotContained("STOP režim", "otevírá", 'o'); }
    assert !Contains("STOP režim", "zavírá") by { AbsentCharNotContained("STOP režim", "zavírá", 'z'); }
  }

  lemma GateStopModeFacts2()
    ensures !Contains("STOP režim", "Zastavena")
    ensures Contains("STOP režim", "STOP")
  {
    assert !Contains("STOP režim", "Zastavena") by { AbsentCharNotContained("STOP režim", "Zastavena", 'Z'); }
    assert Contains("STOP režim", "STOP") by { MatchAtContains("STOP režim", "STOP", 0); }
  }

  lemma GateStopModeFacts()
    ensures !Contains("STOP režim", "zavřena")
    ensures !Contains("STOP režim", "otevřena")
    ensures !Contains("STOP režim", "otevírá")
    ensures !Contains("STOP režim", "zavírá")
    ensures !Contains("STOP režim", "Zastavena")
    ensures Contains("STOP režim", "STOP")
  {
    GateStopModeFacts0();
    GateStopModeFacts1();
    GateStopModeFacts2();
  }

  lemma GateStopModeLowerFacts()
    ensures !Contains("stop režim", "otevírá")
    ensures !Contains("stop režim", "zavírá")
  {
    assert !Contains("stop režim", "otevírá") by { AbsentCharNotContained("stop režim", "otevírá", 'v'); }
    assert !Contains("stop režim", "zavírá") by { AbsentCharNotContained("stop režim", "zavírá", 'z'); }
  }

  lemma UnknownFacts0()
    ensures !Contains("Neznámý stav", "zavřena")
    ensures !Contains("Neznámý stav", "otevřena")
  {
    assert !Contains("Neznámý stav", "zavřena") by { AbsentCharNotContained("Neznámý stav", "zavřena", 'ř'); }
    assert !Contains("Neznámý stav", "otevřena") by { AbsentCharNotContained("Neznámý stav", "otevřena", 'o'); }
  }

  lemma UnknownFacts1()
    ensures !Contains("Neznámý stav", "otevírá")
    ensures !Contains("Neznámý stav", "zavírá")
  {
    assert !Contains("Neznámý stav", "otevírá") by { AbsentCharNotContained("Neznámý stav", "otevírá", 'o'); }
    assert !Contains("Neznámý stav", "zavírá") by { AbsentCharNotContained("Neznámý stav", "zavírá", 'í'); }
  }

  lemma UnknownFacts2()
    ensures !Contains("Neznámý stav", "Zastavena")
    ensures !Contains("Neznámý stav", "STOP")
  {
    assert !Contains("Neznámý stav", "Zastavena") by { AbsentCharNotContained("Neznámý stav", "Zastavena", 'Z'); }
    assert !Contains("Neznámý stav", "STOP") by { AbsentCharNotContained("Neznámý stav", "STOP", 'S'); }
  }

  lemma UnknownFacts()
    ensures !Contains("Neznámý stav", "zavřena")
    ensures !Contains("Neznámý stav", "otevřena")
    ensures !Contains("Neznámý stav", "otevírá")
    ensures !Contains("Neznámý stav", "zavírá")
    ensures !Contains("Neznámý stav", "Zastavena")
    ensures !Contains("Neznámý stav", "STOP")
  {
    UnknownFacts0();
    UnknownFacts1();
    UnknownFacts2();
  }

  lemma UnknownLowerFacts()
    ensures !Contains("neznámý stav", "otevírá")
    ensures !Contains("neznámý stav", "zavírá")
  {
    assert !Contains("neznámý stav", "otevírá") by { AbsentCharNotContained("neznámý stav", "otevírá", 'o'); }
    assert !Contains("neznámý stav", "zavírá") by { AbsentCharNotContained("neznámý stav", "zavírá", 'í'); }
  }

  lemma GarageClosedFacts0()
    ensures Contains("Garáž zavřena", "zavřena")
    ensures !Contains("Garáž zavřena", "otevřena")
  {
    assert Contains("Garáž zavřena", "zavřena") by { MatchAtContains("Garáž zavřena", "zavřena", 6); }
    assert !Contains("Garáž zavřena", "otevřena") by { AbsentCharNotContained("Garáž zavřena", "otevřena", 'o'); }
  }

  lemma GarageClosedFacts1()
    ensures !Contains("Garáž zavřena", "otevírá")
    ensures !Contains("Garáž zavřena", "zavírá")
  {
    assert !Contains("Garáž zavřena", "otevírá") by { AbsentCharNotContained("Garáž zavřena", "otevírá", 'o'); }
    assert !Contains("Garáž zavřena", "zavírá") by { AbsentCharNotContained("Garáž zavřena", "zavírá", 'í'); }
  }

  lemma GarageClosedFacts2()
    ensures !Contains("Garáž zavřena", "Zastavena")
    ensures !Contains("Garáž zavřena", "STOP")
  {
    assert !Contains("Garáž zavřena", "Zastavena") by { AbsentCharNotContained("Garáž zavřena", "Zastavena", 'Z'); }
    assert !Contains("Garáž zavřena", "STOP") by { AbsentCharNotContained("Garáž zavřena", "STOP", 'S'); }
  }

  lemma GarageClosedFacts()
    ensures Contains("Garáž zavřena", "zavřena")
    ensures !Contains("Garáž zavřena", "otevřena")
    ensures !Contains("Garáž zavřena", "otevírá")
    ensures !Contains("Garáž zavřena", "zavírá")
    ensures !Contains("Garáž zavřena", "Zastavena")
    ensures !Contains("Garáž zavřena", "STOP")
  {
    GarageClosedFacts0();
    GarageClosedFacts1();
    GarageClosedFacts2();
  }

  lemma GarageClosedLowerFacts()
    ensures !Contains("garáž zavřena", "otevírá")
    ensures !Contains("garáž zavřena", "zavírá")
  {
    assert !Contains("garáž zavřena", "otevírá") by { AbsentCharNotContained("garáž zavřena", "otevírá", 'o'); }
    assert !Contains("garáž zavřena", "zavírá") by { AbsentCharNotContained("garáž zavřena", "zavírá", 'í'); }
  }

  lemma GarageClosedLower()
    ensures AsciiLower("Garáž zavřena") == "garáž zavřena"
  {
    AsciiLowerIs("Garáž zavřena", "garáž zavřena");
  }

  lemma GarageOpenFacts0()
    ensures !Contains("Garáž otevřena", "zavřena")
    ensures Contains("Garáž otevřena", "otevřena")
  {
    assert !Contains("Garáž otevřena", "zavřena") by { AbsentCharNotContained("Garáž otevřena", "zavřena", 'z'); }
    assert Contains("Garáž otevřena", "otevřena") by { MatchAtContains("Garáž otevřena", "otevřena", 6); }
  }

  lemma GarageOpenFacts1()
    ensures !Contains("Garáž otevřena", "otevírá")
    ensures !Contains("Garáž otevřena", "zavírá")
  {
    assert !Contains("Garáž otevřena", "otevírá") by { AbsentCharNotContained("Garáž otevřena", "otevírá", 'í'); }
    assert !Contains("Garáž otevřena", "zavírá") by { AbsentCharNotContained("Garáž otevřena", "zavírá", 'z'); }
  }

  lemma GarageOpenFacts2()
    ensures !Contains("Garáž otevřena", "Zastavena")
    ensures !Contains("Garáž otevřena", "STOP")
  {
    assert !Contains("Garáž otevřena", "Zastavena") by { AbsentCharNotContained("Garáž otevřena", "Zastavena", 'Z'); }
    assert !Contains("Garáž otevřena", "STOP") by { AbsentCharNotContained("Garáž otevřena", "STOP", 'S'); }
  }

  lemma GarageOpenFacts()
    ensures !Contains("Garáž otevřena", "zavřena")
    ensures Contains("Garáž otevřena", "otevřena")
    ensures !Contains("Garáž otevřena", "otevírá")
    ensures !Contains("Garáž otevřena", "zavírá")
    ensures !Contains("Garáž otevřena", "Zastavena")
    ensures !Contains("Garáž otevřena", "STOP")
  {
    GarageOpenFacts0();
    GarageOpenFacts1();
    GarageOpenFacts2();
  }

  lemma GarageOpenLowerFacts()
    ensures !Contains("garáž otevřena", "otevírá")
    ensures !Contains("garáž otevřena", "zavírá")
  {
    assert !Contains("garáž otevřena", "otevírá") by { AbsentCharNotContained("garáž otevřena", "otevírá", 'í'); }
    assert !Contains("garáž otevřena", "zavírá") by { AbsentCharNotContained("garáž otevřena", "zavírá", 'z'); }
  }

  lemma GarageOpenLower()
    ensures AsciiLower("Garáž otevřena") == "garáž otevřena"
  {
    AsciiLowerIs("Garáž otevřena", "garáž otevřena");
  }

  lemma GarageOpeningFacts0()
    ensures !Contains("Garáž - otevírá se...", "zavřena")
    ensures !Contains("Garáž - otevírá se...", "otevřena")
  {
    assert !Contains("Garáž - otevírá se...", "zavřena") by { AbsentCharNotContained("Garáž - otevírá se...", "zavřena", 'z'); }
    assert !Contains("Garáž - otevírá se...", "otevřena") by { AbsentCharNotContained("Garáž - otevírá se...", "otevřena", 'ř'); }
  }

  lemma GarageOpeningFacts1()
    ensures Contains("Garáž - otevírá se...", "otevírá")
    ensures !Contains("Garáž - otevírá se...", "zavírá")
  {
    assert Contains("Garáž - otevírá se...", "otevírá") by { MatchAtContains("Garáž - otevírá se...", "otevírá", 8); }
    assert !Contains("Garáž - otevírá se...", "zavírá") by { AbsentCharNotContained("Garáž - otevírá se...", "zavírá", 'z'); }
  }

  lemma GarageOpeningFacts2()
    ensures !Contains("Garáž - otevírá se...", "Zastavena")
    ensures !Contains("Garáž - otevírá se...", "STOP")
  {
    assert !Contains("Garáž - otevírá se...", "Zastavena") by { AbsentCharNotContained("Garáž - otevírá se...", "Zastavena", 'Z'); }
    assert !Contains("Garáž - otevírá se...", "STOP") by { AbsentCharNotContained("Garáž - otevírá se...", "STOP", 'S'); }
  }

  lemma GarageOpeningFacts()
    ensures !Contains("Garáž - otevírá se...", "zavřena")
    ensures !Contains("Garáž - otevírá se...", "otevřena")
    ensures Contains("Garáž - otevírá se...", "otevírá")
    ensures !Contains("Garáž - otevírá se...", "zavírá")
    ensures !Contains("Garáž - otevírá se...", "Zastavena")
    ensures !Contains("Garáž - otevírá se...", "STOP")
  {
    GarageOpeningFacts0();
    GarageOpeningFacts1();
    GarageOpeningFacts2();
  }

  lemma GarageOpeningLowerFacts()
    ensures Contains("garáž - otevírá se...", "otevírá")
    ensures !Contains("garáž - otevírá se...", "zavírá")
  {
    assert Contains("garáž - otevírá se...", "otevírá") by { MatchAtContains("garáž - otevírá se...", "otevírá", 8); }
    assert !Contains("garáž - otevírá se...", "zavírá") by { AbsentCharNotContained("garáž - otevírá se...", "zavírá", 'z'); }
  }

  lemma GarageOpeningLower()
    ensures AsciiLower("Garáž - otevírá se...") == "garáž - otevírá se..."
  {
    AsciiLowerIs("Garáž - otevírá se...", "garáž - otevírá se...");
  }

  lemma GarageClosingFacts0()
    ensures !Contains("Garáž - zavírá se...", "zavřena")
    ensures !Contains("Garáž - zavírá se...", "otevřena")
  {
    assert !Contains("Garáž - zavírá se...", "zavřena") by { AbsentCharNotContained("Garáž - zavírá se...", "zavřena", 'ř'); }
    assert !Contains("Garáž - zavírá se...", "otevřena") by { AbsentCharNotContained("Garáž - zavírá se...", "otevřena", 'o'); }
  }

  lemma GarageClosingFacts1()
    ensures !Contains("Garáž - zavírá se...", "otevírá")
    ensures Contains("Garáž - zavírá se...", "zavírá")
  {
    assert !Contains("Garáž - zavírá se...", "otevírá") by { AbsentCharNotContained("Garáž - zavírá se...", "otevírá", 'o'); }
    assert Contains("Garáž - zavírá se...", "zavírá") by { MatchAtContains("Garáž - zavírá se...", "zavírá", 8); }
  }

  lemma GarageClosingFacts2()
    ensures !Contains("Garáž - zavírá se...", "Zastavena")
    ensures !Contains("Garáž - zavírá se...", "STOP")
  {
    assert !Contains("Garáž - zavírá se...", "Zastavena") by { AbsentCharNotContained("Garáž - zavírá se...", "Zastavena", 'Z'); }
    assert !Contains("Garáž - zavírá se...", "STOP") by { AbsentCharNotContained("Garáž - zavírá se...", "STOP", 'S'); }
  }

  lemma GarageClosingFacts()
    ensures !Contains("Garáž - zavírá se...", "zavřena")
    ensures !Contains("Garáž - zavírá se...", "otevřena")
    ensures !Contains("Garáž - zavírá se...", "otevírá")
    ensures Contains("Garáž - zavírá se...", "zavírá")
    ensures !Contains("Garáž - zavírá se...", "Zastavena")
    ensures !Contains("Garáž - zavírá se...", "STOP")
  {
    GarageClosingFacts0();
    GarageClosingFacts1();
    GarageClosingFacts2();
  }

  lemma GarageClosingLowerFacts()
    ensures !Contains("garáž - zavírá se...", "otevírá")
    ensures Contains("garáž - zavírá se...", "zavírá")
  {
    assert !Contains("garáž - zavírá se...", "otevírá") by { AbsentCharNotContained("garáž - zavírá se...", "otevírá", 'o'); }
    assert Contains("garáž - zavírá se...", "zavírá") by { MatchAtContains("garáž - zavírá se...", "zavírá", 8); }
  }

  lemma GarageClosingLower()
    ensures AsciiLower("Garáž - zavírá se...") == "garáž - zavírá se..."
  {
    AsciiLowerIs("Garáž - zavírá se...", "garáž - zavírá se...");
  }
}
