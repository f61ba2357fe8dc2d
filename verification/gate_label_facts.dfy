/** The outcome of each gate-screen test on each of the seven labels, one
    lemma per test and label, each proved from a witness occurrence or from
    a character the label lacks. */
module GateLabelFacts {
  import opened Text
  import opened GateTests

  lemma OpenMatchOnClosed()
    ensures !OpenMatch("brána zavřena", "Brána zavřena")
  {
    assert !Contains("brána zavřena", "otevřena") by { AbsentCharNotContained("brána zavřena", "otevřena", 'o'); }
    assert !Contains("brána zavřena", "open") by { AbsentCharNotContained("brána zavřena", "open", 'o'); }
    assert !Contains("brána zavřena", "otevreno") by { AbsentCharNotContained("brána zavřena", "otevreno", 'o'); }
    assert !Contains("brána zavřena", "brána otevřena") by { LongerNotContained("brána zavřena", "brána otevřena"); }
    assert !Contains("brána zavřena", "gate open") by { AbsentCharNotContained("brána zavřena", "gate open", 'g'); }
    assert !Contains("Brána zavřena", "Brána otevřena") by { LongerNotContained("Brána zavřena", "Brána otevřena"); }
    assert !Contains("Brána zavřena", "Gate open") by { AbsentCharNotContained("Brána zavřena", "Gate open", 'G'); }
    assert !Contains("Brána zavřena", "OPEN") by { AbsentCharNotContained("Brána zavřena", "OPEN", 'O'); }
  }

  lemma OpenMatchOnOpen()
    ensures OpenMatch("brána otevřena", "Brána otevřena")
  {
    MatchAtContains("brána otevřena", "otevřena", 6);
  }

  lemma OpenMatchOnOpening()
    ensures !OpenMatch("otevírá se...", "Otevírá se...")
  {
    assert !Contains("otevírá se...", "otevřena") by { AbsentCharNotContained("otevírá se...", "otevřena", 'ř'); }
    assert !Contains("otevírá se...", "open") by { AbsentCharNotContained("otevírá se...", "open", 'p'); }
    assert !Contains("otevírá se...", "otevreno") by { AbsentCharNotContained("otevírá se...", "otevreno", 'n'); }
    assert !Contains("otevírá se...", "brána otevřena") by { LongerNotContained("otevírá se...", "brána otevřena"); }
    assert !Contains("otevírá se...", "gate open") by { AbsentCharNotContained("otevírá se...", "gate open", 'g'); }
    assert !Contains("Otevírá se...", "Brána otevřena") by { LongerNotContained("Otevírá se...", "Brána otevřena"); }
    assert !Contains("Otevírá se...", "Gate open") by { AbsentCharNotContained("Otevírá se...", "Gate open", 'G'); }
    assert !Contains("Otevírá se...", "OPEN") by { AbsentCharNotContained("Otevírá se...", "OPEN", 'P'); }
  }

  lemma OpenMatchOnClosing()
    ensures !OpenMatch("zavírá se...", "Zavírá se...")
  {
    assert !Contains("zavírá se...", "otevřena") by { AbsentCharNotContained("zavírá se...", "otevřena", 'o'); }
    assert !Contains("zavírá se...", "open") by { AbsentCharNotContained("zavírá se...", "open", 'o'); }
    assert !Contains("zavírá se...", "otevreno") by { AbsentCharNotContained("zavírá se...", "otevreno", 'o'); }
    assert !Contains("zavírá se...", "brána otevřena") by { LongerNotContained("zavírá se...", "brána otevřena"); }
    assert !Contains("zavírá se...", "gate open") by { AbsentCharNotContained("zavírá se...", "gate open", 'g'); }
    assert !Contains("Zavírá se...", "Brána otevřena") by { LongerNotContained("Zavírá se...", "Brána otevřena"); }
    assert !Contains("Zavírá se...", "Gate open") by { AbsentCharNotContained("Zavírá se...", "Gate open", 'G'); }
    assert !Contains("Zavírá se...", "OPEN") by { AbsentCharNotContained("Zavírá se...", "OPEN", 'O'); }
  }

  lemma OpenMatchOnStopped()
    ensures !OpenMatch("zastavena", "Zastavena")
  {
    assert !Contains("zastavena", "otevřena") by { AbsentCharNotContained("zastavena", "otevřena", 'o'); }
    assert !Contains("zastavena", "open") by { AbsentCharNotContained("zastavena", "open", 'o'); }
    assert !Contains("zastavena", "otevreno") by { AbsentCharNotContained("zastavena", "otevreno", 'o'); }
    assert !Contains("zastavena", "brána otevřena") by { LongerNotContained("zastavena", "brána otevřena"); }
    assert !Contains("zastavena", "gate open") by { AbsentCharNotContained("zastavena", "gate open", 'g'); }
    assert !Contains("Zastavena", "Brána otevřena") by { LongerNotContained("Zastavena", "Brána otevřena"); }
    assert !Contains("Zastavena", "Gate open") by { AbsentCharNotContained("Zastavena", "Gate open", 'G'); }
    assert !Contains("Zastavena", "OPEN") by { AbsentCharNotContained("Zastavena", "OPEN", 'O'); }
  }

  lemma OpenMatchOnStopMode()
    ensures !OpenMatch("stop režim", "STOP režim")
  {
    assert !Contains("stop režim", "otevřena") by { AbsentCharNotContained("stop režim", "otevřena", 'v'); }
    assert !Contains("stop režim", "open") by { AbsentCharNotContained("stop režim", "open", 'n'); }
    assert !Contains("stop režim", "otevreno") by { AbsentCharNotContained("stop režim", "otevreno", 'v'); }
    assert !Contains("stop režim", "brána otevřena") by { LongerNotContained("stop režim", "brána otevřena"); }
    assert !Contains("stop režim", "gate open") by { AbsentCharNotContained("stop režim", "gate open", 'g'); }
    assert !Contains("STOP režim", "Brána otevřena") by { LongerNotContained("STOP režim", "Brána otevřena"); }
    assert !Contains("STOP režim", "Gate open") by { AbsentCharNotContained("STOP režim", "Gate open", 'G'); }
    assert !Contains("STOP režim", "OPEN") by { AbsentCharNotContained("STOP režim", "OPEN", 'E'); }
  }

  lemma OpenMatchOnUnknown()
    ensures !OpenMatch("neznámý stav", "Neznámý stav")
  {
    assert !Contains("neznámý stav", "otevřena") by { AbsentCharNotContained("neznámý stav", "otevřena", 'o'); }
    assert !Contains("neznámý stav", "open") by { AbsentCharNotContained("neznámý stav", "open", 'o'); }
    assert !Contains("neznámý stav", "otevreno") by { AbsentCharNotContained("neznámý stav", "otevreno", 'o'); }
    assert !Contains("neznámý stav", "brána otevřena") by { LongerNotContained("neznámý stav", "brána otevřena"); }
    assert !Contains("neznámý stav", "gate open") by { AbsentCharNotContained("neznámý stav", "gate open", 'g'); }
    assert !Contains("Neznámý stav", "Brána otevřena") by { LongerNotContained("Neznámý stav", "Brána otevřena"); }
    assert !Contains("Neznámý stav", "Gate open") by { AbsentCharNotContained("Neznámý stav", "Gate open", 'G'); }
    assert !Contains("Neznámý stav", "OPEN") by { AbsentCharNotContained("Neznámý stav", "OPEN", 'O'); }
  }

  lemma ClosedMatchOnClosed()
    ensures ClosedMatch("brána zavřena", "Brána zavřena")
  {
    MatchAtContains("brána zavřena", "zavřena", 6);
  }

  lemma ClosedMatchOnOpen()
    ensures !ClosedMatch("brána otevřena", "Brána otevřena")
  {
    assert !Contains("brána otevřena", "zavřena") by { AbsentCharNotContained("brána otevřena", "zavřena", 'z'); }
    assert !Contains("brána otevřena", "closed") by { AbsentCharNotContained("brána otevřena", "closed", 'c'); }
    assert !Contains("brána otevřena", "zavřeno") by { AbsentCharNotContained("brána otevřena", "zavřeno", 'z'); }
  }

  lemma ClosedMatchOnOpening()
    ensures !ClosedMatch("otevírá se...", "Otevírá se...")
  {
    assert !Contains("otevírá se...", "zavřena") by { AbsentCharNotContained("otevírá se...", "zavřena", 'z'); }
    assert !Contains("otevírá se...", "closed") by { AbsentCharNotContained("otevírá se...", "closed", 'c'); }
    assert !Contains("otevírá se...", "zavřeno") by { AbsentCharNotContained("otevírá se...", "zavřeno", 'z'); }
  }

  lemma ClosedMatchOnClosing()
    ensures !ClosedMatch("zavírá se...", "Zavírá se...")
  {
    assert !Contains("zavírá se...", "zavřena") by { AbsentCharNotContained("zavírá se...", "zavřena", 'ř'); }
    assert !Contains("zavírá se...", "closed") by { AbsentCharNotContained("zavírá se...", "closed", 'c'); }
    assert !Contains("zavírá se...", "zavřeno") by { AbsentCharNotContained("zavírá se...", "zavřeno", 'ř'); }
  }

  lemma ClosedMatchOnStopped()
    ensures !ClosedMatch("zastavena", "Zastavena")
  {
    assert !Contains("zastavena", "zavřena") by { AbsentCharNotContained("zastavena", "zavřena", 'ř'); }
    assert !Contains("zastavena", "closed") by { AbsentCharNotContained("zastavena", "closed", 'c'); }
    assert !Contains("zastavena", "zavřeno") by { AbsentCharNotContained("zastavena", "zavřeno", 'ř'); }
  }

  lemma ClosedMatchOnStopMode()
    ensures !ClosedMatch("stop režim", "STOP režim")
  {
    assert !Contains("stop režim", "zavřena") by { AbsentCharNotContained("stop režim", "zavřena", 'z'); }
    assert !Contains("stop režim", "closed") by { AbsentCharNotContained("stop režim", "closed", 'c'); }
    assert !Contains("stop režim", "zavřeno") by { AbsentCharNotContained("stop režim", "zavřeno", 'z'); }
  }

  lemma ClosedMatchOnUnknown()
    ensures !ClosedMatch("neznámý stav", "Neznámý stav")
  {
    assert !Contains("neznámý stav", "zavřena") by { AbsentCharNotContained("neznámý stav", "zavřena", 'ř'); }
    assert !Contains("neznámý stav", "closed") by { AbsentCharNotContained("neznámý stav", "closed", 'c'); }
    assert !Contains("neznámý stav", "zavřeno") by { AbsentCharNotContained("neznámý stav", "zavřeno", 'ř'); }
  }

  lemma DashboardClosingMatchOnClosed()
    ensures !DashboardClosingMatch("brána zavřena", "Brána zavřena")
  {
    assert !Contains("brána zavřena", "zavírání") by { AbsentCharNotContained("brána zavřena", "zavírání", 'í'); }
    assert !Contains("brána zavřena", "closing") by { AbsentCharNotContained("brána zavřena", "closing", 'c'); }
    assert !Contains("brána zavřena", "zavirani") by { AbsentCharNotContained("brána zavřena", "zavirani", 'i'); }
    assert !Contains("Brána zavřena", "Zavírá se...") by { AbsentCharNotContained("Brána zavřena", "Zavírá se...", 'Z'); }
  }

  lemma DashboardClosingMatchOnOpen()
    ensures !DashboardClosingMatch("brána otevřena", "Brána otevřena")
  {
    assert !Contains("brána otevřena", "zavírání") by { AbsentCharNotContained("brána otevřena", "zavírání", 'z'); }
    assert !Contains("brána otevřena", "closing") by { AbsentCharNotContained("brána otevřena", "closing", 'c'); }
    assert !Contains("brána otevřena", "zavirani") by { AbsentCharNotContained("brána otevřena", "zavirani", 'z'); }
    assert !Contains("Brána otevřena", "Zavírá se...") by { AbsentCharNotContained("Brána otevřena", "Zavírá se...", 'Z'); }
  }

  lemma DashboardClosingMatchOnOpening()
    ensures !DashboardClosingMatch("otevírá se...", "Otevírá se...")
  {
    assert !Contains("otevírá se...", "zavírání") by { AbsentCharNotContained("otevírá se...", "zavírání", 'z'); }
    assert !Contains("otevírá se...", "closing") by { AbsentCharNotContained("otevírá se...", "closing", 'c'); }
    assert !Contains("otevírá se...", "zavirani") by { AbsentCharNotContained("otevírá se...", "zavirani", 'z'); }
    assert !Contains("Otevírá se...", "Zavírá se...") by { AbsentCharNotContained("Otevírá se...", "Zavírá se...", 'Z'); }
  }

  lemma DashboardClosingMatchOnClosing()
    ensures DashboardClosingMatch("zavírá se...", "Zavírá se...")
  {
    MatchAtContains("Zavírá se...", "Zavírá se...", 0);
  }

  lemma DashboardClosingMatchOnStopped()
    ensures !DashboardClosingMatch("zastavena", "Zastavena")
  {
    assert !Contains("zastavena", "zavírání") by { AbsentCharNotContained("zastavena", "zavírání", 'í'); }
    assert !Contains("zastavena", "closing") by { AbsentCharNotContained("zastavena", "closing", 'c'); }
    assert !Contains("zastavena", "zavirani") by { AbsentCharNotContained("zastavena", "zavirani", 'i'); }
    assert !Contains("Zastavena", "Zavírá se...") by { LongerNotContained("Zastavena", "Zavírá se..."); }
  }

  lemma DashboardClosingMatchOnStopMode()
    ensures !DashboardClosingMatch("stop režim", "STOP režim")
  {
    assert !Contains("stop režim", "zavírání") by { AbsentCharNotContained("stop režim", "zavírání", 'z'); }
    assert !Contains("stop režim", "closing") by { AbsentCharNotContained("stop režim", "closing", 'c'); }
    assert !Contains("stop režim", "zavirani") by { AbsentCharNotContained("stop režim", "zavirani", 'z'); }
    assert !Contains("STOP režim", "Zavírá se...") by { LongerNotContained("STOP režim", "Zavírá se..."); }
  }

  lemma DashboardClosingMatchOnUnknown()
    ensures !DashboardClosingMatch("neznámý stav", "Neznámý stav")
  {
    assert !Contains("neznámý stav", "zavírání") by { AbsentCharNotContained("neznámý stav", "zavírání", 'í'); }
    assert !Contains("neznámý stav", "closing") by { AbsentCharNotContained("neznámý stav", "closing", 'c'); }
    assert !Contains("neznámý stav", "zavirani") by { AbsentCharNotContained("neznámý stav", "zavirani", 'i'); }
    assert !Contains("Neznámý stav", "Zavírá se...") by { AbsentCharNotContained("Neznámý stav", "Zavírá se...", 'Z'); }
  }

  lemma HookClosingMatchOnClosed()
    ensures !HookClosingMatch("brána zavřena", "Brána zavřena")
  {
    assert !Contains("brána zavřena", "zavírání") by { AbsentCharNotContained("brána zavřena", "zavírání", 'í'); }
    assert !Contains("brána zavřena", "zavirani") by { AbsentCharNotContained("brána zavřena", "zavirani", 'i'); }
    assert !Contains("brána zavřena", "zavirá") by { AbsentCharNotContained("brána zavřena", "zavirá", 'i'); }
    assert !Contains("brána zavřena", "zavírá se") by { AbsentCharNotContained("brána zavřena", "zavírá se", 'í'); }
    assert !Contains("brána zavřena", "zavira se") by { AbsentCharNotContained("brána zavřena", "zavira se", 'i'); }
    assert !Contains("brána zavřena", "closing") by { AbsentCharNotContained("brána zavřena", "closing", 'c'); }
    assert !Contains("brána zavřena", "Zavírá se") by { AbsentCharNotContained("brána zavřena", "Zavírá se", 'Z'); }
  }

  lemma HookClosingMatchOnOpen()
    ensures !HookClosingMatch("brána otevřena", "Brána otevřena")
  {
    assert !Contains("brána otevřena", "zavírání") by { AbsentCharNotContained("brána otevřena", "zavírání", 'z'); }
    assert !Contains("brána otevřena", "zavirani") by { AbsentCharNotContained("brána otevřena", "zavirani", 'z'); }
    assert !Contains("brána otevřena", "zavirá") by { AbsentCharNotContained("brána otevřena", "zavirá", 'z'); }
    assert !Contains("brána otevřena", "zavírá se") by { AbsentCharNotContained("brána otevřena", "zavírá se", 'z'); }
    assert !Contains("brána otevřena", "zavira se") by { AbsentCharNotContained("brána otevřena", "zavira se", 'z'); }
    assert !Contains("brána otevřena", "closing") by { AbsentCharNotContained("brána otevřena", "closing", 'c'); }
    assert !Contains("brána otevřena", "Zavírá se") by { AbsentCharNotContained("brána otevřena", "Zavírá se", 'Z'); }
  }

  lemma HookClosingMatchOnOpening()
    ensures !HookClosingMatch("otevírá se...", "Otevírá se...")
  {
    assert !Contains("otevírá se...", "zavírání") by { AbsentCharNotContained("otevírá se...", "zavírání", 'z'); }
    assert !Contains("otevírá se...", "zavirani") by { AbsentCharNotContained("otevírá se...", "zavirani", 'z'); }
    assert !Contains("otevírá se...", "zavirá") by { AbsentCharNotContained("otevírá se...", "zavirá", 'z'); }
    assert !Contains("otevírá se...", "zavírá se") by { AbsentCharNotContained("otevírá se...", "zavírá se", 'z'); }
    assert !Contains("otevírá se...", "zavira se") by { AbsentCharNotContained("otevírá se...", "zavira se", 'z'); }
    assert !Contains("otevírá se...", "closing") by { AbsentCharNotContained("otevírá se...", "closing", 'c'); }
    assert !Contains("otevírá se...", "Zavírá se") by { AbsentCharNotContained("otevírá se...", "Zavírá se", 'Z'); }
  }

  lemma HookClosingMatchOnClosing()
    ensures HookClosingMatch("zavírá se...", "Zavírá se...")
  {
    MatchAtContains("zavírá se...", "zavírá se", 0);
  }

  lemma HookClosingMatchOnStopped()
    ensures !HookClosingMatch("zastavena", "Zastavena")
  {
    assert !Contains("zastavena", "zavírání") by { AbsentCharNotContained("zastavena", "zavírání", 'í'); }
    assert !Contains("zastavena", "zavirani") by { AbsentCharNotContained("zastavena", "zavirani", 'i'); }
    assert !Contains("zastavena", "zavirá") by { AbsentCharNotContained("zastavena", "zavirá", 'i'); }
    assert !Contains("zastavena", "zavírá se") by { AbsentCharNotContained("zastavena", "zavírá se", 'í'); }
    assert !Contains("zastavena", "zavira se") by { AbsentCharNotContained("zastavena", "zavira se", 'i'); }
    assert !Contains("zastavena", "closing") by { AbsentCharNotContained("zastavena", "closing", 'c'); }
    assert !Contains("zastavena", "Zavírá se") by { AbsentCharNotContained("zastavena", "Zavírá se", 'Z'); }
  }

  lemma HookClosingMatchOnStopMode()
    ensures !HookClosingMatch("stop režim", "STOP režim")
  {
    assert !Contains("stop režim", "zavírání") by { AbsentCharNotContained("stop režim", "zavírání", 'z'); }
    assert !Contains("stop režim", "zavirani") by { AbsentCharNotContained("stop režim", "zavirani", 'z'); }
    assert !Contains("stop režim", "zavirá") by { AbsentCharNotContained("stop režim", "zavirá", 'z'); }
    assert !Contains("stop režim", "zavírá se") by { AbsentCharNotContained("stop režim", "zavírá se", 'z'); }
    assert !Contains("stop režim", "zavira se") by { AbsentCharNotContained("stop režim", "zavira se", 'z'); }
    assert !Contains("stop režim", "closing") by { AbsentCharNotContained("stop režim", "closing", 'c'); }
    assert !Contains("stop režim", "Zavírá se") by { AbsentCharNotContained("stop režim", "Zavírá se", 'Z'); }
  }

  lemma HookClosingMatchOnUnknown()
    ensures !HookClosingMatch("neznámý stav", "Neznámý stav")
  {
    assert !Contains("neznámý stav", "zavírání") by { AbsentCharNotContained("neznámý stav", "zavírání", 'í'); }
    assert !Contains("neznámý stav", "zavirani") by { AbsentCharNotContained("neznámý stav", "zavirani", 'i'); }
    assert !Contains("neznámý stav", "zavirá") by { AbsentCharNotContained("neznámý stav", "zavirá", 'i'); }
    assert !Contains("neznámý stav", "zavírá se") by { AbsentCharNotContained("neznámý stav", "zavírá se", 'í'); }
    assert !Contains("neznámý stav", "zavira se") by { AbsentCharNotContained("neznámý stav", "zavira se", 'i'); }
    assert !Contains("neznámý stav", "closing") by { AbsentCharNotContained("neznámý stav", "closing", 'c'); }
    assert !Contains("neznámý stav", "Zavírá se") by { AbsentCharNotContained("neznámý stav", "Zavírá se", 'Z'); }
  }

  lemma CardStopMatchOnClosed()
    ensures CardStopMatch("brána zavřena", "Brána zavřena")
  {
    MatchAtContains("brána zavřena", "zavřena", 6);
  }

  lemma CardStopMatchOnOpen()
    ensures !CardStopMatch("brána otevřena", "Brána otevřena")
  {
    assert !Contains("brána otevřena", "zavřena") by { AbsentCharNotContained("brána otevřena", "zavřena", 'z'); }
    assert !Contains("brána otevřena", "closed") by { AbsentCharNotContained("brána otevřena", "closed", 'c'); }
    assert !Contains("brána otevřena", "zavřeno") by { AbsentCharNotContained("brána otevřena", "zavřeno", 'z'); }
    assert !Contains("brána otevřena", "zavírání") by { AbsentCharNotContained("brána otevřena", "zavírání", 'z'); }
  }

  lemma CardStopMatchOnOpening()
    ensures !CardStopMatch("otevírá se...", "Otevírá se...")
  {
    assert !Contains("otevírá se...", "zavřena") by { AbsentCharNotContained("otevírá se...", "zavřena", 'z'); }
    assert !Contains("otevírá se...", "closed") by { AbsentCharNotContained("otevírá se...", "closed", 'c'); }
    assert !Contains("otevírá se...", "zavřeno") by { AbsentCharNotContained("otevírá se...", "zavřeno", 'z'); }
    assert !Contains("otevírá se...", "zavírání") by { AbsentCharNotContained("otevírá se...", "zavírání", 'z'); }
  }

  lemma CardStopMatchOnClosing()
    ensures !CardStopMatch("zavírá se...", "Zavírá se...")
  {
    assert !Contains("zavírá se...", "zavřena") by { AbsentCharNotContained("zavírá se...", "zavřena", 'ř'); }
    assert !Contains("zavírá se...", "closed") by { AbsentCharNotContained("zavírá se...", "closed", 'c'); }
    assert !Contains("zavírá se...", "zavřeno") by { AbsentCharNotContained("zavírá se...", "zavřeno", 'ř'); }
    assert !Contains("zavírá se...", "zavírání") by { AbsentCharNotContained("zavírá se...", "zavírání", 'n'); }
  }

  lemma CardStopMatchOnStopped()
    ensures !CardStopMatch("zastavena", "Zastavena")
  {
    assert !Contains("zastavena", "zavřena") by { AbsentCharNotContained("zastavena", "zavřena", 'ř'); }
    assert !Contains("zastavena", "closed") by { AbsentCharNotContained("zastavena", "closed", 'c'); }
    assert !Contains("zastavena", "zavřeno") by { AbsentCharNotContained("zastavena", "zavřeno", 'ř'); }
    assert !Contains("zastavena", "zavírání") by { AbsentCharNotContained("zastavena", "zavírání", 'í'); }
  }

  lemma CardStopMatchOnStopMode()
    ensures !CardStopMatch("stop režim", "STOP režim")
  {
    assert !Contains("stop režim", "zavřena") by { AbsentCharNotContained("stop režim", "zavřena", 'z'); }
    assert !Contains("stop režim", "closed") by { AbsentCharNotContained("stop režim", "closed", 'c'); }
    assert !Contains("stop režim", "zavřeno") by { AbsentCharNotContained("stop režim", "zavřeno", 'z'); }
    assert !Contains("stop režim", "zavírání") by { AbsentCharNotContained("stop režim", "zavírání", 'z'); }
  }

  lemma CardStopMatchOnUnknown()
    ensures !CardStopMatch("neznámý stav", "Neznámý stav")
  {
    assert !Contains("neznámý stav", "zavřena") by { AbsentCharNotContained("neznámý stav", "zavřena", 'ř'); }
    assert !Contains("neznámý stav", "closed") by { AbsentCharNotContained("neznámý stav", "closed", 'c'); }
    assert !Contains("neznámý stav", "zavřeno") by { AbsentCharNotContained("neznámý stav", "zavřeno", 'ř'); }
    assert !Contains("neznámý stav", "zavírání") by { AbsentCharNotContained("neznámý stav", "zavírání", 'í'); }
  }

  lemma OpeningLowerMatchOnClosed()
    ensures !OpeningLowerMatch("brána zavřena")
  {
    assert !Contains("brána zavřena", "otevírá se") by { AbsentCharNotContained("brána zavřena", "otevírá se", 'o'); }
    assert !Contains("brána zavřena", "opening") by { AbsentCharNotContained("brána zavřena", "opening", 'o'); }
    assert !Contains("brána zavřena", "otevirá se") by { AbsentCharNotContained("brána zavřena", "otevirá se", 'o'); }
    assert !Contains("brána zavřena", "otevirá") by { AbsentCharNotContained("brána zavřena", "otevirá", 'o'); }
    assert !Contains("brána zavřena", "otevreni") by { AbsentCharNotContained("brána zavřena", "otevreni", 'o'); }
  }

  lemma OpeningLowerMatchOnOpen()
    ensures !OpeningLowerMatch("brána otevřena")
  {
    assert !Contains("brána otevřena", "otevírá se") by { AbsentCharNotContained("brána otevřena", "otevírá se", 'í'); }
    assert !Contains("brána otevřena", "opening") by { AbsentCharNotContained("brána otevřena", "opening", 'p'); }
    assert !Contains("brána otevřena", "otevirá se") by { AbsentCharNotContained("brána otevřena", "otevirá se", 'i'); }
    assert !Contains("brána otevřena", "otevirá") by { AbsentCharNotContained("brána otevřena", "otevirá", 'i'); }
    assert !Contains("brána otevřena", "otevreni") by { AbsentCharNotContained("brána otevřena", "otevreni", 'i'); }
  }

  lemma OpeningLowerMatchOnOpening()
    ensures OpeningLowerMatch("otevírá se...")
  {
    MatchAtContains("otevírá se...", "otevírá se", 0);
  }

  lemma OpeningLowerMatchOnClosing()
    ensures !OpeningLowerMatch("zavírá se...")
  {
    assert !Contains("zavírá se...", "otevírá se") by { AbsentCharNotContained("zavírá se...", "otevírá se", 'o'); }
    assert !Contains("zavírá se...", "opening") by { AbsentCharNotContained("zavírá se...", "opening", 'o'); }
    assert !Contains("zavírá se...", "otevirá se") by { AbsentCharNotContained("zavírá se...", "otevirá se", 'o'); }
    assert !Contains("zavírá se...", "otevirá") by { AbsentCharNotContained("zavírá se...", "otevirá", 'o'); }
    assert !Contains("zavírá se...", "otevreni") by { AbsentCharNotContained("zavírá se...", "otevreni", 'o'); }
  }

  lemma OpeningLowerMatchOnStopped()
    ensures !OpeningLowerMatch("zastavena")
  {
    assert !Contains("zastavena", "otevírá se") by { LongerNotContained("zastavena", "otevírá se"); }
    assert !Contains("zastavena", "opening") by { AbsentCharNotContained("zastavena", "opening", 'o'); }
    assert !Contains("zastavena", "otevirá se") by { LongerNotContained("zastavena", "otevirá se"); }
    assert !Contains("zastavena", "otevirá") by { AbsentCharNotContained("zastavena", "otevirá", 'o'); }
    assert !Contains("zastavena", "otevreni") by { AbsentCharNotContained("zastavena", "otevreni", 'o'); }
  }

  lemma OpeningLowerMatchOnStopMode()
    ensures !OpeningLowerMatch("stop režim")
  {
    assert !Contains("stop režim", "otevírá se") by { AbsentCharNotContained("stop režim", "otevírá se", 'v'); }
    assert !Contains("stop režim", "opening") by { AbsentCharNotContained("stop režim", "opening", 'n'); }
    assert !Contains("stop režim", "otevirá se") by { AbsentCharNotContained("stop režim", "otevirá se", 'v'); }
    assert !Contains("stop režim", "otevirá") by { AbsentCharNotContained("stop režim", "otevirá", 'v'); }
    assert !Contains("stop režim", "otevreni") by { AbsentCharNotContained("stop režim", "otevreni", 'v'); }
  }

  lemma OpeningLowerMatchOnUnknown()
    ensures !OpeningLowerMatch("neznámý stav")
  {
    assert !Contains("neznámý stav", "otevírá se") by { AbsentCharNotContained("neznámý stav", "otevírá se", 'o'); }
    assert !Contains("neznámý stav", "opening") by { AbsentCharNotContained("neznámý stav", "opening", 'o'); }
    assert !Contains("neznámý stav", "otevirá se") by { AbsentCharNotContained("neznámý stav", "otevirá se", 'o'); }
    assert !Contains("neznámý stav", "otevirá") by { AbsentCharNotContained("neznámý stav", "otevirá", 'o'); }
    assert !Contains("neznámý stav", "otevreni") by { AbsentCharNotContained("neznámý stav", "otevreni", 'o'); }
  }

  lemma OpeningRawMatchOnClosed()
    ensures !OpeningRawMatch("Brána zavřena")
  {
    assert !Contains("Brána zavřena", "Otevírá se...") by { AbsentCharNotContained("Brána zavřena", "Otevírá se...", 'O'); }
    assert !Contains("Brána zavřena", "Opening...") by { AbsentCharNotContained("Brána zavřena", "Opening...", 'O'); }
    assert !Contains("Brána zavřena", "OTEVIRA SE") by { AbsentCharNotContained("Brána zavřena", "OTEVIRA SE", 'O'); }
    assert !Contains("Brána zavřena", "Otevírá se") by { AbsentCharNotContained("Brána zavřena", "Otevírá se", 'O'); }
    assert !Contains("Brána zavřena", "otevírá se") by { AbsentCharNotContained("Brána zavřena", "otevírá se", 'o'); }
    assert !Contains("Brána zavřena", "OTEVÍRÁ SE") by { AbsentCharNotContained("Brána zavřena", "OTEVÍRÁ SE", 'O'); }
  }

  lemma OpeningRawMatchOnOpen()
    ensures !OpeningRawMatch("Brána otevřena")
  {
    assert !Contains("Brána otevřena", "Otevírá se...") by { AbsentCharNotContained("Brána otevřena", "Otevírá se...", 'O'); }
    assert !Contains("Brána otevřena", "Opening...") by { AbsentCharNotContained("Brána otevřena", "Opening...", 'O'); }
    assert !Contains("Brána otevřena", "OTEVIRA SE") by { AbsentCharNotContained("Brána otevřena", "OTEVIRA SE", 'O'); }
    assert !Contains("Brána otevřena", "Otevírá se") by { AbsentCharNotContained("Brána otevřena", "Otevírá se", 'O'); }
    assert !Contains("Brána otevřena", "otevírá se") by { AbsentCharNotContained("Brána otevřena", "otevírá se", 'í'); }
    assert !Contains("Brána otevřena", "OTEVÍRÁ SE") by { AbsentCharNotContained("Brána otevřena", "OTEVÍRÁ SE", 'O'); }
  }

  lemma OpeningRawMatchOnOpening()
    ensures OpeningRawMatch("Otevírá se...")
  {
    MatchAtContains("Otevírá se...", "Otevírá se...", 0);
  }

  lemma OpeningRawMatchOnClosing()
    ensures !OpeningRawMatch("Zavírá se...")
  {
    assert !Contains("Zavírá se...", "Otevírá se...") by { LongerNotContained("Zavírá se...", "Otevírá se..."); }
    assert !Contains("Zavírá se...", "Opening...") by { AbsentCharNotContained("Zavírá se...", "Opening...", 'O'); }
    assert !Contains("Zavírá se...", "OTEVIRA SE") by { AbsentCharNotContained("Zavírá se...", "OTEVIRA SE", 'O'); }
    assert !Contains("Zavírá se...", "Otevírá se") by { AbsentCharNotContained("Zavírá se...", "Otevírá se", 'O'); }
    assert !Contains("Zavírá se...", "otevírá se") by { AbsentCharNotContained("Zavírá se...", "otevírá se", 'o'); }
    assert !Contains("Zavírá se...", "OTEVÍRÁ SE") by { AbsentCharNotContained("Zavírá se...", "OTEVÍRÁ SE", 'O'); }
  }

  lemma OpeningRawMatchOnStopped()
    ensures !OpeningRawMatch("Zastavena")
  {
    assert !Contains("Zastavena", "Otevírá se...") by { LongerNotContained("Zastavena", "Otevírá se..."); }
    assert !Contains("Zastavena", "Opening...") by { LongerNotContained("Zastavena", "Opening..."); }
    assert !Contains("Zastavena", "OTEVIRA SE") by { LongerNotContained("Zastavena", "OTEVIRA SE"); }
    assert !Contains("Zastavena", "Otevírá se") by { LongerNotContained("Zastavena", "Otevírá se"); }
    assert !Contains("Zastavena", "otevírá se") by { LongerNotContained("Zastavena", "otevírá se"); }
    assert !Contains("Zastavena", "OTEVÍRÁ SE") by { LongerNotContained("Zastavena", "OTEVÍRÁ SE"); }
  }

  lemma OpeningRawMatchOnStopMode()
    ensures !OpeningRawMatch("STOP režim")
  {
    assert !Contains("STOP režim", "Otevírá se...") by { LongerNotContained("STOP režim", "Otevírá se..."); }
    assert !Contains("STOP režim", "Opening...") by { AbsentCharNotContained("STOP režim", "Opening...", 'p'); }
    assert !Contains("STOP režim", "OTEVIRA SE") by { AbsentCharNotContained("STOP režim", "OTEVIRA SE", 'E'); }
    assert !Contains("STOP režim", "Otevírá se") by { AbsentCharNotContained("STOP režim", "Otevírá se", 't'); }
    assert !Contains("STOP režim", "otevírá se") by { AbsentCharNotContained("STOP režim", "otevírá se", 'o'); }
    assert !Contains("STOP režim", "OTEVÍRÁ SE") by { AbsentCharNotContained("STOP režim", "OTEVÍRÁ SE", 'E'); }
  }

  lemma OpeningRawMatchOnUnknown()
    ensures !OpeningRawMatch("Neznámý stav")
  {
    assert !Contains("Neznámý stav", "Otevírá se...") by { LongerNotContained("Neznámý stav", "Otevírá se..."); }
    assert !Contains("Neznámý stav", "Opening...") by { AbsentCharNotContained("Neznámý stav", "Opening...", 'O'); }
    assert !Contains("Neznámý stav", "OTEVIRA SE") by { AbsentCharNotContained("Neznámý stav", "OTEVIRA SE", 'O'); }
    assert !Contains("Neznámý stav", "Otevírá se") by { AbsentCharNotContained("Neznámý stav", "Otevírá se", 'O'); }
    assert !Contains("Neznámý stav", "otevírá se") by { AbsentCharNotContained("Neznámý stav", "otevírá se", 'o'); }
    assert !Contains("Neznámý stav", "OTEVÍRÁ SE") by { AbsentCharNotContained("Neznámý stav", "OTEVÍRÁ SE", 'O'); }
  }

  lemma CommandClosedMatchOnClosed()
    ensures CommandClosedMatch("brána zavřena", "Brána zavřena")
  {
    MatchAtContains("brána zavřena", "zavřena", 6);
  }

  lemma CommandClosedMatchOnOpen()
    ensures !CommandClosedMatch("brána otevřena", "Brána otevřena")
  {
    assert !Contains("brána otevřena", "zavřena") by { AbsentCharNotContained("brána otevřena", "zavřena", 'z'); }
    assert !Contains("brána otevřena", "closed") by { AbsentCharNotContained("brána otevřena", "closed", 'c'); }
  }

  lemma CommandClosedMatchOnOpening()
    ensures !CommandClosedMatch("otevírá se...", "Otevírá se...")
  {
    assert !Contains("otevírá se...", "zavřena") by { AbsentCharNotContained("otevírá se...", "zavřena", 'z'); }
    assert !Contains("otevírá se...", "closed") by { AbsentCharNotContained("otevírá se...", "closed", 'c'); }
  }

  lemma CommandClosedMatchOnClosing()
    ensures !CommandClosedMatch("zavírá se...", "Zavírá se...")
  {
    assert !Contains("zavírá se...", "zavřena") by { AbsentCharNotContained("zavírá se...", "zavřena", 'ř'); }
    assert !Contains("zavírá se...", "closed") by { AbsentCharNotContained("zavírá se...", "closed", 'c'); }
  }

  lemma CommandClosedMatchOnStopped()
    ensures !CommandClosedMatch("zastavena", "Zastavena")
  {
    assert !Contains("zastavena", "zavřena") by { AbsentCharNotContained("zastavena", "zavřena", 'ř'); }
    assert !Contains("zastavena", "closed") by { AbsentCharNotContained("zastavena", "closed", 'c'); }
  }

  lemma CommandClosedMatchOnStopMode()
    ensures !CommandClosedMatch("stop režim", "STOP režim")
  {
    assert !Contains("stop režim", "zavřena") by { AbsentCharNotContained("stop režim", "zavřena", 'z'); }
    assert !Contains("stop režim", "closed") by { AbsentCharNotContained("stop režim", "closed", 'c'); }
  }

  lemma CommandClosedMatchOnUnknown()
    ensures !CommandClosedMatch("neznámý stav", "Neznámý stav")
  {
    assert !Contains("neznámý stav", "zavřena") by { AbsentCharNotContained("neznámý stav", "zavřena", 'ř'); }
    assert !Contains("neznámý stav", "closed") by { AbsentCharNotContained("neznámý stav", "closed", 'c'); }
  }

  lemma OpeningMatchOnClosed()
    ensures !OpeningMatch("brána zavřena", "Brána zavřena")
  {
    OpeningLowerMatchOnClosed();
    OpeningRawMatchOnClosed();
  }

  lemma OpeningMatchOnOpen()
    ensures !OpeningMatch("brána otevřena", "Brána otevřena")
  {
    OpeningLowerMatchOnOpen();
    OpeningRawMatchOnOpen();
  }

  lemma OpeningMatchOnOpening()
    ensures OpeningMatch("otevírá se...", "Otevírá se...")
  {
    OpeningLowerMatchOnOpening();
    OpeningRawMatchOnOpening();
  }

  lemma OpeningMatchOnClosing()
    ensures !OpeningMatch("zavírá se...", "Zavírá se...")
  {
    OpeningLowerMatchOnClosing();
    OpeningRawMatchOnClosing();
  }

  lemma OpeningMatchOnStopped()
    ensures !OpeningMatch("zastavena", "Zastavena")
  {
    OpeningLowerMatchOnStopped();
    OpeningRawMatchOnStopped();
  }

  lemma OpeningMatchOnStopMode()
    ensures !OpeningMatch("stop režim", "STOP režim")
  {
    OpeningLowerMatchOnStopMode();
    OpeningRawMatchOnStopMode();
  }

  lemma OpeningMatchOnUnknown()
    ensures !OpeningMatch("neznámý stav", "Neznámý stav")
  {
    OpeningLowerMatchOnUnknown();
    OpeningRawMatchOnUnknown();
  }

  lemma ToneOnClosed()
    ensures ToneOf("brána zavřena") == Red
  {
    assert !Contains("brána zavřena", "otevřena") by { AbsentCharNotContained("brána zavřena", "otevřena", 'o'); }
    assert !Contains("brána zavřena", "open") by { AbsentCharNotContained("brána zavřena", "open", 'o'); }
    MatchAtContains("brána zavřena", "zavřena", 6);
  }

  lemma ToneOnOpen()
    ensures ToneOf("brána otevřena") == Green
  {
    MatchAtContains("brána otevřena", "otevřena", 6);
  }

  lemma ToneOnOpening()
    ensures ToneOf("otevírá se...") == Yellow
  {
    assert !Contains("otevírá se...", "otevřena") by { AbsentCharNotContained("otevírá se...", "otevřena", 'ř'); }
    assert !Contains("otevírá se...", "open") by { AbsentCharNotContained("otevírá se...", "open", 'p'); }
    assert !Contains("otevírá se...", "zavřena") by { AbsentCharNotContained("otevírá se...", "zavřena", 'z'); }
    assert !Contains("otevírá se...", "closed") by { AbsentCharNotContained("otevírá se...", "closed", 'c'); }
    MatchAtContains("otevírá se...", "otevírá", 0);
  }

  lemma ToneOnClosing()
    ensures ToneOf("zavírá se...") == Orange
  {
    assert !Contains("zavírá se...", "otevřena") by { AbsentCharNotContained("zavírá se...", "otevřena", 'o'); }
    assert !Contains("zavírá se...", "open") by { AbsentCharNotContained("zavírá se...", "open", 'o'); }
    assert !Contains("zavírá se...", "zavřena") by { AbsentCharNotContained("zavírá se...", "zavřena", 'ř'); }
    assert !Contains("zavírá se...", "closed") by { AbsentCharNotContained("zavírá se...", "closed", 'c'); }
    assert !Contains("zavírá se...", "otevírá") by { AbsentCharNotContained("zavírá se...", "otevírá", 'o'); }
    assert !Contains("zavírá se...", "opening") by { AbsentCharNotContained("zavírá se...", "opening", 'o'); }
    MatchAtContains("zavírá se...", "zavírá", 0);
  }

  lemma ToneOnStopped()
    ensures ToneOf("zastavena") == Gray
  {
    assert !Contains("zastavena", "otevřena") by { AbsentCharNotContained("zastavena", "otevřena", 'o'); }
    assert !Contains("zastavena", "open") by { AbsentCharNotContained("zastavena", "open", 'o'); }
    assert !Contains("zastavena", "zavřena") by { AbsentCharNotContained("zastavena", "zavřena", 'ř'); }
    assert !Contains("zastavena", "closed") by { AbsentCharNotContained("zastavena", "closed", 'c'); }
    assert !Contains("zastavena", "otevírá") by { AbsentCharNotContained("zastavena", "otevírá", 'o'); }
    assert !Contains("zastavena", "opening") by { AbsentCharNotContained("zastavena", "opening", 'o'); }
    assert !Contains("zastavena", "zavírá") by { AbsentCharNotContained("zastavena", "zavírá", 'í'); }
    assert !Contains("zastavena", "closing") by { AbsentCharNotContained("zastavena", "closing", 'c'); }
  }

  lemma ToneOnStopMode()
    ensures ToneOf("stop režim") == Gray
  {
    assert !Contains("stop režim", "otevřena") by { AbsentCharNotContained("stop režim", "otevřena", 'v'); }
    assert !Contains("stop režim", "open") by { AbsentCharNotContained("stop režim", "open", 'n'); }
    assert !Contains("stop režim", "zavřena") by { AbsentCharNotContained("stop režim", "zavřena", 'z'); }
    assert !Contains("stop režim", "closed") by { AbsentCharNotContained("stop režim", "closed", 'c'); }
    assert !Contains("stop režim", "otevírá") by { AbsentCharNotContained("stop režim", "otevírá", 'v'); }
    assert !Contains("stop režim", "opening") by { AbsentCharNotContained("stop režim", "opening", 'n'); }
    assert !Contains("stop režim", "zavírá") by { AbsentCharNotContained("stop režim", "zavírá", 'z'); }
    assert !Contains("stop režim", "closing") by { AbsentCharNotContained("stop režim", "closing", 'c'); }
  }

  lemma ToneOnUnknown()
    ensures ToneOf("neznámý stav") == Gray
  {
    assert !Contains("neznámý stav", "otevřena") by { AbsentCharNotContained("neznámý stav", "otevřena", 'o'); }
    assert !Contains("neznámý stav", "open") by { AbsentCharNotContained("neznámý stav", "open", 'o'); }
    assert !Contains("neznámý stav", "zavřena") by { AbsentCharNotContained("neznámý stav", "zavřena", 'ř'); }
    assert !Contains("neznámý stav", "closed") by { AbsentCharNotContained("neznámý stav", "closed", 'c'); }
    assert !Contains("neznámý stav", "otevírá") by { AbsentCharNotContained("neznámý stav", "otevírá", 'o'); }
    assert !Contains("neznámý stav", "opening") by { AbsentCharNotContained("neznámý stav", "opening", 'o'); }
    assert !Contains("neznámý stav", "zavírá") by { AbsentCharNotContained("neznámý stav", "zavírá", 'í'); }
    assert !Contains("neznámý stav", "closing") by { AbsentCharNotContained("neznámý stav", "closing", 'c'); }
  }
}
