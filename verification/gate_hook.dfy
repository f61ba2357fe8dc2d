/** The gate-logic hook's own pieces beside the shared timer: its settings
    with their fallbacks, its gate command with a local role check, and the
    retry flag it clears when the gate no longer reads closed. */
module HookLogic {
  import opened Wrappers
  import opened StatusParser
  import opened GateTests
  import opened GateSignals
  import opened GateAutomaton

  /** The three settings as stored, each possibly missing. */
  datatype StoredSettings = StoredSettings(autoClose: Option<int>, retry: Option<int>, openCheck: Option<int>)

  /** The hook's auto-close limit (s), retry limit and open-check limit (s). */
  datatype HookSettings = HookSettings(autoCloseLimit: int, retryLimit: int, openCheckLimit: int)

  const HookDefaults := HookSettings(250, 3, 10)

  /** Loading saved settings: without any the hook keeps what it has; with
      some, each missing or zero value falls back to its default. */
  function LoadHookSettings(saved: Option<StoredSettings>, current: HookSettings): HookSettings {
    match saved
    case None => current
    case Some(s) => HookSettings(OrDefault(s.autoClose, 250), OrDefault(s.retry, 3), OrDefault(s.openCheck, 10))
  }

  /** Every setting the hook loads is non-zero: a stored non-zero value is
      taken as it is and anything else gives 250, 3 or 10. */
  lemma HookSettingsFallBack(saved: Option<StoredSettings>)
    ensures var h := LoadHookSettings(saved, HookDefaults);
      h.autoCloseLimit != 0 && h.retryLimit != 0 && h.openCheckLimit != 0
    ensures saved.Some? && saved.value.autoClose.Some? && saved.value.autoClose.value != 0
        ==> LoadHookSettings(saved, HookDefaults).autoCloseLimit == saved.value.autoClose.value
    ensures (saved.None? || saved.value.autoClose.None? || saved.value.autoClose.value == 0)
        ==> LoadHookSettings(saved, HookDefaults).autoCloseLimit == 250
    ensures (saved.None? || saved.value.retry.None? || saved.value.retry.value == 0)
        ==> LoadHookSettings(saved, HookDefaults).retryLimit == 3
    ensures (saved.None? || saved.value.openCheck.None? || saved.value.openCheck.value == 0)
        ==> LoadHookSettings(saved, HookDefaults).openCheckLimit == 10
  {
  }

  // -------------------------------------------------------------- command

  /** The hook's own role check: admins and users may drive the gate. */
  predicate HookCanControlGate(role: string) {
    role == "admin" || role == "user"
  }

  const NoPermissionMessage := "Nemáte oprávnění ovládat bránu"
  const SentMessage := "Příkaz odeslán - brána se otevírá"
  const SendFailedMessage := "Chyba při odesílání příkazu"

  /** What the hook's gate button does: whether it publishes, the retry flag
      afterwards, and the message it shows (none without a user). */
  datatype HookReply = HookReply(publishes: bool, retry: bool, message: Option<string>)

  /** The hook's gate button for a user with role `role` (none when logged
      out) and a publish that succeeds or fails as `publishOk`. */
  function HookGateCommand(role: Option<string>, retry: bool, publishOk: bool): HookReply {
    match role
    case None => HookReply(false, retry, None)
    case Some(rl) =>
      if !HookCanControlGate(rl) then HookReply(false, retry, Some(NoPermissionMessage))
      else HookReply(true, false, Some(if publishOk then SentMessage else SendFailedMessage))
  }

  /** The button publishes exactly for admins and users; anyone else gets the
      permission message and nothing is sent; a publish clears the retry
      flag. */
  lemma HookCommandNeedsRole(role: Option<string>, retry: bool, publishOk: bool)
    ensures HookGateCommand(role, retry, publishOk).publishes
        <==> role.Some? && (role.value == "admin" || role.value == "user")
    ensures role.Some? && !HookCanControlGate(role.value)
        ==> HookGateCommand(role, retry, publishOk) == HookReply(false, retry, Some(NoPermissionMessage))
    ensures HookGateCommand(role, retry, publishOk).publishes ==> !HookGateCommand(role, retry, publishOk).retry
    ensures role.None? ==> HookGateCommand(role, retry, publishOk) == HookReply(false, retry, None)
  {
  }

  // ------------------------------------------------------------ retry flag

  /** The retry flag after a status effect: it is cleared at once unless the
      status still reads closed (then a five-second timer clears it later). */
  function HookRetryOnStatus(retry: bool, status: string): bool {
    retry && CommandSeesClosed(status)
  }

  /** On the parser's labels, the retry flag survives a status exactly when
      it was set and the gate is closed. */
  lemma HookRetryReading(retry: bool, g: GateState)
    ensures HookRetryOnStatus(retry, GateLabel(g)) <==> retry && g == GateClosed
  {
    CommandSeesClosedOnLabels(g);
  }
}
