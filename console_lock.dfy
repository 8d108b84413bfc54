/** The guided mode's console lock, and the check that the configuration changed after it was validated. */
module ConsoleLock {
  import opened Wrappers
  import opened Values
  import SessionState

  /** The sections guided mode locks once past the first step; "display" is never locked. */
  const LockableSections: set<string> := {"config", "temporal", "scenarios"}

  predicate Guided(s: Dict) {
    PyEq(Get(s, "app_mode", VNone), VStr("guided"))
  }

  /**
   * `is_console_locked`: only in guided mode, and only for a lockable
   * section once the step (default 1) is past 1; the comparison raises
   * `TypeError` on a non-numeric step whatever the section.
   */
  function IsConsoleLocked(s: Dict, section: string): (r: Result<bool>)
    ensures !Guided(s) ==> r == Ok(false)
    ensures Guided(s) ==> (r.Ok? <==> Number(Get(s, "guided_step", VInt(1))).Ok?)
    ensures r.Ok? && r.value ==> Guided(s) && section in LockableSections
  {
    if !Guided(s) then Ok(false)
    else
      var step :- Number(Get(s, "guided_step", VInt(1)));
      var rules := map["config" := step > 1.0, "temporal" := step > 1.0, "scenarios" := step > 1.0, "display" := false];
      Ok(if section in rules then rules[section] else false)
  }

  /** In guided mode a lockable section is locked exactly when the step is past 1. */
  lemma LockedIffPastFirstStep(s: Dict, section: string)
    requires Guided(s) && Number(Get(s, "guided_step", VInt(1))).Ok?
    ensures IsConsoleLocked(s, section)
         == Ok(section in LockableSections && Number(Get(s, "guided_step", VInt(1))).value > 1.0)
  {
  }

  /** At the default first step nothing is locked. */
  lemma FirstStepUnlocked(s: Dict, section: string)
    requires "guided_step" !in s
    ensures IsConsoleLocked(s, section) == Ok(false)
  {
  }

  /** The four settings as the console sees them, with their defaults. */
  function CurrentSettings(s: Dict): (c: Dict)
    ensures c.Keys == {"mode", "domain", "seed", "tau"}
  {
    map["mode" := Get(s, "mode", VStr("Free")), "domain" := Get(s, "domain", VStr("Trading")),
        "seed" := Get(s, "seed", VInt(42)), "tau" := Get(s, "tau", VFloat(10.0))]
  }

  /** `check_config_changed`: never before a validation, else whether the settings differ from the validated ones. */
  predicate CheckConfigChanged(s: Dict) {
    "validated_config" in s && !PyEq(s["validated_config"], VDict(CurrentSettings(s)))
  }

  /** `mark_config_validated`: the current settings become the validated ones. */
  function Validated(s: Dict): (t: Dict)
    ensures t.Keys == s.Keys + {"validated_config"}
    ensures forall k :: k in s && k != "validated_config" ==> t[k] == s[k]
    ensures CurrentSettings(t) == CurrentSettings(s)
  {
    s["validated_config" := VDict(CurrentSettings(s))]
  }

  method MarkConfigValidated(session: SessionState.Session)
    requires session.Valid()
    modifies session
    ensures session.Valid() && session.state == Validated(old(session.state))
  {
    session.state := session.state["validated_config" := VDict(CurrentSettings(session.state))];
  }

  /** Right after validation nothing has changed. */
  lemma UnchangedAfterValidation(s: Dict)
    ensures !CheckConfigChanged(Validated(s))
  {
    PyEqIsAnEquivalence(VDict(CurrentSettings(s)), VDict(CurrentSettings(s)));
  }

  /**
   * Once validated from the settings of `before`, the configuration has
   * changed exactly when one of mode, domain, seed and tau differs.
   */
  lemma ChangedIffASettingDiffers(before: Dict, s: Dict)
    requires "validated_config" in s && s["validated_config"] == VDict(CurrentSettings(before))
    ensures CheckConfigChanged(s)
        <==> exists k :: k in {"mode", "domain", "seed", "tau"} && !ScalarEq(CurrentSettings(before)[k], CurrentSettings(s)[k])
  {
  }
}
