/** The dispatch-time permission gate (core/permissions.py). Verbs fall into
    three disjoint buckets; the answer is whether a step may run without a
    user's confirmation. */
module Permissions {
  import opened Wrappers
  import opened Text
  import opened Types

  const SAFE_ACTIONS: set<string> :=
    {"WAIT", "READ", "BRIEFING", "SPEAK", "RENDER_CANVAS", "BROWSE_READ", "BROWSE_GOTO", "FILE_READ"}
  const RISKY_ACTIONS: set<string> := {"CLICK", "TYPE", "PRESS", "FILE_WRITE"}
  const DANGEROUS_ACTIONS: set<string> := {"OPEN_APP", "DELETE_FILE", "RUN_SHELL"}

  /** The manager's configuration. Nothing in the core changes it after construction. */
  datatype PermissionManager = PermissionManager(whitelistedApps: set<string>, autoApproveRisky: bool) {

    /** `check_permission`: true when the step may run automatically. Only a
        SAFE verb, a RISKY verb under the flag, or a whitelisted OPEN_APP gets
        through; every SAFE verb does. */
    function CheckPermission(actionType: string, params: Option<string>): (allowed: bool)
      ensures Upper(actionType) in SAFE_ACTIONS ==> allowed
      ensures allowed ==> || Upper(actionType) in SAFE_ACTIONS
                          || (Upper(actionType) in RISKY_ACTIONS && autoApproveRisky)
                          || Upper(actionType) == "OPEN_APP"
    {
      var action := Upper(actionType);
      if action in SAFE_ACTIONS then true
      else if action in RISKY_ACTIONS then autoApproveRisky
      else if action in DANGEROUS_ACTIONS then
        if action == "OPEN_APP" then
          exists app | app in whitelistedApps :: Contains(Lower(PyStr(params)), app)
        else false
      else false
    }
  }

  /** The manager as constructed: four whitelisted applications, risky actions auto-approved. */
  const DefaultManager := PermissionManager({"notepad", "calculator", "calc", "chrome"}, true)

  /** The three buckets are pairwise disjoint. */
  lemma BucketsDisjoint()
    ensures SAFE_ACTIONS !! RISKY_ACTIONS
    ensures SAFE_ACTIONS !! DANGEROUS_ACTIONS
    ensures RISKY_ACTIONS !! DANGEROUS_ACTIONS
  {
  }

  /** Because the buckets are disjoint, testing them in the opposite order
      gives the same answer. */
  lemma OrderOfTestsIrrelevant(pm: PermissionManager, actionType: string, params: Option<string>)
    ensures var action := Upper(actionType);
            pm.CheckPermission(actionType, params) ==
              if action in DANGEROUS_ACTIONS then
                action == "OPEN_APP" &&
                exists app | app in pm.whitelistedApps :: Contains(Lower(PyStr(params)), app)
              else if action in RISKY_ACTIONS then pm.autoApproveRisky
              else action in SAFE_ACTIONS
  {
    BucketsDisjoint();
  }

  /** The verb is upper-cased first, so its case does not matter. */
  lemma VerbCaseInsensitive(pm: PermissionManager, a: string, b: string, params: Option<string>)
    requires Upper(a) == Upper(b)
    ensures pm.CheckPermission(a, params) == pm.CheckPermission(b, params)
  {
  }

  /** A lower-case verb is treated like its upper-case form. */
  lemma LowerVerbLikeUpper(pm: PermissionManager, a: string, params: Option<string>)
    ensures pm.CheckPermission(Lower(a), params) == pm.CheckPermission(a, params)
  {
    UpperOfLower(a);
  }

  /** A safe verb is allowed whatever the parameters and the risky flag. */
  lemma SafeAlwaysAllowed(pm: PermissionManager, actionType: string, params: Option<string>)
    requires Upper(actionType) in SAFE_ACTIONS
    ensures pm.CheckPermission(actionType, params)
  {
  }

  /** A risky verb is allowed exactly when risky actions are auto-approved. */
  lemma RiskyFollowsFlag(pm: PermissionManager, actionType: string, params: Option<string>)
    requires Upper(actionType) in RISKY_ACTIONS
    ensures pm.CheckPermission(actionType, params) == pm.autoApproveRisky
  {
  }

  /** OPEN_APP is allowed exactly when some whitelisted name occurs in the
      lower-cased parameter (None reads as "None"). */
  lemma OpenAppNeedsWhitelist(pm: PermissionManager, actionType: string, params: Option<string>)
    requires Upper(actionType) == "OPEN_APP"
    ensures pm.CheckPermission(actionType, params) <==>
              exists app | app in pm.whitelistedApps :: Contains(Lower(PyStr(params)), app)
  {
  }

  /** DELETE_FILE, RUN_SHELL and every verb outside the three buckets are refused. */
  lemma OtherVerbsRefused(pm: PermissionManager, actionType: string, params: Option<string>)
    requires var action := Upper(actionType);
             action == "DELETE_FILE" || action == "RUN_SHELL" ||
             (action !in SAFE_ACTIONS && action !in RISKY_ACTIONS && action !in DANGEROUS_ACTIONS)
    ensures !pm.CheckPermission(actionType, params)
  {
  }

  /** BROWSE_OPEN and BROWSE_CLOSE are in none of the three buckets. */
  lemma BrowserOpenCloseUnbucketed()
    ensures "BROWSE_OPEN" !in SAFE_ACTIONS + RISKY_ACTIONS + DANGEROUS_ACTIONS
    ensures "BROWSE_CLOSE" !in SAFE_ACTIONS + RISKY_ACTIONS + DANGEROUS_ACTIONS
  {
  }

  /** With the default configuration, risky actions are allowed and opening
      "calc" is allowed, while opening "cmd" needs confirmation. */
  lemma DefaultExamples()
    ensures DefaultManager.CheckPermission("type", Some("hello"))
    ensures DefaultManager.CheckPermission("OPEN_APP", Some("Calc"))
    ensures !DefaultManager.CheckPermission("OPEN_APP", Some("cmd"))
  {
    assert Upper("type") == "TYPE";
    assert Upper("OPEN_APP") == "OPEN_APP";
    assert Lower("Calc") == "calc";
    assert OccursAt(Lower("Calc"), "calc", 0);
    assert Lower("cmd") == "cmd";
    forall app | app in DefaultManager.whitelistedApps
      ensures !Contains(Lower("cmd"), app)
    {
      assert |app| >= 4;
    }
  }
}
