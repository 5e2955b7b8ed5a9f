/**
 * The Android native module RTNMyBiometric (MyBiometricModule.kt).
 *
 * The platform is abstracted away: the SDK level, the package manager's
 * feature flags, the BiometricManager status and the BiometricPrompt
 * callbacks are inputs. A JavaScript promise is an identifier; what the
 * module does to it is recorded as a log of resolve/reject calls.
 */
module BiometricModule {
  import opened Optional

  // SDK levels at which the probe changes strategy (Android 10 and Android 6).
  const SDK_Q: int := 29
  const SDK_M: int := 23

  const FINGERPRINT := "FINGERPRINT"
  const FACE := "FACE"
  const NO_BIOMETRIC_FOUND := "no_biometric_found"

  // Status values of androidx.biometric.BiometricManager.canAuthenticate.
  const BIOMETRIC_SUCCESS: int := 0
  const BIOMETRIC_STATUS_UNKNOWN: int := -1
  const BIOMETRIC_ERROR_UNSUPPORTED: int := -2
  const BIOMETRIC_ERROR_HW_UNAVAILABLE: int := 1
  const BIOMETRIC_ERROR_NONE_ENROLLED: int := 11
  const BIOMETRIC_ERROR_NO_HARDWARE: int := 12
  const BIOMETRIC_ERROR_SECURITY_UPDATE_REQUIRED: int := 15

  // Rejection identifiers of the availability check, one per failing status.
  const NO_BIOMETRIC_FEATURE := "no_biometric_feature"
  const CURRENTLY_UNAVAILABLE := "currently_unavailable"
  const USER_HAS_NO_BIOMETRIC := "user_has_no_biometric"
  const ERROR_SECURITY := "error_security"
  const NOT_SUPPORTED := "not_supported"
  const ERROR_UNKNOWN := "error_unknown"

  const AUTHENTICATION_FAILED := "authentication_failed"
  const AUTHENTICATED := "true"
  const ERROR_PREFIX := "Authentication error "

  /** The six identifiers the availability check can reject with. */
  const AVAILABILITY_IDS: set<string> :=
    {NO_BIOMETRIC_FEATURE, CURRENTLY_UNAVAILABLE, USER_HAS_NO_BIOMETRIC,
     ERROR_SECURITY, NOT_SUPPORTED, ERROR_UNKNOWN}

  /** Every identifier the module rejects with that does not carry platform text. */
  const FIXED_IDS: set<string> := AVAILABILITY_IDS + {NO_BIOMETRIC_FOUND, AUTHENTICATION_FAILED}

  /** One call of `resolve` or `reject` on a promise. */
  datatype Settlement = Resolve(value: string) | Reject(code: string, message: string)

  /** What the current activity's package manager reports. */
  datatype Features = Features(fingerprint: bool, face: bool)

  /** `packageManager?.hasSystemFeature(FEATURE_FINGERPRINT) == true` */
  predicate HasFingerprint(pm: Option<Features>) { pm.Some? && pm.value.fingerprint }

  /** `packageManager?.hasSystemFeature(FEATURE_FACE) == true` */
  predicate HasFace(pm: Option<Features>) { pm.Some? && pm.value.face }

  /**
   * getAvailableBiometric: how the probe settles its promise, given the SDK
   * level and the package manager (None when there is no current activity).
   */
  function Probe(sdk: int, pm: Option<Features>): (r: Settlement)
    ensures r.Reject? ==> r.code == NO_BIOMETRIC_FOUND && r.message == NO_BIOMETRIC_FOUND
    ensures r.Resolve? ==> r.value == FINGERPRINT || r.value == FACE
    ensures r.Reject? <==> sdk < SDK_M || (sdk >= SDK_Q && !HasFingerprint(pm) && !HasFace(pm))
    ensures r == Resolve(FINGERPRINT) <==> sdk >= SDK_M && HasFingerprint(pm)
    ensures r == Resolve(FACE) <==>
      sdk >= SDK_M && !HasFingerprint(pm) && (sdk < SDK_Q || HasFace(pm))
  {
    if sdk >= SDK_Q then
      if HasFingerprint(pm) then Resolve(FINGERPRINT)
      else if HasFace(pm) then Resolve(FACE)
      else Reject(NO_BIOMETRIC_FOUND, NO_BIOMETRIC_FOUND)
    else if sdk >= SDK_M then
      if HasFingerprint(pm) then Resolve(FINGERPRINT) else Resolve(FACE)
    else
      Reject(NO_BIOMETRIC_FOUND, NO_BIOMETRIC_FOUND)
  }

  /** Below SDK 29 the probe never consults the face feature, nor needs a package manager. */
  lemma LegacyProbeIgnoresFace(sdk: int, pm: Option<Features>, pm': Option<Features>)
    requires SDK_M <= sdk < SDK_Q
    requires HasFingerprint(pm) == HasFingerprint(pm')
    ensures Probe(sdk, pm) == Probe(sdk, pm')
    ensures Probe(sdk, pm).Resolve?
  {
  }

  /** The decision the status `when` of canAuthenticate takes. */
  datatype GateStep =
    | LaunchPrompt        // BIOMETRIC_SUCCESS: login() shows the prompt
    | Refuse(id: string)  // reject with `id` as code and message
    | NoBranch            // no branch matches: the promise is left unsettled

  /** The status a rejection identifier of the availability check stands for. */
  function StatusOf(id: string): (s: Option<int>)
    ensures s.Some? <==> id in AVAILABILITY_IDS
  {
    if id == NO_BIOMETRIC_FEATURE then Some(BIOMETRIC_ERROR_NO_HARDWARE)
    else if id == CURRENTLY_UNAVAILABLE then Some(BIOMETRIC_ERROR_HW_UNAVAILABLE)
    else if id == USER_HAS_NO_BIOMETRIC then Some(BIOMETRIC_ERROR_NONE_ENROLLED)
    else if id == ERROR_SECURITY then Some(BIOMETRIC_ERROR_SECURITY_UPDATE_REQUIRED)
    else if id == NOT_SUPPORTED then Some(BIOMETRIC_ERROR_UNSUPPORTED)
    else if id == ERROR_UNKNOWN then Some(BIOMETRIC_STATUS_UNKNOWN)
    else None
  }

  /**
   * The `when` over `bioMetricManager?.canAuthenticate(...)`; `status` is None
   * when the manager is null (no current activity when the posted block runs).
   * Each refusal names its status uniquely: StatusOf inverts it.
   */
  function Gate(status: Option<int>): (g: GateStep)
    ensures g.LaunchPrompt? <==> status == Some(BIOMETRIC_SUCCESS)
    ensures g.Refuse? ==> g.id in AVAILABILITY_IDS && StatusOf(g.id) == status
    ensures g.NoBranch? <==>
      status.None? ||
      status.value !in {BIOMETRIC_SUCCESS, BIOMETRIC_STATUS_UNKNOWN, BIOMETRIC_ERROR_UNSUPPORTED,
                        BIOMETRIC_ERROR_HW_UNAVAILABLE, BIOMETRIC_ERROR_NONE_ENROLLED,
                        BIOMETRIC_ERROR_NO_HARDWARE, BIOMETRIC_ERROR_SECURITY_UPDATE_REQUIRED}
  {
    match status
    case None => NoBranch
    case Some(s) =>
      if s == BIOMETRIC_SUCCESS then LaunchPrompt
      else if s == BIOMETRIC_ERROR_NO_HARDWARE then Refuse(NO_BIOMETRIC_FEATURE)
      else if s == BIOMETRIC_ERROR_HW_UNAVAILABLE then Refuse(CURRENTLY_UNAVAILABLE)
      else if s == BIOMETRIC_ERROR_NONE_ENROLLED then Refuse(USER_HAS_NO_BIOMETRIC)
      else if s == BIOMETRIC_ERROR_SECURITY_UPDATE_REQUIRED then Refuse(ERROR_SECURITY)
      else if s == BIOMETRIC_ERROR_UNSUPPORTED then Refuse(NOT_SUPPORTED)
      else if s == BIOMETRIC_STATUS_UNKNOWN then Refuse(ERROR_UNKNOWN)
      else NoBranch
  }

  /** No two failing statuses are reported with the same identifier. */
  lemma GateRefusalsDistinct(s1: int, s2: int)
    requires Gate(Some(s1)).Refuse? && Gate(Some(s2)).Refuse?
    requires s1 != s2
    ensures Gate(Some(s1)).id != Gate(Some(s2)).id
  {
  }

  /** A callback of the BiometricPrompt.AuthenticationCallback object. */
  datatype PromptEvent =
    | AuthError(errorCode: int, errString: string)
    | AuthSucceeded
    | AuthFailed

  /** How each prompt callback settles the promise in the slot. */
  function PromptSettlement(e: PromptEvent): (s: Settlement)
    ensures s.Resolve? <==> e.AuthSucceeded?
    ensures s.Resolve? ==> s.value == AUTHENTICATED
    ensures s.Reject? ==> s.code == s.message
    ensures e.AuthFailed? ==> s.code == AUTHENTICATION_FAILED
    ensures e.AuthError? ==> |s.code| >= |ERROR_PREFIX| && s.code[..|ERROR_PREFIX|] == ERROR_PREFIX && s.code[|ERROR_PREFIX|..] == e.errString
    ensures e.AuthError? ==> s.code !in FIXED_IDS
  {
    match e
    case AuthError(_, text) =>
      var error := ERROR_PREFIX + text;
      assert error[0] == 'A';
      Reject(error, error)
    case AuthSucceeded => Resolve(AUTHENTICATED)
    case AuthFailed => Reject(AUTHENTICATION_FAILED, AUTHENTICATION_FAILED)
  }

  /** The title, subtitle and device-credential fallback of the prompt login() builds. */
  datatype PromptInfo = PromptInfo(title: string, subtitle: string, allowsDeviceCredential: bool)

  const LOGIN_PROMPT := PromptInfo("Biometric Login", "Login with biometric", true)

  /** A JavaScript promise handed to the module, by identity. */
  type PromiseId = nat

  /** One resolve/reject call, with the promise it was made on. */
  datatype Settled = Settled(promise: PromiseId, outcome: Settlement)

  /** `myBiometricPromise?.resolve/reject(...)`: a call on the slot's promise, or nothing when it is null. */
  function SettleSlot(slot: Option<PromiseId>, s: Settlement): (log: seq<Settled>)
    ensures |log| <= 1
    ensures log != [] <==> slot.Some?
    ensures forall e :: e in log ==> e.outcome == s && slot == Some(e.promise)
  {
    match slot
    case None => []
    case Some(p) => [Settled(p, s)]
  }

  /**
   * The settlement the awaiting JavaScript side observes: a promise honours
   * only its first resolve or reject; later calls on it are ignored.
   */
  function FirstSettlement(log: seq<Settled>, p: PromiseId): (r: Option<Settlement>)
    ensures r.None? <==> forall i :: 0 <= i < |log| ==> log[i].promise != p
    ensures r.Some? ==>
      exists i :: 0 <= i < |log| && log[i] == Settled(p, r.value) &&
        forall j :: 0 <= j < i ==> log[j].promise != p
  {
    if log == [] then None
    else if log[0].promise == p then Some(log[0].outcome)
    else
      var rest := FirstSettlement(log[1..], p);
      if rest.Some? then
        ghost var i :| 0 <= i < |log[1..]| && log[1..][i] == Settled(p, rest.value) &&
          forall j :: 0 <= j < i ==> log[1..][j].promise != p;
        assert log[i + 1] == Settled(p, rest.value);
        rest
      else rest
  }

  /** Appending one call changes what `p`'s awaiter sees only if `p` was still unsettled. */
  lemma {:induction false} FirstSettlementAppend(log: seq<Settled>, e: Settled, p: PromiseId)
    ensures FirstSettlement(log + [e], p) ==
      if FirstSettlement(log, p).Some? then FirstSettlement(log, p)
      else if e.promise == p then Some(e.outcome)
      else None
  {
    if log != [] {
      assert (log + [e])[0] == log[0];
      assert (log + [e])[1..] == log[1..] + [e];
      FirstSettlementAppend(log[1..], e, p);
    }
  }

  /**
   * MyBiometricModule: one promise slot shared by both entry points, the
   * prompt it last built, the availability checks posted to the main looper
   * and not yet run, and every resolve/reject call made so far.
   */
  class NativeBiometric {
    var myBiometricPromise: Option<PromiseId>
    var promptInfo: Option<PromptInfo>
    var promptsShown: nat
    var pendingChecks: nat
    var settlements: seq<Settled>

    constructor ()
      ensures myBiometricPromise.None? && promptInfo.None?
      ensures promptsShown == 0 && pendingChecks == 0 && settlements == []
    {
      myBiometricPromise := None;
      promptInfo := None;
      promptsShown := 0;
      pendingChecks := 0;
      settlements := [];
    }

    /** getAvailableBiometric: store the promise, then settle it at once by the probe's table. */
    method GetAvailableBiometric(promise: Option<PromiseId>, sdk: int, pm: Option<Features>)
      modifies this
      ensures myBiometricPromise == promise
      ensures settlements == old(settlements) + SettleSlot(promise, Probe(sdk, pm))
      ensures promptInfo == old(promptInfo) && promptsShown == old(promptsShown)
      ensures pendingChecks == old(pendingChecks)
    {
      myBiometricPromise := promise;
      Settle(Probe(sdk, pm));
    }

    /**
     * authenticate: store the promise and post the availability check to the
     * main looper; with no current activity the handler is null and nothing
     * is posted, so the promise is never settled by this call.
     */
    method Authenticate(promise: Option<PromiseId>, hasActivity: bool)
      modifies this
      ensures myBiometricPromise == promise
      ensures pendingChecks == old(pendingChecks) + (if hasActivity then 1 else 0)
      ensures settlements == old(settlements)
      ensures promptInfo == old(promptInfo) && promptsShown == old(promptsShown)
    {
      myBiometricPromise := promise;
      if hasActivity {
        pendingChecks := pendingChecks + 1;
      }
    }

    /**
     * The posted block of canAuthenticate, run later on the main looper. It
     * settles whatever promise is in the slot by then, not necessarily the
     * one of the call that posted it.
     */
    method RunPostedCheck(status: Option<int>)
      requires pendingChecks > 0
      modifies this
      ensures pendingChecks == old(pendingChecks) - 1
      ensures myBiometricPromise == old(myBiometricPromise)
      ensures Gate(status).LaunchPrompt? ==>
        promptInfo == Some(LOGIN_PROMPT) && promptsShown == old(promptsShown) + 1 &&
        settlements == old(settlements)
      ensures Gate(status).Refuse? ==>
        promptInfo == old(promptInfo) && promptsShown == old(promptsShown) &&
        settlements == old(settlements) + SettleSlot(myBiometricPromise, Reject(Gate(status).id, Gate(status).id))
      ensures Gate(status).NoBranch? ==>
        promptInfo == old(promptInfo) && promptsShown == old(promptsShown) &&
        settlements == old(settlements)
    {
      pendingChecks := pendingChecks - 1;
      match Gate(status)
      case LaunchPrompt =>
        Login();
      case Refuse(id) =>
        Settle(Reject(id, id));
      case NoBranch =>
    }

    /** login: build the prompt info and show the prompt. */
    method Login()
      modifies this
      ensures promptInfo == Some(LOGIN_PROMPT) && promptsShown == old(promptsShown) + 1
      ensures myBiometricPromise == old(myBiometricPromise) && settlements == old(settlements)
      ensures pendingChecks == old(pendingChecks)
    {
      promptInfo := Some(LOGIN_PROMPT);
      promptsShown := promptsShown + 1;
    }

    /** A callback of the prompt: it settles the promise currently in the slot. */
    method OnPromptEvent(e: PromptEvent)
      modifies this
      ensures settlements == old(settlements) + SettleSlot(myBiometricPromise, PromptSettlement(e))
      ensures myBiometricPromise == old(myBiometricPromise) && promptInfo == old(promptInfo)
      ensures promptsShown == old(promptsShown) && pendingChecks == old(pendingChecks)
    {
      Settle(PromptSettlement(e));
    }

    /** `myBiometricPromise?.resolve(...)` / `myBiometricPromise?.reject(...)` */
    method Settle(s: Settlement)
      modifies this`settlements
      ensures settlements == old(settlements) + SettleSlot(myBiometricPromise, s)
    {
      if myBiometricPromise.Some? {
        settlements := settlements + [Settled(myBiometricPromise.value, s)];
      }
    }
  }

  /**
   * Two authenticate calls before the first posted check runs: both checks
   * settle the second promise, and the first caller's promise is never settled.
   */
  method OverwrittenSlot(first: PromiseId, second: PromiseId, status: int) returns (log: seq<Settled>)
    requires first != second
    ensures FirstSettlement(log, first).None?
    ensures Gate(Some(status)).Refuse? ==>
      FirstSettlement(log, second) == Some(Reject(Gate(Some(status)).id, Gate(Some(status)).id))
    ensures Gate(Some(status)).Refuse? ==>
      log == [Settled(second, Reject(Gate(Some(status)).id, Gate(Some(status)).id)),
              Settled(second, Reject(Gate(Some(status)).id, Gate(Some(status)).id))]
    ensures !Gate(Some(status)).Refuse? ==> log == []
  {
    var m := new NativeBiometric();
    m.Authenticate(Some(first), true);
    m.Authenticate(Some(second), true);
    m.RunPostedCheck(Some(status));
    m.RunPostedCheck(Some(status));
    log := m.settlements;
  }

  /**
   * An unmatched read followed by a successful one in the same prompt: the
   * awaiter sees `authentication_failed`; the later resolve is ignored.
   */
  method FailedThenSucceeded(p: PromiseId) returns (log: seq<Settled>)
    ensures FirstSettlement(log, p) == Some(Reject(AUTHENTICATION_FAILED, AUTHENTICATION_FAILED))
    ensures Settled(p, Resolve(AUTHENTICATED)) in log
  {
    var m := new NativeBiometric();
    m.Authenticate(Some(p), true);
    m.RunPostedCheck(Some(BIOMETRIC_SUCCESS));
    m.OnPromptEvent(AuthFailed);
    m.OnPromptEvent(AuthSucceeded);
    log := m.settlements;
    FirstSettlementAppend([Settled(p, Reject(AUTHENTICATION_FAILED, AUTHENTICATION_FAILED))],
                          Settled(p, Resolve(AUTHENTICATED)), p);
  }
}
