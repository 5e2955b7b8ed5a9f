# Biometric gate of the React Native biometric demo

A Dafny model of the decision logic of a React Native demo application that
locks its carousel screen behind Android biometric authentication:

- the native module `RTNMyBiometric` (`MyBiometricModule.kt`): the capability
  probe `getAvailableBiometric` (SDK level and package-manager features to
  `"FINGERPRINT"`, `"FACE"` or `no_biometric_found`), the availability check
  `canAuthenticate` (a `BiometricManager` status to one of six rejection
  identifiers or the prompt), the prompt callbacks (resolve `"true"`, reject
  `authentication_failed`, reject `"Authentication error <text>"`), and the
  single promise slot `myBiometricPromise` that both entry points overwrite;
- the screen `BiometricDemo`: `biometricAuth` (probe, then authenticate,
  then the lock overlay `modalVisible` from the outcome, with cancellation
  recognised by exact equality against three codes), the "Unlock now" retry,
  the back-press rule, the carousel's wrap-around next index, the dot colours
  and `getItemLayout`.

The Android platform is an input: the SDK level, the package manager's
feature flags (`Features`, absent when there is no activity), the
`BiometricManager` status (an `int`, absent when the manager is null) and the
prompt callbacks (`PromptEvent`). A JavaScript promise is an identifier, and
the native class records every `resolve`/`reject` call it makes in a log
(`settlements`). The screen sees the first call made on its promise
(`FirstSettlement`): a React Native promise ignores any later one. Each
`await` of the screen is an input of type `Awaited` (fulfilled, thrown with a
`code`, or never settled), and `AwaitOf` maps a native settlement to it.

The status values are those of `androidx.biometric.BiometricManager`
(`BIOMETRIC_SUCCESS` 0, `BIOMETRIC_STATUS_UNKNOWN` -1,
`BIOMETRIC_ERROR_UNSUPPORTED` -2, `BIOMETRIC_ERROR_HW_UNAVAILABLE` 1,
`BIOMETRIC_ERROR_NONE_ENROLLED` 11, `BIOMETRIC_ERROR_NO_HARDWARE` 12,
`BIOMETRIC_ERROR_SECURITY_UPDATE_REQUIRED` 15). A status outside these
seven matches no branch of the `when`, and the promise is left unsettled.

Files: `optional.dfy` (Option), `biometric_module.dfy` (module
`BiometricModule`), `biometric_demo.dfy` (module `BiometricDemo`).

Three behaviours of the code worth knowing, which the model keeps as written:

- Cancellation is recognised by exact equality of the rejection code with one
  of three literal strings, not by a substring test. A text such as
  "Face operation canceled by user." does not raise the overlay
  (`OtherCancelTextKeepsOverlay`).
- The overlay starts hidden (`modalVisible` is `false`), not locked.
- An unmatched read rejects the promise with `authentication_failed`. Any
  later callback in the same prompt, a success included, is not seen by the
  screen (`FailedThenSucceeded`).

## Model

| member | source | states |
|---|---|---|
| BiometricModule.Probe | RTNMyBiometric/android/src/main/java/com/rtnmybiometric/MyBiometricModule.kt:26-56 | On SDK >= 29: `FINGERPRINT` iff the fingerprint feature is reported, else `FACE` iff the face feature is, else reject. On SDK 23-28 it never rejects: `FINGERPRINT` iff fingerprint, else `FACE`. Below 23 it always rejects. Every rejection has code and message `no_biometric_found`. |
| BiometricModule.LegacyProbeIgnoresFace | RTNMyBiometric/android/src/main/java/com/rtnmybiometric/MyBiometricModule.kt:44-49 | On SDK 23-28 the outcome depends only on the fingerprint flag: not on the face flag, not on whether a package manager exists. It always resolves. |
| BiometricModule.StatusOf | RTNMyBiometric/android/src/main/java/com/rtnmybiometric/MyBiometricModule.kt:76-111 | Maps each availability identifier back to its status. It is defined exactly on the six identifiers. |
| BiometricModule.Gate | RTNMyBiometric/android/src/main/java/com/rtnmybiometric/MyBiometricModule.kt:67-112 | `BIOMETRIC_SUCCESS` and only it launches the prompt. Each refusal's identifier is one of the six, and `StatusOf` maps it back to the status that caused it. No branch is taken (promise unsettled) exactly when the manager is null or the status is none of the seven. |
| BiometricModule.GateRefusalsDistinct | RTNMyBiometric/android/src/main/java/com/rtnmybiometric/MyBiometricModule.kt:76-111 | Two different failing statuses never share a rejection identifier. |
| BiometricModule.PromptSettlement | RTNMyBiometric/android/src/main/java/com/rtnmybiometric/MyBiometricModule.kt:131-152 | Only the success callback resolves, with `"true"`. Every rejection has code equal to message. Failure rejects `authentication_failed`. Error rejects with "Authentication error " followed by the platform text, which differs from every fixed identifier of the module. |
| BiometricModule.SettleSlot | RTNMyBiometric/android/src/main/java/com/rtnmybiometric/MyBiometricModule.kt:18 | A settle call reaches at most one promise: the one in the slot, and none when the slot is null. |
| BiometricModule.FirstSettlement | RTNMyBiometric/android/src/main/java/com/rtnmybiometric/MyBiometricModule.kt:138-151 | The awaiter's outcome is absent iff no call was made on the promise; otherwise it is the outcome of the first call made on it. |
| BiometricModule.FirstSettlementAppend | RTNMyBiometric/android/src/main/java/com/rtnmybiometric/MyBiometricModule.kt:132-151 | A further resolve/reject changes what a promise's awaiter sees only if that promise had not been settled yet, and only if the call is on it. |
| BiometricModule.NativeBiometric.constructor | RTNMyBiometric/android/src/main/java/com/rtnmybiometric/MyBiometricModule.kt:17-20 | The slot and prompt start empty, and nothing is pending or settled. |
| BiometricModule.NativeBiometric.GetAvailableBiometric | RTNMyBiometric/android/src/main/java/com/rtnmybiometric/MyBiometricModule.kt:26-56 | The slot now holds the new promise, and it alone receives the probe's settlement. Prompt state and pending checks are unchanged. |
| BiometricModule.NativeBiometric.Authenticate | RTNMyBiometric/android/src/main/java/com/rtnmybiometric/MyBiometricModule.kt:58-65 | The slot is overwritten with the new promise. One availability check is posted iff there is an activity. Nothing is settled yet. |
| BiometricModule.NativeBiometric.RunPostedCheck | RTNMyBiometric/android/src/main/java/com/rtnmybiometric/MyBiometricModule.kt:65-113 | A posted check consumes one pending check. It shows the login prompt, or settles the promise then in the slot with the `Gate` identifier, or does nothing, as `Gate` decides. |
| BiometricModule.NativeBiometric.Login | RTNMyBiometric/android/src/main/java/com/rtnmybiometric/MyBiometricModule.kt:116-156 | Builds the "Biometric Login" prompt with device-credential fallback and shows it once more. It settles nothing. |
| BiometricModule.NativeBiometric.OnPromptEvent | RTNMyBiometric/android/src/main/java/com/rtnmybiometric/MyBiometricModule.kt:131-152 | A callback settles the promise currently in the slot with `PromptSettlement` of the event. |
| BiometricModule.NativeBiometric.Settle | RTNMyBiometric/android/src/main/java/com/rtnmybiometric/MyBiometricModule.kt:135 | Appends one call on the slot's promise to the log, or nothing when the slot is null. |
| BiometricModule.OverwrittenSlot | RTNMyBiometric/android/src/main/java/com/rtnmybiometric/MyBiometricModule.kt:58-72 | After two authenticate calls, the first caller's promise is never settled. For a failing status, the log is exactly two refusals, both on the second promise. For success or an unlisted status, nothing is settled. |
| BiometricModule.FailedThenSucceeded | RTNMyBiometric/android/src/main/java/com/rtnmybiometric/MyBiometricModule.kt:138-151 | After an unmatched read and then a match, the awaiter sees `authentication_failed`, although `"true"` was also sent. |
| BiometricDemo.AwaitOf | src/screens/BiometricDemo.tsx:82-94 | A native settlement is awaited as a fulfilment with its value, or a throw with its code. A promise never settled never returns. |
| BiometricDemo.ModalAfter | src/screens/BiometricDemo.tsx:89-106 | Success hides the overlay. A thrown code shows it iff the code is one of the three cancellation codes, and otherwise leaves it as it was. A never-settled await leaves it too. The overlay changes only on success or cancellation. |
| BiometricDemo.CancellationIffErrorText | src/screens/BiometricDemo.tsx:96-101 | A native callback produces a cancellation code iff it is the error callback whose text is one of the three cancellation texts. |
| BiometricDemo.PrefixedCancelText | src/screens/BiometricDemo.tsx:96-101 | "Authentication error " followed by a text is a cancellation code iff the text is a cancellation text. |
| BiometricDemo.AvailabilityRefusalKeepsOverlay | src/screens/BiometricDemo.tsx:96-105 | None of the six availability rejections changes the overlay. |
| BiometricDemo.UnmatchedReadKeepsOverlay | src/screens/BiometricDemo.tsx:96-105 | `authentication_failed` never changes the overlay. |
| BiometricDemo.DismissalRaisesOverlay | src/screens/BiometricDemo.tsx:96-102 | The error text "Authentication canceled by user." shows the overlay. |
| BiometricDemo.OtherCancelTextKeepsOverlay | src/screens/BiometricDemo.tsx:96-105 | An error text that only contains "canceled by user" ("Face operation canceled by user.") leaves the overlay unchanged. |
| BiometricDemo.NextIndex | src/screens/BiometricDemo.tsx:111-121 | The next index stays in [0, len) for an in-range index. It is 0 exactly after the last index (or from -1), and otherwise the index plus one. |
| BiometricDemo.AdvanceCycles | src/screens/BiometricDemo.tsx:109-127 | From item 0 the interval stays in range and repeats every `len` ticks. |
| BiometricDemo.AdvanceWithinFirstRound | src/screens/BiometricDemo.tsx:111-121 | From item 0, tick k shows item k for every k < len. |
| BiometricDemo.DotColours | src/screens/BiometricDemo.tsx:161-173 | One dot per item. A dot has the highlight colour iff its index equals `activeIndex`, and the idle colour otherwise. |
| BiometricDemo.OneHighlightedDot | src/screens/BiometricDemo.tsx:162-171 | Exactly one dot is highlighted when `activeIndex` is in range, and none otherwise. |
| BiometricDemo.GetItemLayout | src/screens/BiometricDemo.tsx:129-133 | An item's layout carries its index and has the screen width as its length. |
| BiometricDemo.ItemsAreAdjacent | src/screens/BiometricDemo.tsx:129-133 | Each item starts where the previous one ends. |
| BiometricDemo.ScrollIndexOfLayout | src/screens/BiometricDemo.tsx:175-178 | Over the reals (not IEEE doubles), dividing an item's laid-out offset by a positive width gives back its index. |
| BiometricDemo.Screen.constructor | src/screens/BiometricDemo.tsx:26-28 | `activeIndex` starts at 0, `modalVisible` at false and `biometric` at "". |
| BiometricDemo.Screen.BiometricAuth | src/screens/BiometricDemo.tsx:79-107 | `biometric` becomes `data ?? ''` only when the probe resolves. A probe rejection does not stop the authenticate step. A probe that never settles stops the flow. The overlay follows `ModalAfter`, and `activeIndex` is untouched. |
| BiometricDemo.Screen.HandleModalButtonPress | src/screens/BiometricDemo.tsx:181-184 | The overlay is hidden before the retry, so its final state depends only on the retry's outcome: no memory of earlier attempts. A non-cancellation rejection leaves it hidden. |
| BiometricDemo.Screen.BackAction | src/screens/BiometricDemo.tsx:55-65 | The back press is consumed iff the overlay is shown. |
| BiometricDemo.Screen.AutoAdvance | src/screens/BiometricDemo.tsx:110-121 | One interval tick moves `activeIndex` to `NextIndex` of its old value over the three items. Nothing else changes. |
| BiometricDemo.Screen.HandleScroll | src/screens/BiometricDemo.tsx:175-179 | `activeIndex` becomes the reported page. Nothing else changes. |
| BiometricDemo.DismissThenUnlock | src/screens/BiometricDemo.tsx:181-184 | On mount, a dismissed prompt shows the overlay and back presses are consumed. "Unlock now" with a successful retry hides the overlay again. |

## Left out

- Toast helper (`ToastService.kt`), the TurboModule declaration (`NativeMyBiometric.ts`) and `App.tsx` are not part of this model: they hold no gate logic.
- The authenticator bit-masks, `ContextCompat.getMainExecutor`, `Handler` posting and the `BiometricPrompt` machinery are platform calls. The posted check is modelled as a pending counter run later by `RunPostedCheck`. The callback `errorCode` is carried but unused, as in the code.
- BiometricModule.NativeBiometric.Login: does not model the crash paths of `currentActivity as FragmentActivity` and `executor!!`. It is only reached right after a non-null `BiometricManager` was obtained from the activity.
- `await`, the 2500 ms interval and React effect subscriptions are replaced by explicit inputs and method calls. Two overlapping runs of `biometricAuth` are not modelled.
- BiometricDemo.Screen.HandleScroll: takes the page as an integer. The floating-point division of the scroll offset by the screen width is not modelled.
- BiometricDemo.Screen.AutoAdvance: composes `scrollToIndex` with the scroll event it causes, assuming the scroll lands exactly on the target page.
- Rendering, styles, `Alert`, `console.log` and the exit on going to the background (`BackHandler.exitApp`) are platform side effects.
- `FirstSettlement` is React Native's rule that a promise settles once. It is stated as the model of the bridge, not taken from the code.
