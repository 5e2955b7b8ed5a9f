/**
 * The BiometricDemo screen (src/screens/BiometricDemo.tsx): the lock overlay
 * driven by the outcome of the native authentication, the back-press rule,
 * and the auto-advancing carousel with its dot indicators.
 *
 * Each `await` on a native promise is an input: what the promise settled
 * with, as the JavaScript side sees it.
 */
module BiometricDemo {
  import opened Optional
  import opened BiometricModule

  /** What an `await` on a native promise yields. */
  datatype Awaited =
    | Fulfilled(value: Option<string>)  // the resolved value; None for `undefined`
    | Thrown(code: Option<string>)      // the thrown error's `code`; None when it has none
    | NeverSettles                      // the promise is never settled: the await never returns

  /** How the bridge presents a native promise's first settlement (None: never settled). */
  function AwaitOf(s: Option<Settlement>): (a: Awaited)
    ensures a.NeverSettles? <==> s.None?
    ensures a.Fulfilled? ==> a.value.Some? && s == Some(Resolve(a.value.value))
    ensures a.Thrown? ==> s.Some? && s.value.Reject? && a.code == Some(s.value.code)
  {
    match s
    case None => NeverSettles
    case Some(Resolve(v)) => Fulfilled(Some(v))
    case Some(Reject(c, _)) => Thrown(Some(c))
  }

  // The three rejection codes the screen treats as a cancelled prompt,
  // written as the error prefix the native module adds followed by the
  // platform text; the screen compares against the whole strings.
  const CANCELED_FINGERPRINT_BY_USER := ERROR_PREFIX + "Fingerprint operation canceled by user."
  const CANCELED_AUTHENTICATION_BY_USER := ERROR_PREFIX + "Authentication canceled by user."
  const CANCELED_FINGERPRINT := ERROR_PREFIX + "Fingerprint operation canceled."

  /** `e.code == ... || e.code == ... || e.code == ...`: exact equality, no substring test. */
  predicate IsCancellation(code: Option<string>) {
    code.Some? && IsCancelCode(code.value)
  }

  predicate IsCancelCode(code: string) {
    code == CANCELED_FINGERPRINT_BY_USER ||
    code == CANCELED_AUTHENTICATION_BY_USER ||
    code == CANCELED_FINGERPRINT
  }

  /** The platform texts that, behind the error prefix, make those three codes. */
  predicate IsCancelText(text: string) {
    text == "Fingerprint operation canceled by user." ||
    text == "Authentication canceled by user." ||
    text == "Fingerprint operation canceled."
  }

  /** The overlay's visibility once the authenticate await has finished (or not). */
  function ModalAfter(modal: bool, auth: Awaited): (m: bool)
    ensures auth.Fulfilled? ==> !m
    ensures auth.Thrown? ==> (m <==> IsCancellation(auth.code) || modal)
    ensures auth.Thrown? && !IsCancellation(auth.code) ==> m == modal
    ensures auth.NeverSettles? ==> m == modal
    ensures m != modal ==> auth.Fulfilled? || (auth.Thrown? && IsCancellation(auth.code))
  {
    match auth
    case Fulfilled(_) => false
    case Thrown(code) => if IsCancellation(code) then true else modal
    case NeverSettles => modal
  }

  /**
   * A prompt callback leads to a cancellation code exactly when it is the
   * error callback with one of the three cancellation texts.
   */
  lemma CancellationIffErrorText(e: PromptEvent)
    ensures (PromptSettlement(e).Reject? && IsCancellation(Some(PromptSettlement(e).code)))
        <==> e.AuthError? && IsCancelText(e.errString)
  {
    if e.AuthError? {
      assert PromptSettlement(e).code == ERROR_PREFIX + e.errString;
      PrefixedCancelText(e.errString);
    }
  }

  /** Behind the error prefix, the cancellation codes are exactly the cancellation texts. */
  lemma PrefixedCancelText(text: string)
    ensures IsCancelCode(ERROR_PREFIX + text) <==> IsCancelText(text)
  {
    SamePrefixedText(text, "Fingerprint operation canceled by user.");
    SamePrefixedText(text, "Authentication canceled by user.");
    SamePrefixedText(text, "Fingerprint operation canceled.");
  }

  /** Two texts behind the error prefix give the same code only if they are the same text. */
  lemma SamePrefixedText(text: string, t: string)
    ensures ERROR_PREFIX + text == ERROR_PREFIX + t <==> text == t
  {
    assert (ERROR_PREFIX + text)[|ERROR_PREFIX|..] == text;
    assert (ERROR_PREFIX + t)[|ERROR_PREFIX|..] == t;
  }

  /** A failed availability check never raises the overlay, whatever its status. */
  lemma AvailabilityRefusalKeepsOverlay(status: int, modal: bool)
    requires Gate(Some(status)).Refuse?
    ensures ModalAfter(modal, AwaitOf(Some(Reject(Gate(Some(status)).id, Gate(Some(status)).id)))) == modal
  {
  }

  /** An unmatched read (`authentication_failed`) never changes the overlay. */
  lemma UnmatchedReadKeepsOverlay(modal: bool)
    ensures ModalAfter(modal, AwaitOf(Some(PromptSettlement(AuthFailed)))) == modal
  {
  }

  /** The user dismissing the prompt raises the overlay. */
  lemma DismissalRaisesOverlay(modal: bool, errorCode: int)
    ensures ModalAfter(modal, AwaitOf(Some(PromptSettlement(AuthError(errorCode, "Authentication canceled by user."))))) == true
  {
    CancellationIffErrorText(AuthError(errorCode, "Authentication canceled by user."));
  }

  /** A text merely containing "canceled by user" is not a cancellation: the overlay stays as it was. */
  lemma OtherCancelTextKeepsOverlay(modal: bool, errorCode: int)
    ensures ModalAfter(modal, AwaitOf(Some(PromptSettlement(AuthError(errorCode, "Face operation canceled by user."))))) == modal
  {
    CancellationIffErrorText(AuthError(errorCode, "Face operation canceled by user."));
  }

  /** The carousel's items, by id. */
  const CAROUSEL_IDS: seq<string> := ["01", "02", "03"]
  const CAROUSEL_LENGTH: int := |CAROUSEL_IDS|

  /** The interval's choice: wrap to 0 after the last item, otherwise the next one. */
  function NextIndex(active: int, len: int): (next: int)
    ensures 0 <= active < len ==> 0 <= next < len
    ensures next == 0 <==> active == len - 1 || active == -1
    ensures next != 0 ==> next == active + 1
  {
    if active == len - 1 then 0 else active + 1
  }

  /** The index after `k` ticks of the interval, starting from `start`. */
  function AdvanceFrom(start: int, k: nat, len: int): (i: int)
    decreases k
  {
    if k == 0 then start else NextIndex(AdvanceFrom(start, k - 1, len), len)
  }

  /**
   * Starting from the first item, the interval visits the items cyclically:
   * it stays in range, reaches item `k` after `k` ticks, and repeats every
   * `len` ticks.
   */
  lemma {:induction false} AdvanceCycles(k: nat, len: int)
    requires len > 0
    ensures 0 <= AdvanceFrom(0, k, len) < len
    ensures k < len ==> AdvanceFrom(0, k, len) == k
    ensures AdvanceFrom(0, k + len, len) == AdvanceFrom(0, k, len)
  {
    if k == 0 {
      AdvanceWithinFirstRound(len - 1, len);
    } else {
      AdvanceCycles(k - 1, len);
      assert AdvanceFrom(0, k + len, len) == NextIndex(AdvanceFrom(0, k - 1 + len, len), len);
    }
  }

  /** Within the first `len` ticks from item 0, tick `k` shows item `k`. */
  lemma {:induction false} AdvanceWithinFirstRound(k: nat, len: int)
    requires k < len
    ensures AdvanceFrom(0, k, len) == k
  {
    if k > 0 {
      AdvanceWithinFirstRound(k - 1, len);
    }
  }

  const ACTIVE_DOT := "#F79D20"
  const IDLE_DOT := "#D0D0D0"

  /** renderDotIndicators: one dot per item, highlighted when its index is the active one. */
  function DotColours(n: nat, active: int): (cs: seq<string>)
    ensures |cs| == n
    ensures forall i :: 0 <= i < n ==> (cs[i] == ACTIVE_DOT <==> i == active)
    ensures forall i :: 0 <= i < n ==> cs[i] == ACTIVE_DOT || cs[i] == IDLE_DOT
  {
    seq(n, i => if i == active then ACTIVE_DOT else IDLE_DOT)
  }

  /** How many entries of `s` equal `c`. */
  function Occurrences(s: seq<string>, c: string): nat {
    if s == [] then 0 else Occurrences(s[..|s| - 1], c) + (if s[|s| - 1] == c then 1 else 0)
  }

  /** Exactly one dot is highlighted when the active index is in range, none otherwise. */
  lemma {:induction false} OneHighlightedDot(n: nat, active: int)
    ensures Occurrences(DotColours(n, active), ACTIVE_DOT) == if 0 <= active < n then 1 else 0
  {
    if n > 0 {
      OneHighlightedDot(n - 1, active);
      assert DotColours(n, active)[..n - 1] == DotColours(n - 1, active);
    }
  }

  /** The position getItemLayout gives an item of a list laid out in pages of `width`. */
  datatype ItemLayout = ItemLayout(length: real, offset: real, index: int)

  function GetItemLayout(width: real, index: int): (l: ItemLayout)
    ensures l.index == index && l.length == width
  {
    ItemLayout(width, width * index as real, index)
  }

  /** Consecutive items are laid out edge to edge. */
  lemma ItemsAreAdjacent(width: real, index: int)
    ensures GetItemLayout(width, index + 1).offset ==
      GetItemLayout(width, index).offset + GetItemLayout(width, index).length
  {
    assert (index + 1) as real == index as real + 1.0;
  }

  /** Over the reals, handleScroll's `offset / width` maps an item's laid-out offset back to its index. */
  lemma ScrollIndexOfLayout(width: real, index: int)
    requires width > 0.0
    ensures GetItemLayout(width, index).offset / width == index as real
  {
  }

  /**
   * The screen's component state: `activeIndex`, `modalVisible` (the lock
   * overlay) and `biometric` (the modality the probe reported).
   */
  class Screen {
    var activeIndex: int
    var modalVisible: bool
    var biometric: string

    constructor ()
      ensures activeIndex == 0 && !modalVisible && biometric == ""
    {
      activeIndex := 0;
      modalVisible := false;
      biometric := "";
    }

    /**
     * biometricAuth: await the probe, recording its value only if it
     * resolved, then — whatever the probe did — await authenticate and set
     * the overlay from its outcome. A probe that never settles stops the flow.
     */
    method BiometricAuth(probe: Awaited, auth: Awaited)
      modifies this
      ensures activeIndex == old(activeIndex)
      ensures biometric == if probe.Fulfilled? then probe.value.GetOr("") else old(biometric)
      ensures modalVisible ==
        if probe.NeverSettles? then old(modalVisible) else ModalAfter(old(modalVisible), auth)
    {
      if probe.NeverSettles? {
        return;
      }
      if probe.Fulfilled? {
        biometric := probe.value.GetOr("");
      }
      modalVisible := ModalAfter(modalVisible, auth);
    }

    /** handleModalButtonPress ("Unlock now"): hide the overlay, then run the flow again. */
    method HandleModalButtonPress(probe: Awaited, auth: Awaited)
      modifies this
      ensures activeIndex == old(activeIndex)
      ensures biometric == if probe.Fulfilled? then probe.value.GetOr("") else old(biometric)
      ensures modalVisible == (!probe.NeverSettles? && ModalAfter(false, auth))
      ensures auth.Thrown? && !IsCancellation(auth.code) ==> !modalVisible
    {
      modalVisible := false;
      BiometricAuth(probe, auth);
    }

    /** backAction: the hardware back press is consumed while the overlay is shown. */
    function BackAction(): (consumed: bool)
      reads this
      ensures consumed <==> modalVisible
    {
      if modalVisible then true else false
    }

    /** One interval tick: scroll to the next item, which the scroll handler then reports. */
    method AutoAdvance()
      modifies this
      ensures activeIndex == NextIndex(old(activeIndex), CAROUSEL_LENGTH)
      ensures modalVisible == old(modalVisible) && biometric == old(biometric)
    {
      activeIndex := NextIndex(activeIndex, CAROUSEL_LENGTH);
    }

    /** handleScroll, with the page index already computed from the offset. */
    method HandleScroll(page: int)
      modifies this
      ensures activeIndex == page
      ensures modalVisible == old(modalVisible) && biometric == old(biometric)
    {
      activeIndex := page;
    }
  }

  /**
   * Mount, then a dismissed prompt, then "Unlock now" with a successful
   * retry: the overlay is shown after the dismissal and hidden at the end,
   * and back presses are consumed only in between.
   */
  method DismissThenUnlock(errorCode: int) returns (shownAfterDismissal: bool, shownAtEnd: bool)
    ensures shownAfterDismissal && !shownAtEnd
  {
    var screen := new Screen();
    CancellationIffErrorText(AuthError(errorCode, "Authentication canceled by user."));
    var dismissed := AwaitOf(Some(PromptSettlement(AuthError(errorCode, "Authentication canceled by user."))));
    screen.BiometricAuth(Fulfilled(Some(FINGERPRINT)), dismissed);
    shownAfterDismissal := screen.BackAction();
    screen.HandleModalButtonPress(Fulfilled(Some(FINGERPRINT)), AwaitOf(Some(PromptSettlement(AuthSucceeded))));
    shownAtEnd := screen.BackAction();
  }
}
