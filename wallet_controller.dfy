/**
 * The state of the wallet generator component and the events that change
 * it: the generate button and the delayed callback that installs the new
 * wallet, the copy buttons and the delayed reset of the "copied" check
 * mark, and the show/hide toggle of the private key.
 *
 * The browser's timer queue is represented by two counters, the number of
 * generation callbacks and of check-mark resets that have been scheduled
 * and have not yet fired; each delayed callback is an event of its own.
 */
module WalletController {
  import opened JsString
  import opened WalletDisplay

  datatype Option<T> = None | Some(value: T)

  /** An address and private key pair as the key library hands it over. */
  datatype WalletData = WalletData(address: string, privateKey: string)

  /** The two values the page offers to copy. */
  datatype Field = Address | PrivateKey

  /** The text a copy button writes to the clipboard. */
  function FieldValue(w: WalletData, f: Field): string
  {
    match f
    case Address => w.address
    case PrivateKey => w.privateKey
  }

  /** Everything the component holds, plus the callbacks still pending. */
  datatype Snapshot = Snapshot(
    wallet: Option<WalletData>,
    copiedField: Option<Field>,
    showPrivateKey: bool,
    isGenerating: bool,
    pendingGenerations: nat,
    pendingResets: nat)

  /**
   * What every reachable state satisfies: at most one generation callback
   * is ever pending, and only while the button shows "Generating..." (the
   * converse fails once a callback has thrown), a check mark is only shown
   * while a reset for it is still scheduled, and before the first wallet
   * nothing can be shown or copied.
   */
  predicate Inv(s: Snapshot)
  {
    s.pendingGenerations <= 1 &&
    (s.pendingGenerations == 1 ==> s.isGenerating) &&
    (s.pendingResets == 0 ==> s.copiedField.None?) &&
    (s.wallet.None? ==> !s.showPrivateKey && s.copiedField.None? && s.pendingResets == 0)
  }

  /** The component as first mounted: no wallet, no flags set, no timers. */
  function Initial(): (r: Snapshot)
    ensures Inv(r)
    ensures r.wallet.None? && r.copiedField.None? && !r.showPrivateKey && !r.isGenerating
  {
    Snapshot(None, None, false, false, 0, 0)
  }

  /**
   * A click on the generate button. While a generation is running the
   * button is disabled and the click does nothing; otherwise the flags
   * are set and the callback is scheduled. The wallet is not touched yet.
   */
  function Started(s: Snapshot): (r: Snapshot)
    ensures Inv(s) ==> Inv(r)
    ensures s.isGenerating ==> r == s
    ensures !s.isGenerating ==> r.isGenerating && !r.showPrivateKey
    ensures !s.isGenerating ==> r.pendingGenerations == s.pendingGenerations + 1
    ensures r.wallet == s.wallet && r.copiedField == s.copiedField && r.pendingResets == s.pendingResets
  {
    if s.isGenerating then s
    else s.(isGenerating := true, showPrivateKey := false,
            pendingGenerations := s.pendingGenerations + 1)
  }

  /**
   * The delayed generation callback, given the pair the key library
   * produced: the new wallet replaces the old one and the busy flag is
   * cleared; the visibility flag and the check mark are left as they are.
   */
  function Finished(s: Snapshot, created: WalletData): (r: Snapshot)
    requires s.pendingGenerations > 0
    ensures Inv(s) ==> Inv(r)
    ensures r.wallet == Some(created) && !r.isGenerating
    ensures r.showPrivateKey == s.showPrivateKey && r.copiedField == s.copiedField
    ensures r.pendingGenerations == s.pendingGenerations - 1 && r.pendingResets == s.pendingResets
  {
    s.(wallet := Some(created), isGenerating := false,
       pendingGenerations := s.pendingGenerations - 1)
  }

  /**
   * The delayed generation callback throwing inside the key library: the
   * callback is used up before any state is set, so the wallet stays as it
   * was and the busy flag stays raised.
   */
  function GenerationFailed(s: Snapshot): (r: Snapshot)
    requires s.pendingGenerations > 0
    ensures Inv(s) ==> Inv(r)
    ensures r.pendingGenerations == s.pendingGenerations - 1
    ensures r.wallet == s.wallet && r.copiedField == s.copiedField && r.pendingResets == s.pendingResets
    ensures r.showPrivateKey == s.showPrivateKey && r.isGenerating == s.isGenerating
  {
    s.(pendingGenerations := s.pendingGenerations - 1)
  }

  /**
   * The end of a copy: when the clipboard write succeeds the check mark
   * moves to `f` and a reset is scheduled; when it fails the rejection
   * escapes and nothing changes.
   */
  function Copied(s: Snapshot, f: Field, writeSucceeds: bool): (r: Snapshot)
    requires s.wallet.Some?
    ensures Inv(s) ==> Inv(r)
    ensures writeSucceeds ==> r.copiedField == Some(f) && r.pendingResets == s.pendingResets + 1
    ensures !writeSucceeds ==> r == s
    ensures r.wallet == s.wallet && r.showPrivateKey == s.showPrivateKey && r.isGenerating == s.isGenerating
    ensures r.pendingGenerations == s.pendingGenerations
  {
    if writeSucceeds then s.(copiedField := Some(f), pendingResets := s.pendingResets + 1)
    else s
  }

  /**
   * A scheduled check-mark reset firing: it clears the check mark
   * whichever field it shows, including one set by a later copy.
   */
  function CopyCleared(s: Snapshot): (r: Snapshot)
    requires s.pendingResets > 0
    ensures Inv(s) ==> Inv(r)
    ensures r.copiedField.None? && r.pendingResets == s.pendingResets - 1
    ensures r.wallet == s.wallet && r.showPrivateKey == s.showPrivateKey && r.isGenerating == s.isGenerating
    ensures r.pendingGenerations == s.pendingGenerations
  {
    s.(copiedField := None, pendingResets := s.pendingResets - 1)
  }

  /** The show/hide button, which exists only once a wallet is shown. */
  function Toggled(s: Snapshot): (r: Snapshot)
    requires s.wallet.Some?
    ensures Inv(s) ==> Inv(r)
    ensures r.showPrivateKey != s.showPrivateKey
    ensures r.wallet == s.wallet && r.copiedField == s.copiedField && r.isGenerating == s.isGenerating
    ensures r.pendingGenerations == s.pendingGenerations && r.pendingResets == s.pendingResets
  {
    s.(showPrivateKey := !s.showPrivateKey)
  }

  /** The private key as the page shows it: in clear, or masked. */
  function DisplayedPrivateKey(s: Snapshot): (shown: string)
    requires s.wallet.Some?
    ensures s.showPrivateKey ==> shown == s.wallet.value.privateKey
    ensures !s.showPrivateKey ==> shown == MaskPrivateKey(s.wallet.value.privateKey)
  {
    if s.showPrivateKey then s.wallet.value.privateKey
    else MaskPrivateKey(s.wallet.value.privateKey)
  }

  /** `n` scheduled check-mark resets firing one after another. */
  function AfterResets(s: Snapshot, n: nat): (r: Snapshot)
    requires n <= s.pendingResets
    ensures r.pendingResets == s.pendingResets - n
    ensures n > 0 ==> r.copiedField.None?
    ensures n == 0 ==> r.copiedField == s.copiedField
    ensures r.wallet == s.wallet && r.showPrivateKey == s.showPrivateKey && r.isGenerating == s.isGenerating
    ensures r.pendingGenerations == s.pendingGenerations
    decreases n
  {
    if n == 0 then s else AfterResets(CopyCleared(s), n - 1)
  }

  /**
   * Once every scheduled reset has fired, no check mark is shown, whatever
   * copies came before: the indicator always reverts.
   */
  lemma CheckMarkReverts(s: Snapshot, n: nat)
    requires Inv(s)
    requires n <= s.pendingResets
    ensures Inv(AfterResets(s, n))
    ensures n == s.pendingResets ==> AfterResets(s, n).copiedField.None?
  {
  }

  /** Two toggles give back the state they started from. */
  lemma ToggleTwice(s: Snapshot)
    requires s.wallet.Some?
    ensures Toggled(Toggled(s)) == s
  {
  }

  /**
   * A hidden key of ten or more characters is shown as 60 characters that
   * keep its first and last ten, and no character between them reaches
   * the screen.
   */
  lemma HiddenKeyShowsOnlyEnds(s: Snapshot, i: nat, c: char)
    requires s.wallet.Some? && !s.showPrivateKey
    requires KeyEndWidth <= i < |s.wallet.value.privateKey| - KeyEndWidth
    ensures |DisplayedPrivateKey(s)| == 2 * KeyEndWidth + MaskWidth
    ensures DisplayedPrivateKey(s) ==
      DisplayedPrivateKey(s.(wallet := Some(s.wallet.value.(privateKey := s.wallet.value.privateKey[i := c]))))
  {
    MaskHidesMiddle(s.wallet.value.privateKey, i, c);
  }

  /**
   * A hidden key of ten or more characters is shown as 60 characters that
   * begin with its first ten and end with its last ten.
   */
  lemma HiddenKeyShowsTenEachEnd(s: Snapshot)
    requires s.wallet.Some? && !s.showPrivateKey
    requires |s.wallet.value.privateKey| >= KeyEndWidth
    ensures var k, shown := s.wallet.value.privateKey, DisplayedPrivateKey(s);
      |shown| == 2 * KeyEndWidth + MaskWidth &&
      shown[..KeyEndWidth] == k[..KeyEndWidth] &&
      shown[|shown| - KeyEndWidth..] == k[|k| - KeyEndWidth..]
  {
  }

  /**
   * When the key library throws, the component is stuck: "Generating..."
   * stays on, no callback is left to clear it, and the generate button
   * ignores every further click.
   */
  lemma FailedGenerationIsStuck(s: Snapshot)
    requires Inv(s) && s.pendingGenerations > 0
    ensures var t := GenerationFailed(s);
      t.isGenerating && t.pendingGenerations == 0 && Started(t) == t
  {
  }

  /**
   * A wallet generated with no toggle during the delay is shown masked.
   */
  lemma NewWalletShownMasked(s: Snapshot, created: WalletData)
    requires Inv(s) && !s.isGenerating
    ensures var t := Finished(Started(s), created);
      t.wallet == Some(created) && DisplayedPrivateKey(t) == MaskPrivateKey(created.privateKey)
  {
  }

  /**
   * The key is hidden when generation starts, not when it ends: a toggle
   * during the delay makes the new private key appear in clear.
   */
  lemma ToggleDuringGenerationRevealsNewKey(s: Snapshot, created: WalletData)
    requires Inv(s) && s.wallet.Some? && !s.isGenerating
    ensures var t := Finished(Toggled(Started(s)), created);
      t.wallet == Some(created) && DisplayedPrivateKey(t) == created.privateKey
  {
  }

  /**
   * A reset scheduled by an earlier copy clears the check mark of a later
   * copy of the other field before that copy's own display window ends.
   */
  lemma EarlierResetClearsLaterCopy(s: Snapshot)
    requires Inv(s) && s.wallet.Some?
    ensures var t := CopyCleared(Copied(Copied(s, Address, true), PrivateKey, true));
      t.copiedField.None? && t.pendingResets == s.pendingResets + 1
  {
  }

  /** The component instance: its four state variables and its timer queue. */
  class WalletGenerator {
    var wallet: Option<WalletData>
    var copiedField: Option<Field>
    var showPrivateKey: bool
    var isGenerating: bool
    /** Generation callbacks scheduled and not yet run. */
    var pendingGenerations: nat
    /** Check-mark resets scheduled and not yet run. */
    var pendingResets: nat

    function State(): Snapshot
      reads this
    {
      Snapshot(wallet, copiedField, showPrivateKey, isGenerating, pendingGenerations, pendingResets)
    }

    predicate Valid()
      reads this
    {
      Inv(State())
    }

    constructor ()
      ensures Valid() && State() == Initial()
    {
      wallet := None;
      copiedField := None;
      showPrivateKey := false;
      isGenerating := false;
      pendingGenerations := 0;
      pendingResets := 0;
    }

    /** `generateWallet`, reached through the generate button. */
    method Generate()
      requires Valid()
      modifies this
      ensures Valid() && State() == Started(old(State()))
      ensures !old(isGenerating) ==> isGenerating && !showPrivateKey && wallet == old(wallet)
    {
      if !isGenerating {
        isGenerating := true;
        showPrivateKey := false;
        pendingGenerations := pendingGenerations + 1;
      }
    }

    /** The generation callback firing with the pair the key library produced. */
    method FinishGeneration(created: WalletData)
      requires Valid() && pendingGenerations > 0
      modifies this
      ensures Valid() && State() == Finished(old(State()), created)
      ensures wallet == Some(created) && !isGenerating
      ensures showPrivateKey == old(showPrivateKey) && copiedField == old(copiedField)
    {
      wallet := Some(created);
      isGenerating := false;
      pendingGenerations := pendingGenerations - 1;
    }

    /** The generation callback firing and the key library throwing in it. */
    method FailGeneration()
      requires Valid() && pendingGenerations > 0
      modifies this
      ensures Valid() && State() == GenerationFailed(old(State()))
      ensures isGenerating && wallet == old(wallet)
    {
      pendingGenerations := pendingGenerations - 1;
    }

    /**
     * `copyToClipboard` for one of the two fields, with the outcome of the
     * clipboard write supplied; returns the text handed to the clipboard.
     */
    method Copy(field: Field, writeSucceeds: bool) returns (text: string)
      requires Valid() && wallet.Some?
      modifies this
      ensures Valid() && State() == Copied(old(State()), field, writeSucceeds)
      ensures text == FieldValue(wallet.value, field)
      ensures writeSucceeds ==> copiedField == Some(field)
      ensures !writeSucceeds ==> copiedField == old(copiedField)
    {
      text := FieldValue(wallet.value, field);
      if writeSucceeds {
        copiedField := Some(field);
        pendingResets := pendingResets + 1;
      }
    }

    /** A check-mark reset firing. */
    method ResetCopied()
      requires Valid() && pendingResets > 0
      modifies this
      ensures Valid() && State() == CopyCleared(old(State()))
      ensures copiedField.None?
    {
      copiedField := None;
      pendingResets := pendingResets - 1;
    }

    /** The show/hide button next to the private key. */
    method ToggleVisibility()
      requires Valid() && wallet.Some?
      modifies this
      ensures Valid() && State() == Toggled(old(State()))
      ensures showPrivateKey == !old(showPrivateKey)
    {
      showPrivateKey := !showPrivateKey;
    }
  }

  /**
   * A session on a fresh component: generate, regenerate, reveal the old
   * key while the second generation is pending. The second key is then
   * on screen in clear, and copying it puts exactly that key on the
   * clipboard.
   */
  method RevealDuringRegeneration(first: WalletData, second: WalletData) returns (shown: string, copied: string)
    ensures shown == second.privateKey
    ensures copied == second.privateKey
  {
    var c := new WalletGenerator();
    c.Generate();
    c.FinishGeneration(first);
    c.Generate();
    c.ToggleVisibility();
    c.FinishGeneration(second);
    shown := DisplayedPrivateKey(c.State());
    copied := c.Copy(PrivateKey, true);
  }
}
