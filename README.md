# Ethereum wallet generator — display logic and state machine

A Dafny model of the wallet generator page (`components/wallet-generator.tsx`).
The page asks a key library for a fresh address and private key, then shows
them. The private key is masked unless the user reveals it. Each value has a
copy button whose check mark disappears after a display window. A hint
under the faucet links shows the address in short form.

The project has three modules:

- `JsString` (`js_string.dfy`) models the JavaScript string operations the
  page relies on. `Slice` follows `String.prototype.slice`: a negative
  bound counts from the end, and a bound out of range is clamped. `Repeat`
  follows `String.prototype.repeat`.
- `WalletDisplay` (`wallet_display.dfy`) models `maskPrivateKey`: the
  first 10 characters, 40 `•`, and the last 10 characters. It also models
  the address abbreviation in the faucet hint: the first 6 characters,
  `...`, and the last 4. Lemmas cover prefixes, suffixes and lengths. They
  show that the middle of a long key never appears in the mask, and that
  the mask of a key of 20 characters or fewer shows every character. A key
  shorter than 10 characters appears in full on both sides of the mask.
- `WalletController` (`wallet_controller.dfy`) models the component's four
  state variables: `wallet`, `copiedField`, `showPrivateKey` and
  `isGenerating`. Each event is a pure transition on a `Snapshot` of that
  state. The class `WalletGenerator` holds the same fields, and each of its
  methods is proved to perform exactly its transition. The two delayed
  callbacks (the 300 ms generation callback and the 2000 ms check-mark
  reset) are events of their own. The generation callback has two
  outcomes: it installs the supplied pair, or the key library throws and
  no state is set. Two counters of pending callbacks stand for the
  browser's timer queue. The invariant `Inv` holds in every reachable
  state:
  - at most one generation is pending, and only while `isGenerating`
    holds (after a throw, `isGenerating` stays set with none pending);
  - a check mark is shown only while a reset is still scheduled;
  - nothing is shown or copied before the first wallet.

Three behaviours of the code as written are proved rather than corrected:

- The key is hidden when generation starts, not when the new wallet is
  installed. A toggle during the delay therefore shows the new key in
  clear (`ToggleDuringGenerationRevealsNewKey`, `RevealDuringRegeneration`).
- A check-mark reset clears the mark whatever field it shows, so a reset
  scheduled by an earlier copy removes the mark of a later copy early
  (`EarlierResetClearsLaterCopy`).
- If the key library throws inside the generation callback, `isGenerating`
  is never cleared and the generate button stays disabled for good
  (`FailedGenerationIsStuck`).

Nothing in the model generates keys. The key pair is a parameter of the
generation callback. The outcome of the clipboard write is a boolean
parameter of the copy.

## Model

| member | source | states |
|---|---|---|
| `JsString.Slice` | components/wallet-generator.tsx:55 | the result is never longer than `s`; the `slice` semantics (negative bounds counted from the end, clamping) are in the definition and stated by `SliceHead` and `SliceTail` |
| `JsString.SliceFrom` | components/wallet-generator.tsx:181 | `s.slice(start)`: the end bound defaults to the length; never longer than `s` |
| `JsString.Repeat` | components/wallet-generator.tsx:55 | `c.repeat(n)` has length `n` and every character is `c` |
| `JsString.SliceHead` | components/wallet-generator.tsx:55 | `s.slice(0, n)` is the first `min(n, |s|)` characters |
| `JsString.SliceTail` | components/wallet-generator.tsx:55 | `s.slice(-n)` for `n > 0` is the last `min(n, |s|)` characters, the whole string when shorter |
| `WalletDisplay.MaskPrivateKey` | components/wallet-generator.tsx:54-56 | the mask begins with the first `min(|k|,10)` and ends with the last `min(|k|,10)` characters of the key; exactly 40 `•` sit between them; length `2·min(|k|,10) + 40` |
| `WalletDisplay.AbbreviateAddress` | components/wallet-generator.tsx:181 | the hint keeps the first `min(|a|,6)` and last `min(|a|,4)` characters of the address with `...` between them |
| `WalletDisplay.MaskDependsOnlyOnEnds` | components/wallet-generator.tsx:55 | two keys of at least 10 characters that agree on their first 10 and last 10 characters have the same mask |
| `WalletDisplay.MaskHidesMiddle` | components/wallet-generator.tsx:55 | changing any character at positions 10 to `|k|-11` leaves the mask unchanged |
| `WalletDisplay.MaskRevealsShortKey` | components/wallet-generator.tsx:55 | for a key of at most 20 characters, every character of the key appears in the mask's visible ends |
| `WalletDisplay.MaskOfShortKey` | components/wallet-generator.tsx:55 | a key shorter than 10 characters masks to the key, 40 `•`, then the key again |
| `WalletDisplay.MaskOfStandardKey` | components/wallet-generator.tsx:55 | a 66-character key (`0x` and 64 hex digits) masks to 60 characters: `k[..10]`, 40 `•`, `k[56..]` |
| `WalletDisplay.AbbreviationOfStandardAddress` | components/wallet-generator.tsx:181 | a 42-character address abbreviates to 13 characters: `a[..6] + "..." + a[38..]` |
| `WalletController.Initial` | components/wallet-generator.tsx:28-31 | the mounted component has no wallet, no check mark, the key hidden, not generating, and satisfies `Inv` |
| `WalletController.Started` | components/wallet-generator.tsx:33-36 | while generating the click changes nothing (button disabled at :71); otherwise it sets `isGenerating`, hides the key and schedules one callback; wallet, check mark and pending resets are unchanged; preserves `Inv` |
| `WalletController.Finished` | components/wallet-generator.tsx:38-45 | the callback installs exactly the supplied pair and clears `isGenerating`; `showPrivateKey` and `copiedField` are unchanged; preserves `Inv` |
| `WalletController.GenerationFailed` | components/wallet-generator.tsx:38-45 | the callback throws at :39, so :40-44 never run: only the pending callback is used up, `isGenerating` and every other field stay as they were; preserves `Inv` |
| `WalletController.Copied` | components/wallet-generator.tsx:48-51 | a successful write sets `copiedField` to the field and schedules one reset; a failed write changes nothing; no other field or pending generation changes; preserves `Inv` |
| `WalletController.CopyCleared` | components/wallet-generator.tsx:51 | a firing reset sets `copiedField` to none whatever it held and changes no other field or pending generation; preserves `Inv` |
| `WalletController.Toggled` | components/wallet-generator.tsx:118 | the toggle flips `showPrivateKey` and changes no other field, pending callbacks included; preserves `Inv` |
| `WalletController.DisplayedPrivateKey` | components/wallet-generator.tsx:116 | the raw key when `showPrivateKey` holds, and exactly `MaskPrivateKey` of the key otherwise |
| `WalletController.HiddenKeyShowsTenEachEnd` | components/wallet-generator.tsx:116 | a hidden key of 10 or more characters is displayed as 60 characters that begin with its first 10 and end with its last 10 |
| `WalletController.HiddenKeyShowsOnlyEnds` | components/wallet-generator.tsx:116 | for a hidden key of 21 or more characters, changing any character at positions 10 to `|k|-11` leaves the 60-character display unchanged |
| `WalletController.FailedGenerationIsStuck` | components/wallet-generator.tsx:38-45 | after the callback throws, `isGenerating` stays set with no callback pending and a generate click changes nothing |
| `WalletController.AfterResets` | components/wallet-generator.tsx:51 | firing `n` scheduled resets leaves `n` fewer pending; if `n > 0` the check mark is cleared, otherwise it is kept; wallet, visibility, `isGenerating` and pending generations are unchanged |
| `WalletController.CheckMarkReverts` | components/wallet-generator.tsx:48-51 | from any reachable state, once every scheduled reset has fired no check mark is shown |
| `WalletController.ToggleTwice` | components/wallet-generator.tsx:118 | two toggles restore the state exactly |
| `WalletController.NewWalletShownMasked` | components/wallet-generator.tsx:33-45 | start then completion with no toggle between shows exactly the supplied pair, key masked |
| `WalletController.ToggleDuringGenerationRevealsNewKey` | components/wallet-generator.tsx:35-44 | a toggle between start and completion of a regeneration leaves the new key shown in clear |
| `WalletController.EarlierResetClearsLaterCopy` | components/wallet-generator.tsx:51 | copy address, copy private key, first reset fires: no check mark is shown, though the second copy's reset is still pending |
| `WalletController.WalletGenerator.constructor` | components/wallet-generator.tsx:28-31 | the four state variables start as `null`, `null`, `false`, `false` |
| `WalletController.WalletGenerator.Generate` | components/wallet-generator.tsx:33-36 | the object's new state is `Started` of its old state; the invariant is kept |
| `WalletController.WalletGenerator.FinishGeneration` | components/wallet-generator.tsx:38-45 | the new state is `Finished` of the old one with the supplied pair; the invariant is kept |
| `WalletController.WalletGenerator.FailGeneration` | components/wallet-generator.tsx:38-45 | the new state is `GenerationFailed` of the old one; the wallet is kept and `isGenerating` stays set |
| `WalletController.WalletGenerator.Copy` | components/wallet-generator.tsx:48-51 | returns the text written to the clipboard (the address or the private key); the new state is `Copied` of the old one |
| `WalletController.WalletGenerator.ResetCopied` | components/wallet-generator.tsx:51 | the new state is `CopyCleared` of the old one; `copiedField` is none |
| `WalletController.WalletGenerator.ToggleVisibility` | components/wallet-generator.tsx:118 | the new state is `Toggled` of the old one |
| `WalletController.RevealDuringRegeneration` | components/wallet-generator.tsx:33-51 | on a fresh component, generate, regenerate, toggle, complete: the screen shows the second key in clear, and copying puts that key on the clipboard |

## Left out

- Key generation (`ethers.Wallet.createRandom()`, components/wallet-generator.tsx:39) is a foreign library. Its output pair is a parameter of `FinishGeneration`, and its throwing is the event `FailGeneration`. The randomness, secp256k1 and the address derivation are not modelled.
- The clipboard write (`navigator.clipboard.writeText`) is browser I/O. Only its success or failure is modelled, as a boolean.
- The `await` in `copyToClipboard` is not a suspension point in the model. The copy completes as one event, so other events cannot interleave between the click and the check mark.
- The 300 ms and 2000 ms delays of `setTimeout` are not modelled as durations. Each callback is an event the caller fires explicitly, and nothing forces it to fire.
- React's batching and stale closures are not modelled: each event sees the state left by the previous one. Two toggle clicks within one render would both write the same value in the browser.
- `copiedField` is a string in the source. Only the two values the page passes (`"address"`, `"privateKey"`) exist in the model, as `Field`.
- JSX rendering, CSS, icons and the static `FAUCETS` list are presentation. The page wrapper (`app/page.tsx`) and the status endpoint (`app/api/oracle/route.ts`) hold no logic and are not part of this model.
- Strings are sequences of `char`. JavaScript strings are UTF-16 code units, so characters outside the Basic Multilingual Plane are not modelled. Keys and addresses are ASCII, and `•` is one code unit.
