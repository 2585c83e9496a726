# Signature board: a Dafny model

This project models the signature board of the "be-sovereign" landing page
(`components/sign-section.tsx`). Visitors sign a declaration there. The board
keeps seven pieces of state: the list of signatures, a loading flag, the draft
name and message, a submitting flag, and the wallet's connected flag and
address. Four handlers change that state:

- checking for an already-authorised wallet;
- connecting a wallet;
- loading the list from the signature store;
- submitting the draft to the store.

The page renders the state as a header count, a wallet row, the form
controls and a list panel of signature cards.

Modules, one concern each:

- `Wrappers` (`wrappers.dfy`): `Option`, for fields that may be `undefined` or `null`.
- `JsText` (`js_text.dfy`): the ECMAScript string operations the component
  calls: `trim` (over the ECMAScript WhiteSpace and LineTerminator code
  points), `slice` with negative indices and clamping, and string truthiness
  (`s || fallback`, `o || undefined`).
- `Signatures` (`signatures.dfy`): the `Signature` record and the JSON shapes
  of the store's list and create calls. It also holds the wallet outcome, the
  requests and other effects a handler produces, the create body built from
  the draft, and the failure notice.
- `SignView` (`sign_view.dfy`): the render rules. These cover the header
  count and label, the wallet badge, the form's disabled rules and labels,
  the list panel (placeholders, empty state, or at most ten cards plus a
  "more" line) and each signature card.
- `SignBoard` (`sign_board.dfy`): class `Board`, with the seven state fields
  and one method per handler. Each method runs to completion. What the
  handler awaits is a parameter: the store's reply, a thrown error, or the
  wallet's accounts. What it does outside the board comes back as an
  `Effects` value: the request it makes, the `alert` it shows, the line it
  logs, and the delay of a scheduled reload.

The object invariant `Board.Valid()` says that a wallet is connected exactly
when an address is held. Every handler keeps it. `Board.WalletRow` relies on
it: a connected board always holds an address, so the badge is always built
from it and never from a missing one. It reduces to the bare prefix and
ellipsis only when the wallet reported an empty address.

Three behaviours of the code that the model keeps as written:

- `loadSignatures` sets `loading` on every call, refreshes included
  (`components/sign-section.tsx:76`), so a refresh in flight shows the
  placeholders too, not only the first load. `Board.BeginLoad` states this
  for the state the board is in while the reply is awaited.
- `submitSignature` never reads `submitting`. Its only guard is the blank
  name (line 91). Only the disabled button (line 232) stops a second
  submission. The model's `SubmitSignature` has no such guard either.
  `SignView.EnabledSubmitPassesGuard` states what the button adds.
- A failed wallet check or connect leaves the wallet fields as they were
  (lines 46-51, 62-67). It does not reset them to "disconnected".

## Model

| member | source | states |
|---|---|---|
| SignBoard.Board.constructor | components/sign-section.tsx:26-32 | The initial state: no signatures, loading, empty draft, nothing in flight, no wallet. The wallet invariant holds. |
| SignBoard.Board.SetName | components/sign-section.tsx:205-213 | Typing sets the name to exactly the typed value and keeps the invariant. |
| SignBoard.Board.SetMessage | components/sign-section.tsx:220-227 | Typing sets the message to exactly the typed value and keeps the invariant. |
| SignBoard.Board.AdoptFirstAccount | components/sign-section.tsx:46-49 | A non-empty account list connects the wallet with its first address. An empty one changes nothing. |
| SignBoard.Board.CheckWallet | components/sign-section.tsx:40-54 | With a provider it asks `eth_accounts`. It connects the first account exactly when the answer lists one. Otherwise the wallet fields keep their values. A thrown error is logged; there is never a notice. Without a provider nothing happens. |
| SignBoard.Board.ConnectWallet | components/sign-section.tsx:56-72 | Like CheckWallet, but asks `eth_requestAccounts`. Without a provider it only shows the "No wallet detected" notice and leaves the wallet fields alone. |
| SignBoard.Board.Valid | components/sign-section.tsx:47-48 | The wallet is connected exactly when an address is held; lines 47-48 and 63-64 set the two together. Every handler requires and keeps it. |
| SignBoard.Board.BeginLoad | components/sign-section.tsx:76-77 | `loading` goes up on every load and the list is requested. While the reply is awaited the panel shows the four placeholders, whatever list the board already holds. |
| SignBoard.Board.SettleLoad | components/sign-section.tsx:78-86 | An `ok` reply replaces the list, and a missing list reads as empty. Any other outcome keeps the list. Only a thrown error is logged. `loading` ends false. |
| SignBoard.Board.LoadSignatures | components/sign-section.tsx:74-87 | The two halves in sequence. Always requests the list. An `ok` reply replaces the list, and a missing list reads as empty. A not-`ok` reply or a thrown error keeps the old list. Only a thrown error is logged; a not-`ok` reply is silent. `loading` is false afterwards. |
| SignBoard.Board.SubmitSignature | components/sign-section.tsx:89-120 | A blank name leaves all seven fields unchanged and has no effect. Otherwise it posts the create body. On `ok`: the draft is cleared, the thank-you notice shows and one reload is scheduled after 2000 ms. On not-`ok`: the draft is kept and the notice carries the store's reason or "Failed to submit". On a throw: the draft is kept and the notice is "Error submitting signature". `submitting` ends false. The list and the wallet are never touched. |
| SignBoard.Board.StartSubmission | components/sign-section.tsx:91-102 | A body is built exactly when the name is not blank. Then `submitting` goes up, the body is `SubmissionBody` of the draft and the connected address, and while the reply is awaited the inputs and the button are locked and the button reads "Signing...". A blank name changes nothing. |
| SignBoard.Board.SettleSubmission | components/sign-section.tsx:95-119 | Posting a body produces exactly the effects `SubmissionEffects` gives for the reply. An accepted post clears the name and the message; any other outcome keeps both. `submitting` ends false. |
| SignBoard.Board.WalletRow | components/sign-section.tsx:186-198 | On a board that keeps its invariant, the wallet row is the connect button exactly when no wallet is connected. Otherwise it is the badge with the held address's first six and last four characters around "...". |
| SignBoard.Board.Mount | components/sign-section.tsx:34-38 | Mounting loads the list, then checks the wallet. The resulting state combines the two handlers, and the draft is untouched. Both requests are made. Only a thrown load or a thrown wallet check is logged, and mounting never shows a notice or schedules a reload. |
| Signatures.SubmissionBody | components/sign-section.tsx:98-102 | The body carries the trimmed name, which is empty exactly when the name is blank. It carries the trimmed message only when the message is not blank. It carries the connected address only when that is present and non-empty. |
| Signatures.SubmissionBodyIgnoresPadding | components/sign-section.tsx:99-100 | Whitespace before or after the typed name or message, each padding chosen independently, never changes the body sent. |
| Signatures.SubmissionBodyIsStable | components/sign-section.tsx:98-102 | Typing back a sent body as a draft sends the same body. |
| Signatures.SubmissionEffects | components/sign-section.tsx:95-117 | A submission always posts the body to `/api/signatures` and always shows exactly one notice. It schedules a reload, 2000 ms later, exactly when the reply is `ok`; then the notice is the thank-you text and nothing is logged. A not-`ok` reply shows the failure notice; a thrown error is logged and shows "Error submitting signature". |
| Signatures.FailureNotice | components/sign-section.tsx:112 | The notice is "Error: " followed by the store's reason when that is present and non-empty, and by "Failed to submit" otherwise. |
| Signatures.Adopted | components/sign-section.tsx:79-81 | A load adopts a list exactly on an `ok` reply: the returned list, or the empty list when the field is absent. |
| Signatures.FirstAccount | components/sign-section.tsx:41-48 | A wallet yields an address exactly when the provider is present, answers, and lists at least one account. The address is the first one. |
| SignView.HeaderOf | components/sign-section.tsx:173-175 | The count is the list's length. The label is "Signatory" exactly for one signature and "Signatories" otherwise, zero included. |
| SignView.WalletControlOf | components/sign-section.tsx:186-198 | The badge shows exactly when connected. It shows the first six and last four characters of the address, or all of a shorter address, around "...". |
| SignView.FormControlsOf | components/sign-section.tsx:211-240 | The inputs are locked exactly while submitting. Submit is disabled exactly while submitting or while the name is blank. The label reads "Signing..." exactly while submitting. |
| SignView.ExplorerLink | components/sign-section.tsx:317 | The link is the explorer's transaction base followed by the hash. The hash can be recovered from the link. |
| SignView.CardOf | components/sign-section.tsx:295-328 | A card shows the name and the timestamp. The message, the wallet (first eight characters and "...") and the verify link each show exactly when their field is present and non-empty. The link is the explorer's transaction base followed by the hash. |
| SignView.CardsOf | components/sign-section.tsx:279-281 | One card per signature, in order. |
| SignView.PanelOf | components/sign-section.tsx:263-288 | While loading: exactly four placeholders. Otherwise: the empty state for no signatures, else cards for the first min(n, 10) signatures in order, with a "more" line exactly when n > 10. The cards plus the "more" count add up to n. |
| SignView.EnabledSubmitPassesGuard | components/sign-section.tsx:230-232 | An enabled submit button means nothing is in flight and the name passes the handler's blank check. The name sent is then non-empty. |
| SignView.HeaderAgreesWithPanel | components/sign-section.tsx:173-175 | Once loaded, the empty state shows exactly when the header counts zero, and then the label is "Signatories". Otherwise the header count equals the cards shown plus the "more" count (lines 279-286). |
| SignView.SubmittedSignatureCard | components/sign-section.tsx:306-314 | Suppose the store keeps an accepted draft with the fields it was sent. Its card then shows the trimmed name, and the trimmed message exactly when the draft message was not blank. It shows the wallet exactly when a non-empty address was connected, and then as the address's first eight characters followed by "...". |
| JsText.IsWhitespace | components/sign-section.tsx:91 | The code points `trim` removes: ECMAScript's WhiteSpace (tab, vertical tab, form feed, space, no-break space, zero-width no-break space, the space separators) and LineTerminator (LF, CR, LS, PS). Used at lines 91, 99-100 and 232. |
| JsText.Trim | components/sign-section.tsx:91 | `trim` never lengthens a string, and a non-empty result neither starts nor ends with whitespace. |
| JsText.TrimEmptyIffBlank | components/sign-section.tsx:91 | `trim` gives the empty string exactly for a blank string, so `!name.trim()` is the blank-name test. |
| JsText.SkipBlanks | components/sign-section.tsx:91 | The scan stops at the first non-whitespace character at or after the start, and everything it skips is whitespace. |
| JsText.BackOverBlanks | components/sign-section.tsx:91 | The scan stops just after the last non-whitespace character, and everything it skips is whitespace. |
| JsText.TrimOfPadded | components/sign-section.tsx:99-100 | A core that neither starts nor ends with whitespace survives `trim` unchanged, whatever blank padding surrounds it. |
| JsText.TrimOfCore | components/sign-section.tsx:99-100 | A string that neither starts nor ends with whitespace is its own trim. |
| JsText.TrimIgnoresPadding | components/sign-section.tsx:99-100 | Whitespace added around any string does not change its trim. |
| JsText.TrimIdempotent | components/sign-section.tsx:99-100 | Trimming twice is trimming once. |
| JsText.SliceIndex | components/sign-section.tsx:188 | A `slice` index is clamped to the length, and a negative one counts back from the end. |
| JsText.Slice | components/sign-section.tsx:188 | `slice` returns the elements between the two resolved indices, in order, or nothing when they cross. |
| JsText.OrElse | components/sign-section.tsx:112 | `s \|\| fallback` keeps a non-empty string and replaces the empty one. |
| JsText.SliceFrom | components/sign-section.tsx:188 | `s.slice(start)`: from the clamped start to the end, and for a negative start the last `-start` elements (all of a shorter sequence). |
| JsText.Truthy | components/sign-section.tsx:101 | An optional string is truthy exactly when present and non-empty; the test of lines 101, 306, 310 and 315. |
| JsText.OrUndefined | components/sign-section.tsx:100-101 | `o \|\| undefined` keeps exactly the present, non-empty values. |

## Left out

- Animation: the GSAP/ScrollTrigger setup and teardown (lines 122-162). These are calls into an animation library.
- Markup and styling: CSS classes, element keys, and static copy not tied to state.
- Other files: `components/hero-section.tsx`, `components/colophon-section.tsx`,
  `app/layout.tsx` and `app/page.tsx` are not part of this model. They hold
  static markup, animation and configuration.
- I/O and the browser: the real `fetch` and JSON parsing, the browser wallet
  object and `e.preventDefault()`. Each handler takes the awaited outcome as
  a parameter instead. `alert`, `console.error` and `setTimeout` appear only
  as the notice, log line and reload delay in `Effects`. The logged error
  object itself is not recorded.
- Scheduled reloads: the reload `setTimeout` schedules is not run by the
  model. A caller runs `LoadSignatures` when the delay has passed.
- Concurrency: loading and submitting are each split at their await into
  two methods (`BeginLoad`/`SettleLoad`, `StartSubmission`/`SettleSubmission`),
  so the in-flight state is a board state. Interleavings of other handlers
  between the halves are not modelled: a delayed reload racing a manual
  refresh, a reply arriving after unmount, or a second submission while one
  is in flight.
- SignView.CardOf: the card keeps the raw timestamp. It does not model the
  locale-dependent `toLocaleDateString` formatting (line 303).
- String units: strings are sequences of Unicode code points.
  JavaScript's `slice` counts UTF-16 code units, so the address
  abbreviations differ from the browser's for characters outside the Basic
  Multilingual Plane. Wallet addresses are ASCII, where the two agree.
- Dynamic types: the reply fields are taken to have their declared types
  (`ok` is a boolean, the accounts are strings). JavaScript truthiness of
  other values is not modelled.
