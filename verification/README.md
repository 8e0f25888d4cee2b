# Chip purchase client: a Dafny model

A model of the logic layer of a Telegram Mini App in which a player buys
in-club chips with USDT paid from a TON wallet, and a club owner inspects
their clubs and withdraws funds. The model covers the sequential, stateful
logic under the React views:

- the purchase step machine `form → packages → summary → success | error`
  (plus `withdraw`), with its input guards, its payment-request guards and the
  withdraw call (`PurchaseFlow`);
- the owner dashboard's club index and its stats cache (`OwnerDashboard`),
  and what the owner card shows (`OwnerSelector`);
- the wallet-proof reconciliation: payload request, verification of each new
  proof, and disconnect on failure (`WalletConnection`);
- the package picker's price, range hint and selection gates
  (`PackagesSection`);
- the summary totals and club card (`SummarySection`), and the lookup form's
  club preview (`FormSection`);
- the withdraw form's validation chain and state changes, inline
  (`WithdrawSection`) and as a modal (`WithdrawModal`);
- URL and text helpers: `getApiUrl` (`ApiConfig`), `resolveLogoUrl`
  (`LogoUrl`), and the title translation (`TranslatedTitle`);
- the chat hook's message-list reducers and reconnect schedule
  (`ChatReducers`).

Every state is an immutable record and every handler is a pure function from
the old state (and its inputs) to the new one. What the backend, the wallet,
the chain or storage answer is a parameter of the handler, so each lemma holds
for every possible answer. A handler that awaits a call is split in two: a
`…Start` up to the call, which also returns the request it issues, and a
`…Finish` that takes the call's outcome. Shared pieces live in three helper
modules:

- `Js`: JavaScript values the handlers branch on. These are optional values,
  numbers with NaN and the infinities, truthiness, and the
  `error.message || fallback` idiom. Finite numbers are exact reals, and
  `Math.round` is `floor(x + 0.5)`.
- `Text`: `trim` with the full ECMAScript whitespace set, `startsWith`,
  `indexOf`, and `String.prototype.replace` with a string pattern (first
  occurrence only, including `$` replacement patterns). It also has `String(n)`
  for integers, proved injective.
- `Types`: the records of `src/types.ts`.

`resolveLogoUrl` appears twice in the source, in
`src/components/SummarySection.tsx:24-34` and
`src/components/FormSection.tsx:17-27`. The two texts are identical, so
`LogoUrl.ResolveLogoUrl` is defined once and serves both screens; their
equality on all inputs holds by construction.

### Where the code works against itself

Each point below rests on evidence inside the source: one part of the code
does something another part does not expect. The model follows the code, and
the lemma named in each point makes the mismatch explicit.

- **Form submit uses a fixed preview.** The live submit
  (`src/App.tsx:169-183`) stores a hard-coded preview: always allowed, 0.01
  USDT per chip, packages 100/500/1000/5000, member balance 0. The backend
  lookup with its "not allowed" branch sits commented out next to it. `PurchaseFlow.FormSubmit`
  therefore never reaches `error`.
- **A package's USDT price is read as chips.** The package click converts
  the chip count to USDT before calling `onAmountSelect`
  (`src/components/PackagesSection.tsx:55-60`). The rest of the flow reads
  that value as a chip count. The summary shows it in its chips field
  (`src/components/SummarySection.tsx:48`, `:84-85`). The payment converts it
  from chips to USDT a second time (`src/App.tsx:278-280`, `:312`).
  `PurchaseFlow.PackageSelectionIsReadAsChips` follows the 500-chip package
  through: it is priced 5 USDT, the summary credits 5 chips at a shown price
  of 0, and the transfer is 0.05 USDT instead of the 5 USDT on the button.
- **Retry keeps the old choice.** Retry after an error only changes the step
  (`PurchaseFlow.RetryKeepsPreviousChoice`). The preview, selection and ids
  are not discarded.
- **Inputs are persisted untrimmed.** `persistInputs` captures the field
  values of the render that ran the submit, so storage receives the untrimmed
  inputs while the flow keeps the trimmed ones
  (`PurchaseFlow.SubmitPersistsUntrimmedInputs`).
- **A proof can be verified twice.** A proof is not verified "at most once":
  when verification fails and the backend disconnect succeeds, the remembered
  proof is cleared, so the same proof is verified again on its next arrival
  (`WalletConnection.ReverifyIff`).
- **A failed withdrawal ends in a second, uncaught error.** The form's
  `catch` sets the inline error and then calls `onError(errorMessage)`
  (`src/components/WithdrawSection.tsx:76-80`). `App` renders the form without
  an `onError` (`src/App.tsx:620-626`), so that call throws a `TypeError`
  inside the `catch`, and the submit's promise rejects unhandled. The inline
  error is already set by then, and the shared error screen is never reached.
  `WithdrawSection.SubmitFinish` returns the message handed to `onError`; the
  `TypeError` itself is not modelled.
- **Zero and NaN selections pass the payment guard.** The app stores the
  selected amount as the text `String(amount)`, which is never empty, so
  `!selectedAmount` only catches "no selection". A selection of 0 or NaN still
  requests a transaction (`PurchaseFlow.FalsyNumbersStillSelect`).

## Model

| member | source | states |
|---|---|---|
| ApiConfig.GetApiUrl | src/config/api.config.ts:4-8 | the URL begins with the base (plus `/` when the base has no trailing one) and ends with the path (plus a leading `/` when it has none); its length is the sum less the at most one dropped slash per side |
| ApiConfig.LeadingSlashIrrelevant | src/config/api.config.ts:5-7 | a path with one leading `/` and the same path without it give the same URL |
| TranslatedTitle.GetTranslatedTitle | src/components/hooks/useTranslatedTitle.ts:6-11 | a title not starting with "Чемпионшип" is returned unchanged |
| TranslatedTitle.PrefixReplaced | src/components/hooks/useTranslatedTitle.ts:7-8 | a title starting with the word becomes the translation followed by the rest of the title, of length \|title\| − \|word\| + \|translation\| (translation free of `$`) |
| TranslatedTitle.LaterOccurrencesKept | src/components/hooks/useTranslatedTitle.ts:8 | only the first occurrence is replaced: each later occurrence of the word is still there, shifted by the length difference |
| TranslatedTitle.DollarPatternExpands | src/components/hooks/useTranslatedTitle.ts:8 | the translation is a `replace` replacement text: `$&` in it re-inserts the matched word |
| LogoUrl.BaseCdn | src/components/SummarySection.tsx:25 | the CDN base is `cdnUrl`, or the default CDN when empty, with at most one trailing `/` removed |
| LogoUrl.ResolveLogoUrl | src/components/SummarySection.tsx:24-34 | an empty or missing logo gives the default avatar under the CDN base; an `http:`/`https:` logo (any case) is kept; any other is joined to the base with at most one leading `/` removed |
| LogoUrl.BaseCdnKeepsScheme | src/components/SummarySection.tsx:25 | removing the trailing slash keeps an absolute CDN URL absolute |
| LogoUrl.ResolvedLogoIsAbsolute | src/components/SummarySection.tsx:24-34 | with the default or an absolute CDN, every logo resolves to an absolute `http(s):` URL |
| LogoUrl.ResolveIdempotent | src/components/SummarySection.tsx:24-34 | resolving an already resolved logo gives the same URL |
| FormSection.Preview | src/components/FormSection.tsx:41-44 | the preview card shows iff the club is locked, its id non-empty and club data present; title falls back to `Клуб <id>` then empty; id falls back to the typed one; logo falls back to the default avatar |
| FormSection.ShownPreviewIsLabelled | src/components/FormSection.tsx:41-44 | a shown preview card always has a non-empty title and a truthy id |
| SummarySection.ParseIntOfNumber | src/components/SummarySection.tsx:48 | `parseInt` of a number's text is finite exactly for finite numbers and then cuts toward zero |
| SummarySection.ComputeTotals | src/components/SummarySection.tsx:48-50 | an empty selection gives 0 chips; a present one gives `parseInt` of its text, so the chip amount is whole; balance after = member balance + amount; price = the rounded product; NaN propagates |
| SummarySection.AmountIsWholePart | src/components/SummarySection.tsx:48-50 | for a non-negative selection the credited chips are its whole part and the balance grows by exactly that |
| SummarySection.NegativeAmountRoundsUp | src/components/SummarySection.tsx:48-50 | a negative selection is cut toward zero: the chips lie at or above it and less than one above, and the balance moves by exactly that |
| SummarySection.NonFiniteSelectionGivesNaN | src/components/SummarySection.tsx:48-50 | a NaN or infinite selection gives NaN chips, price and balance after |
| SummarySection.Card | src/components/SummarySection.tsx:56-70 | the club card exists iff club data does; it shows the resolved logo, the title or `Клуб` when it is falsy, and `ID клуба: <id>` for a truthy id, empty otherwise |
| SummarySection.CardAgreesWithFormPreview | src/components/SummarySection.tsx:56-70 | the summary card and the form's preview card show the same logo, the same title for a titled club and the same id for a club with an id; an untitled club is `Клуб` on one and `Клуб <typed id>` on the other |
| PackagesSection.PackagePrice | src/components/PackagesSection.tsx:105-107 | a package price is a whole number of cents within half a cent of chips × price per chip |
| PackagesSection.PackagePriceExactOnCents | src/components/PackagesSection.tsx:57-58 | a product that is already whole cents is shown exactly |
| PackagesSection.CentPerChipPrice | src/components/PackagesSection.tsx:57-58 | at 0.01 per chip, n chips cost exactly n/100 |
| PackagesSection.CustomRangeParts | src/components/PackagesSection.tsx:86-95 | the range hint lists minimum, maximum and step in that order, each present iff truthy and carrying its value |
| PackagesSection.Render | src/components/PackagesSection.tsx:37-107 | nothing renders without sale terms; otherwise one option per quick package, in order, with its cent-rounded price |
| PackagesSection.PackageClick | src/components/PackagesSection.tsx:51-62 | without a wallet only a connection is requested; with one the package is highlighted and its USDT price handed over |
| PackagesSection.ClickHandsOverShownPrice | src/components/PackagesSection.tsx:51-62 | every listed package, clicked with a wallet, hands over exactly the price its button shows and highlights that package |
| PackagesSection.CustomSubmit | src/components/PackagesSection.tsx:64-84 | without a wallet only a connection is requested; an empty, NaN or non-positive amount selects nothing; otherwise the parsed amount is handed over unchanged and the package highlight cleared |
| PackagesSection.CustomAmountNotClamped | src/components/PackagesSection.tsx:76-83 | an amount above the advertised maximum is handed over as typed |
| WithdrawSection.Validate | src/components/WithdrawSection.tsx:47-64 | user id, then amount, then balance: each message is given iff the earlier checks pass and its own fails; acceptance iff all pass, with the trimmed user id |
| WithdrawSection.UserIdRejectedIffBlank | src/components/WithdrawSection.tsx:50-53 | the user-id message is given exactly for an all-whitespace user id |
| WithdrawSection.BalanceBoundary | src/components/WithdrawSection.tsx:61-64 | an unknown balance never blocks and the whole balance may be withdrawn |
| WithdrawSection.SubmitStart | src/components/WithdrawSection.tsx:47-70 | `onWithdraw` is called iff validation accepts, with the trimmed user id; a refusal sets the inline error and calls nothing |
| WithdrawSection.LoadBalanceStart | src/components/WithdrawSection.tsx:33-35 | loading starts and the error is cleared; the fields and balance are kept |
| WithdrawSection.LoadBalanceFinish | src/components/WithdrawSection.tsx:36-44 | a loaded balance is stored; a failure forgets the balance and sets its message or the default; loading ends |
| WithdrawSection.SubmitFinish | src/components/WithdrawSection.tsx:69-81 | success clears the fields, reports success and reloads the balance; failure sets the error and hands the same message to `onError` |
| WithdrawSection.Activate | src/components/WithdrawSection.tsx:27-31 | the balance is requested iff the section is active for a non-empty club, and then loading starts; otherwise nothing changes |
| WithdrawSection.ActivationLoadSettles | src/components/WithdrawSection.tsx:27-45 | after activation and any answer, loading is off, the typed fields and success message are kept; a balance is stored with the error cleared, a failure forgets it and sets an error |
| WithdrawSection.FailedWithdrawKeepsInput | src/components/WithdrawSection.tsx:76-81 | a failed withdrawal keeps the typed user id and amount |
| WithdrawModal.SubmitStart | src/components/WithdrawModal.tsx:45-65 | the same verdicts as the inline form; an accepted submit sets the submitting flag and calls `onWithdraw` with the trimmed id |
| WithdrawModal.Close | src/components/WithdrawModal.tsx:78-83 | closing clears user id, amount and error and invokes `onClose` |
| WithdrawModal.SubmitFinish | src/components/WithdrawModal.tsx:67-75 | success closes the modal (fields cleared, `onClose` invoked); failure keeps everything but the error; submitting ends |
| WithdrawModal.LoadBalanceStart | src/components/WithdrawModal.tsx:31-33 | loading starts and the error is cleared |
| WithdrawModal.LoadBalanceFinish | src/components/WithdrawModal.tsx:34-42 | a failed balance load sets the balance to null and an error |
| WithdrawModal.Open | src/components/WithdrawModal.tsx:25-29 | the balance is requested iff the modal is open for a non-empty club, and then loading starts; otherwise nothing changes |
| WithdrawModal.OpenLoadSettles | src/components/WithdrawModal.tsx:25-43 | after opening and any answer, loading is off and the typed fields and submitting flag are kept; a balance is stored with the error cleared, a failure forgets it and sets an error |
| WithdrawModal.SameChecksAsSection | src/components/WithdrawModal.tsx:48-62 | modal and inline form issue the same call and show the same error for every input |
| WithdrawModal.SubmittingBracketsTheCall | src/components/WithdrawModal.tsx:64-75 | the submitting flag is on while the call runs and off after either outcome |
| OwnerSelector.RendersNothing | src/components/OwnerSelector.tsx:46-48 | the card renders nothing only while clubs are unloaded and there is no message |
| OwnerSelector.ButtonDisabled | src/components/OwnerSelector.tsx:55-56 | the button is disabled without a selection (id 0 is one) or while stats load |
| OwnerSelector.ShowsStatsCard | src/components/OwnerSelector.tsx:90 | the stats card is shown only for stats the backend allowed |
| OwnerSelector.Hint | src/components/OwnerSelector.tsx:50-53 | the selector message wins; else "choose a club" when there are clubs; else "no clubs" |
| OwnerSelector.OptionLabel | src/components/OwnerSelector.tsx:74 | `title (id)` for a titled club, `Клуб id` otherwise |
| OwnerSelector.UntitledLabelsDistinct | src/components/OwnerSelector.tsx:72-76 | untitled clubs with different ids get different labels |
| OwnerSelector.PaymentPlayer | src/components/OwnerSelector.tsx:127-129 | the player cell starts with the label and shows the dash for a missing id, the id's text otherwise |
| OwnerSelector.DashOnlyForMissingId | src/components/OwnerSelector.tsx:127-129 | the dash is shown iff the payment has no (truthy) account id |
| OwnerDashboard.IndexByShortId | src/App.tsx:367-373 | the index has exactly the keys `String(short_id)` of the loaded clubs |
| OwnerDashboard.IndexOn | src/App.tsx:369-372 | storing clubs under a list of keys gives an index whose keys are exactly the listed ones |
| OwnerDashboard.IndexOnHoldsLast | src/App.tsx:369-372 | under a key sits the club stored with it last: a later club with the same key overwrites an earlier one |
| OwnerDashboard.IndexHoldsLastClub | src/App.tsx:369-372 | under a club's key sits that club whenever no later club shares the key: later duplicates overwrite earlier ones |
| OwnerDashboard.IndexKeepsDistinctClubs | src/App.tsx:367-373 | with distinct ids every loaded club is found under its own key |
| OwnerDashboard.LoadOwnerClubs | src/App.tsx:341-386 | no auth data: no change; any failure: empty list and index, loaded, a non-empty message; success: the clubs and their index, no message |
| OwnerDashboard.FetchStatsStart | src/App.tsx:388-405 | a falsy id or a load in progress is a no-op; a cache hit shows the cached stats with no request; a miss clears the stats and requests |
| OwnerDashboard.FetchStatsFinish | src/App.tsx:406-438 | only an ok and allowed reply is cached; no key is removed; refused and failed replies set their messages; loading ends |
| OwnerDashboard.SelectClub | src/App.tsx:443-454 | selecting shows the cached stats of a truthy cached id, else none |
| OwnerDashboard.OpenClub | src/App.tsx:456-460 | opening fetches for a truthy selection only |
| OwnerDashboard.SecondOpenIsServedFromCache | src/App.tsx:394-401 | after one allowed fetch, opening the same club again is served from the cache without a request |
| OwnerDashboard.CacheInvariantPreserved | src/App.tsx:420-428 | every dashboard operation keeps "every cached entry is allowed", and no fetch removes a key |
| OwnerDashboard.CardRendersAfterLoad | src/components/OwnerSelector.tsx:46-48 | once a load with auth data settles, the owner card renders |
| OwnerDashboard.ZeroSelectionOpensNothing | src/components/OwnerSelector.tsx:55-56 | a selected id 0 enables the button, yet opening does nothing |
| OwnerDashboard.RefusedStatsStayHidden | src/components/OwnerSelector.tsx:90 | a refused stats reply is stored but the stats card stays hidden and its reason becomes the hint |
| WalletConnection.ConnectStart | src/components/hooks/useTonWalletConnection.ts:15-19 | requesting a payload sets the generating flag, clears the error and puts the parameters in the loading state |
| WalletConnection.ConnectFinish | src/components/hooks/useTonWalletConnection.ts:22-137 | a truthy payload becomes the proof request; a missing one sets the error with the response text, a throw its message or the default, both resetting the parameters to null; generating ends |
| WalletConnection.ConnectSettles | src/components/hooks/useTonWalletConnection.ts:15-137 | after a whole connect the parameters are never left loading, generating is off, the error is clear iff a payload arrived, and the proof state is untouched |
| WalletConnection.Disconnect | src/components/hooks/useTonWalletConnection.ts:140-150 | without a wallet nothing happens; otherwise the wallet is told to disconnect and the last proof is cleared only if the backend call succeeds |
| WalletConnection.StatusChangeStart | src/components/hooks/useTonWalletConnection.ts:153-182 | no wallet: disconnect; no proof or the last proof again: nothing; a new proof is recorded and the error cleared before verification is requested |
| WalletConnection.StatusChangeFinish | src/components/hooks/useTonWalletConnection.ts:182-194 | a result other than `success === true`, or a throw, disconnects and sets the error; connecting ends whatever happened |
| WalletConnection.StatusChange | src/components/hooks/useTonWalletConnection.ts:153-196 | after a proof event the connecting flag is down or nothing changed, and the remembered proof is that proof or cleared |
| WalletConnection.ProofVerifiedOnce | src/components/hooks/useTonWalletConnection.ts:163-170 | unless a failed verification was followed by a successful disconnect, the same proof arriving again is ignored |
| WalletConnection.SameProofReverifiedAfterDisconnect | src/components/hooks/useTonWalletConnection.ts:140-150 | after a failed verification and a successful disconnect the same proof is verified again |
| WalletConnection.ReverifyIff | src/components/hooks/useTonWalletConnection.ts:163-191 | the same proof is verified a second time iff the first verification failed and its disconnect reached the backend |
| PurchaseFlow.Initial | src/App.tsx:74-84 | the flow starts on the form, with the initial ids and no preview or selection |
| PurchaseFlow.InitFromStorage | src/App.tsx:109-122 | an empty, unlocked field is filled from a non-empty stored value; nothing else changes |
| PurchaseFlow.PersistInputs | src/App.tsx:124-131 | exactly the non-empty fields are written, each under its key |
| PurchaseFlow.MockPreview | src/App.tsx:169-183 | the stored preview is allowed, titled `Клуб <club>`, at 0.01 per chip with packages 100/500/1000/5000 and member balance 0 |
| PurchaseFlow.FormSubmit | src/App.tsx:155-201 | a blank trimmed account, or a blank club (trimmed unless locked), changes nothing and writes nothing; otherwise the trimmed ids and the mock preview are stored, the step becomes packages, and the untrimmed inputs are persisted |
| PurchaseFlow.SubmitPersistsUntrimmedInputs | src/App.tsx:124-131 | for every input, a refused submit writes nothing; an accepted one writes the account as typed, and every written value trims to the id the flow stored (a locked club is written exactly as stored) |
| PurchaseFlow.ResubmitKeepsIds | src/App.tsx:155-165 | submitting the stored ids again keeps them: they are already trimmed |
| PurchaseFlow.InitFromStorageIdempotent | src/App.tsx:109-122 | restoring from the same storage a second time changes nothing |
| PurchaseFlow.HasSelection | src/App.tsx:296 | only a missing selection is falsy: the stored `String(amount)` is never empty |
| PurchaseFlow.FalsyNumbersStillSelect | src/App.tsx:295-308 | a selection of 0 or NaN with a connected wallet still requests a transaction for that amount; without a wallet it shows the wallet error |
| PurchaseFlow.AmountSelect | src/App.tsx:239-242 | the amount is stored and the step becomes summary; nothing else changes |
| PurchaseFlow.SummaryBack | src/App.tsx:244-246 | back to packages with preview and selection untouched |
| PurchaseFlow.ErrorRetry | src/App.tsx:332-334 | retry changes only the step, to form |
| PurchaseFlow.ConfirmStart | src/App.tsx:295-308 | no selection: no-op; no wallet or address: the wallet error with no contacts and no payment; otherwise loading and a payment for the selected amount |
| PurchaseFlow.ConfirmFinish | src/App.tsx:309-329 | success: the fixed message and step success; a throw: its message or the default, no contacts, step error; loading ends |
| PurchaseFlow.SendPaymentRequest | src/App.tsx:248-293 | missing ids throw before any request; the transaction is requested with the Telegram id or the default; no client, address or comment throws; otherwise chips × 0.01 USDT go to the comment's address with its memo |
| PurchaseFlow.Confirm | src/App.tsx:295-330 | a payment is made iff there is a selection and a connected wallet with an address, and its outcome decides the final step |
| PurchaseFlow.SuccessOnlyAfterTransfer | src/App.tsx:295-330 | success is reached only through a sent and confirmed transfer of selection × 0.01 USDT from a connected wallet; any other attempt with a selection ends on the error screen |
| PurchaseFlow.RetryKeepsPreviousChoice | src/App.tsx:332-334 | after a failed confirm, retry returns to the form with preview, selection, ids and error message intact |
| PurchaseFlow.PackageSelectionIsReadAsChips | src/App.tsx:278-314 | the 500-chip package hands over 5 (USDT), the summary credits 5 chips at price 0, and the transfer is 0.05 USDT |
| PurchaseFlow.HandleWithdraw | src/App.tsx:468-482 | without a club it throws before any call; otherwise it sends the request and succeeds iff the reply reports success, else throws the reply's message or the default |
| PurchaseFlow.RefusedWithdrawHasMessage | src/App.tsx:479-481 | a refused withdrawal always carries a non-empty message |
| ChatReducers.NormalizeReactions | src/components/hooks/useWebSocket.ts:35-40 | exactly the four reaction keys, each the raw count or 0 |
| ChatReducers.NormalizeReactionsIdempotent | src/components/hooks/useWebSocket.ts:35-40 | normalising already normalised reactions changes nothing |
| ChatReducers.NormalizeMessage | src/components/hooks/useWebSocket.ts:42-45 | a message keeps its id, time and content and gets normalised reactions |
| ChatReducers.AddIfAbsent | src/components/hooks/useWebSocket.ts:47-52 | a listed id leaves the list unchanged; otherwise the message is appended at the end |
| ChatReducers.AddIfAbsentKeepsIdsUnique | src/components/hooks/useWebSocket.ts:47-52 | appending keeps message ids unique |
| ChatReducers.HandleNewMessage | src/components/hooks/useWebSocket.ts:86-89 | a new message is normalised and appended if absent, growing the list by at most one |
| ChatReducers.Bump | src/components/hooks/useWebSocket.ts:63-70 | `added` adds one to that type; `removed` subtracts one but not below 0, leaving other types; any other status changes nothing |
| ChatReducers.HandleSingleReaction | src/components/hooks/useWebSocket.ts:60-76 | messages with the id get their counts bumped; every other message is unchanged |
| ChatReducers.CountsStayNonNegative | src/components/hooks/useWebSocket.ts:66-70 | non-negative counts stay non-negative under any reaction event |
| ChatReducers.AddedThenRemovedRestoresCount | src/components/hooks/useWebSocket.ts:66-70 | `added` then `removed` restores a count |
| ChatReducers.UpdateMessageReactions | src/components/hooks/useWebSocket.ts:54-58 | messages with the id get the given reactions as they are; others are unchanged |
| ChatReducers.HandleReaction | src/components/hooks/useWebSocket.ts:91-97 | id, type and status present: the single-reaction path; else id and reactions present: bulk replace; with no id, or an id with neither, the list is unchanged |
| ChatReducers.ReactionKeepsIds | src/components/hooks/useWebSocket.ts:91-97 | no reaction event adds, removes or reorders messages |
| ChatReducers.Insert | src/components/hooks/useWebSocket.ts:80-82 | inserting into a sorted list keeps it sorted and adds exactly that message |
| ChatReducers.SortByCreation | src/components/hooks/useWebSocket.ts:80-82 | the result is sorted ascending by creation time and a permutation of the input |
| ChatReducers.HandleMessageHistory | src/components/hooks/useWebSocket.ts:78-84 | the new list is the normalised history, sorted ascending by creation time |
| ChatReducers.HistoryKeepsEveryMessage | src/components/hooks/useWebSocket.ts:78-84 | the new list holds every history message, normalised, and nothing else |
| ChatReducers.OnOpen | src/components/hooks/useWebSocket.ts:169-173 | opening resets the attempt counter and the error |
| ChatReducers.OnClose | src/components/hooks/useWebSocket.ts:182-193 | an unclean close under the limit counts an attempt and schedules a reconnect after 2^attempts × 1000 ms; at the limit the error is set and nothing is scheduled |
| ChatReducers.FirstRetryAfterOpen | src/components/hooks/useWebSocket.ts:169-189 | after a successful open the next unclean close retries after 2000 ms, as attempt 1 |
| ChatReducers.ReconnectSchedule | src/components/hooks/useWebSocket.ts:185-189 | the i-th of consecutive unclean closes from a given attempt count reconnects after 2^(attempts+i+1) × 1000 ms, so 2, 4, 8, 16 and 32 s from a fresh connection |
| ChatReducers.ReconnectFinalState | src/components/hooks/useWebSocket.ts:185-192 | consecutive unclean closes schedule at most five reconnects, count exactly those as attempts, and set the error exactly when more closes arrive than reconnects were left |
| ChatReducers.ErrorStaysAtLimit | src/components/hooks/useWebSocket.ts:190-192 | at the limit further closes schedule nothing and keep the error |
| Text.TrimEmptyIffBlank | src/components/WithdrawSection.tsx:50 | `trim()` gives the empty string exactly for all-whitespace input |

## Left out

- Network, storage and wallet I/O are not modelled: `fetch`, the wallet-service calls, `localStorage`, and the TonConnect UI. Their results are parameters; `safeStorage` reduces to the list of writes `persistInputs` makes.
- `ConnectFinish` does not model the timer-driven modal opening and its shadow-DOM button fallbacks (`useTonWalletConnection.ts:38-125`). These are DOM and timer side effects, so the "could not open the window" error they may set later is not modelled either.
- Chain interaction is left out: the jetton-wallet lookup, `sendTransfer` and its fees, and `calculateUsdtAmount`, whose helper file is not part of this model. `PurchaseFlow.SendPaymentRequest` stops at the transfer request, with its amount in USDT, and takes the chain's outcome as a parameter.
- `PurchaseFlow.SendPaymentRequest` keeps the account and club ids as typed; the `Number(...)` conversion the backend call applies is not modelled.
- Floating point is not modelled: finite numbers are exact reals. `chips * 0.01`, `Math.round(x * 100) / 100` and `Math.round(amount * price)` are therefore exact, and no IEEE rounding is claimed.
- `SummarySection.ParseIntOfNumber` treats `parseInt(String(x))` as truncation toward zero. JavaScript prints very large and very small numbers in exponent notation, where `parseInt` stops at the `e`; that case is not modelled.
- Text parsing of user input (`Number(amount)`, `parseFloat(customAmount)`) is a parameter: the handlers take the parsed number alongside the text.
- Formatting is left out (`toLocaleString`, `formatDateTime`), and so are JSON parsing and serialisation. A proof is an already serialised string, a message timestamp is the integer it parses to, and the payload-missing message takes the response's JSON text as a parameter.
- The chat socket's lifecycle is left out: `connect`, `disconnect`, `sendMessage`, `sendReaction`, the `onmessage` dispatch and the `onerror` handler. They are event-driven I/O around the reducers.
- `ChatReducers.NormalizeReactions` uses the keys `like`, `dislike`, `heart` and `smile` as written. The reaction-type enum that names them is in a file that is not part of this model.
- `ChatReducers.SortByCreation` is an insertion sort that keeps equal timestamps in input order, like the stable `Array.prototype.sort`; that stability is not stated as a lemma. An unparsable `created_at` (NaN comparisons) is not modelled.
- `ChatReducers.HandleMessageHistory` sorts with `SortByCreation`, so it too states order and contents but not the stable order of messages with equal timestamps.
- The unreachable `catch` of the live form submit (`src/App.tsx:193-198`) is not modelled: nothing in its `try` block can throw.
- `WalletConnection.StatusChange` models one listener handling one event, with its verification settled before the next event. The hook calls `onStatusChange` on every run of its effect (`src/components/hooks/useTonWalletConnection.ts:152-204`), and the effect's cleanup does not unsubscribe, so listeners accumulate and each event may be handled several times. `hookWallet` is the wallet seen by the closure that fires, which may be stale. Repeated disconnects, and events that arrive while a verification is awaited, are not modelled.
- The `return null` of a hidden withdraw form or a closed modal (`src/components/WithdrawSection.tsx:92-94`, `src/components/WithdrawModal.tsx:85`) is rendering; the balance effect that runs with it is `WithdrawSection.Activate` and `WithdrawModal.Open`.
- Rendering and styling are left out: JSX, `ErrorSection`, `SuccessSection`, the admin deposit/withdraw buttons (`src/App.tsx:520-579`), and the success-screen reload.
- Bootstrap and configuration are left out: `main.tsx`, `init.ts`, `vite.config.ts`, `useTelegram` and the TON client context. The Telegram user id is a parameter of the payment, and the API base URL is a parameter of `ApiConfig.GetApiUrl`.
