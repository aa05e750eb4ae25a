# Raffle client: view-state controller

This project models the controller of a browser client for an on-chain raffle. The
controller is the `App` component in `frontend/src/App.tsx`. It keeps one view-state
record: the connected account, the network name, whether the wallet is on Sepolia, the
raffle data (ticket price in wei and in ether, owner, entrants), the player's stats,
a loading flag, a status line and a winner banner. Its async handlers change that
record step by step: on page load, on "connect", after each raffle or stats read,
and around the two transactions (join, pick winner). The page derives from the record
whether the account owns the raffle, whether it has already entered, which buttons
can be clicked, the join button's label, and the alert text shown when a transaction
fails.

Layout:

- `wrappers.dfy` (module `Wrappers`): `Option` and `Result`.
- `text.dfy` (module `Text`): ASCII `toLowerCase`, the case-insensitive address
  comparison and a reference definition of "equal up to letter case". It also has
  `BigNumber.toString` as base-10 rendering, with its read-back round trip.
- `view.dfy` (module `View`): the state record and every derived value, with lemmas.
- `sync.dfy` (module `Sync`): pure functions giving what each awaited read does to
  the record once it settles, with lemmas. These functions specify the handlers.
- `app.dfy` (module `App`): class `RaffleApp`. It has one field per state hook, and
  one method per handler that assigns the fields in the order the setters run.

Every wallet or contract call is a parameter of the handler that awaits it. The
parameter carries what the call resolved with, or the error it threw. This covers:

- whether a wallet is injected (`hasWallet`);
- the network;
- the account list;
- the joined raffle read;
- the stats contract, as a function from address to result (`statsOf`);
- the submission and the confirmation of a transaction;
- the signer's address.

The ghost field `suspended` records the state on screen at each await of a wallet or
contract call. The awaits of `getProvider()` are not recorded. This is how
the transaction handlers state that `loading` is set on every screen shown while they
wait. With `View.LoadingDisablesButtons`, it follows that neither button can be
clicked during a transaction. That disabled state is the code's only guard against a
second submission.

Some behaviours of the code that a reader might not expect, all modelled as written:

- Neither transaction handler rejects a call made while another is in flight. No
  "operation in progress" error exists; the only guard is the buttons' disabled state.
- The account is stored exactly as the wallet returns it, not lower-cased. Matching
  against the owner and the entrants lowers both sides at comparison time.
- A failed or rejected connect request is only logged. It sets no failure status.
- A failed raffle read at first load does set the error status. The status line is
  rendered only inside the raffle-data card, so the page still shows the "no data yet"
  card (`Sync.LotteryFailureVisibleOnlyWithStaleData`).
- After a confirmed transaction, the success text is set and is then overwritten with
  an empty status by the successful refresh (`Sync.RefreshOverwritesSuccessStatus`).
- Errors are not sorted into kinds. The alert shows the first non-empty of the
  error's `reason`, its `message`, or a fixed fallback text.
- An empty account list on "connect" sets the account to undefined, modelled as
  absent. It disconnects (`Sync.EmptyAccountListDisconnects`). On page load, an empty
  list leaves the account as it was.
- The model uses JavaScript truthiness (`View.Truthy`). An empty account string counts
  as no account, both for the derived values and for the `if (!addr) return` guard of
  the stats read.

## Model

| member | source | states |
|---|---|---|
| `Text.Lower` | frontend/src/App.tsx:219 | `toLowerCase` keeps the length and lowers each character; the result contains no upper-case ASCII letter |
| `Text.SameAddress` | frontend/src/App.tsx:219 | the comparison `a.toLowerCase() === b.toLowerCase()`; `Text.SameAddressIff` proves it is equality up to letter case |
| `Text.SameAddressIff` | frontend/src/App.tsx:219 | comparing lowered addresses is exactly equality up to letter case (the reference relation `EqualIgnoringCase`), in both directions |
| `Text.LowerIdempotent` | frontend/src/App.tsx:219 | lowering an already lowered address changes nothing |
| `Text.SameAddressIgnoresCase` | frontend/src/App.tsx:225 | changing the letter case of either side never changes a case-insensitive comparison |
| `Text.SameAddressEquivalence` | frontend/src/App.tsx:225 | the comparison is reflexive, symmetric and transitive |
| `Text.Decimal` | frontend/src/App.tsx:110 | the wei price and the stats counters are rendered as at least one decimal digit, with no leading zero |
| `Text.ParseDecimalOfDecimal` | frontend/src/App.tsx:164 | the wei string sent with `enter` reads back as exactly the integer price read from the contract |
| `Text.DecimalInjective` | frontend/src/App.tsx:143-144 | distinct counts never render as the same string |
| `View.AnyMatches` | frontend/src/App.tsx:224-226 | `players.some(...)` holds iff some entrant equals the account up to case |
| `View.IsOwner` | frontend/src/App.tsx:216-219 | the isOwner expression with JavaScript truthiness; `View.IsOwnerIff` and `View.IsOwnerIgnoresCase` state its meaning |
| `View.AccountIsPlayer` | frontend/src/App.tsx:221-226 | the accountIsPlayer expression; `View.AccountIsPlayerIff`, `View.AccountIsPlayerIgnoresOrder` and `View.AccountIsPlayerIgnoresCase` state its meaning |
| `View.JoinDisabled` | frontend/src/App.tsx:300 | the join button's `disabled` expression; `View.JoinEnabledIff` states when it is enabled |
| `View.PickWinnerDisabled` | frontend/src/App.tsx:310 | the pick-winner button's `disabled` expression; `View.PickWinnerEnabledImplies` states when it is enabled and what that implies |
| `View.JoinClickable` | frontend/src/App.tsx:273-306 | join is on the page (raffle data loaded) and not disabled; `View.LoadingDisablesButtons` and `View.ClickableExcludesConnect` state its properties |
| `View.PickWinnerClickable` | frontend/src/App.tsx:273-314 | pick-winner is on the page and not disabled; `View.LoadingDisablesButtons` and `View.ClickableExcludesConnect` state its properties |
| `View.ConnectShown` | frontend/src/App.tsx:246-262 | the connect button is shown while no account is known; `View.ClickableExcludesConnect` and `Sync.EmptyAccountListDisconnects` state its properties |
| `View.StatusVisible` | frontend/src/App.tsx:317 | the status line shows only inside the raffle-data card and only when non-empty; `Sync.LotteryFailureVisibleOnlyWithStaleData` states its consequence |
| `View.IsOwnerIff` | frontend/src/App.tsx:216-219 | isOwner holds iff a non-empty account and raffle data are both present and account and owner agree up to letter case |
| `View.IsOwnerIgnoresCase` | frontend/src/App.tsx:216-219 | changing the letter case of the account or of the owner never changes isOwner |
| `View.AccountIsPlayerIff` | frontend/src/App.tsx:221-226 | accountIsPlayer holds iff a non-empty account and raffle data are present and some entrant equals the account up to case |
| `View.AccountIsPlayerIgnoresOrder` | frontend/src/App.tsx:224-226 | two entrant lists with the same members, in any order and with any repetition, give the same accountIsPlayer |
| `View.AccountIsPlayerIgnoresCase` | frontend/src/App.tsx:221-226 | changing the letter case of the account never changes accountIsPlayer |
| `View.DerivedNeedAccountAndInfo` | frontend/src/App.tsx:216-226 | with no account or no raffle data, neither isOwner nor accountIsPlayer holds |
| `View.JoinEnabledIff` | frontend/src/App.tsx:300 | join is enabled iff an account is present, nothing is loading and the wallet is on Sepolia |
| `View.PickWinnerEnabledImplies` | frontend/src/App.tsx:310 | pick-winner is enabled iff join is enabled and the account owns the raffle; when enabled, account and raffle data are both present |
| `View.LoadingDisablesButtons` | frontend/src/App.tsx:295-314 | while loading, neither button is enabled or clickable |
| `View.ClickableExcludesConnect` | frontend/src/App.tsx:246-262 | a clickable action button and the connect button are never shown together |
| `View.InitialView` | frontend/src/App.tsx:39-48 | on first render only the connect button is usable, nothing is owned and no status shows |
| `View.JoinLabel` | frontend/src/App.tsx:303-305 | the join label is "You already joined" iff accountIsPlayer; otherwise it is "Join Lottery (<eth> ETH)" with the formatted price |
| `View.AlertText` | frontend/src/App.tsx:176 | the alert is the revert reason if non-empty, else the message if non-empty, else the fallback; never blank when the fallback is not |
| `View.OwnerWithoutEntrantsScenario` | frontend/src/App.tsx:216-226 | owner `0xabc`, account `0xAbC`, no entrants, on Sepolia: isOwner, not an entrant, both buttons clickable, label shows the price |
| `Sync.DisplayName` | frontend/src/App.tsx:60 | "homestead" is shown as "Mainnet"; every other name is shown unchanged |
| `Sync.NetworkShown` | frontend/src/App.tsx:58-65 | the state after a resolved network lookup; `Sync.NetworkShownEffect` states its effect |
| `Sync.LotteryLoaded` | frontend/src/App.tsx:99-126 | the state after the joined raffle read settles; `Sync.LotteryReadSucceeded`, `Sync.LotteryReadFailed` and `Sync.LotteryFailureVisibleOnlyWithStaleData` state its effect |
| `Sync.StatsLoaded` | frontend/src/App.tsx:128-151 | the state after the stats read for one address; `Sync.StatsLoadedEffect` states its effect |
| `Sync.Synced` | frontend/src/App.tsx:78-80 | adopting an account: store it, read the raffle, read its stats; `Sync.SyncedKeepsAccount` and `Sync.EmptyAccountListDisconnects` state its properties |
| `Sync.Resynced` | frontend/src/App.tsx:169-172 | the tail after a confirmed transaction; `Sync.ResyncedEffect` and `Sync.RefreshOverwritesSuccessStatus` state its effect |
| `Sync.NetworkShownEffect` | frontend/src/App.tsx:58-65 | the network lookup changes only the name and the flag; the flag holds iff the chain id is 11155111 |
| `Sync.LotteryReadSucceeded` | frontend/src/App.tsx:104-119 | a successful read stores the owner, the entrants in contract order, the formatted ether price and a wei string that reads back as the price; it clears the status and changes nothing else |
| `Sync.LotteryReadFailed` | frontend/src/App.tsx:120-124 | a failed read leaves the old raffle data exactly as it was and sets the fixed error text, and nothing else |
| `Sync.LotteryFailureVisibleOnlyWithStaleData` | frontend/src/App.tsx:317 | the error text of a failed read is visible iff older raffle data is still displayed |
| `Sync.StatsLoadedEffect` | frontend/src/App.tsx:128-151 | an absent or empty address changes nothing (stats are not cleared); a failed read clears the stats; a successful read stores both counts so they read back; only playerStats changes |
| `Sync.FirstAccount` | frontend/src/App.tsx:89 | the first listed account, or none when the list is empty |
| `Sync.SyncedKeepsAccount` | frontend/src/App.tsx:78-80 | adopting an account stores it exactly as given and leaves loading, banner and network untouched |
| `Sync.EmptyAccountListDisconnects` | frontend/src/App.tsx:88-93 | an empty account list on connect leaves no account; the connect button returns and no action button is clickable |
| `Sync.TxFailure` | frontend/src/App.tsx:160-166 | a handler fails before its refresh iff there is no wallet, the submission throws, or the confirmation throws; the error reported is the first thrown: "MetaMask not found", else the submission's, else the confirmation's |
| `Sync.RejectionReasonIsAlerted` | frontend/src/App.tsx:206-210 | a submission rejected with a non-empty revert reason alerts exactly that reason; one with neither reason nor message alerts the fixed text |
| `Sync.RefreshOverwritesSuccessStatus` | frontend/src/App.tsx:168-169 | after a confirmed transaction with a successful refresh and a known signer, the status is empty whatever it was, so the success text just set is overwritten |
| `Sync.ResyncedEffect` | frontend/src/App.tsx:199-202 | the refresh keeps old raffle data when it fails; a failed signer lookup clears the status; stats are read for the signer's address; account, loading and banner are unchanged |
| `App.RaffleApp.constructor` | frontend/src/App.tsx:39-48 | every state hook starts at its initial value |
| `App.RaffleApp.LoadNetworkInfo` | frontend/src/App.tsx:58-65 | one await; on success sets the shown name and the Sepolia flag; on failure changes nothing and propagates the error |
| `App.RaffleApp.LoadLotteryData` | frontend/src/App.tsx:99-126 | one await; the new state is the all-or-nothing read's effect (`Sync.LotteryLoaded`); never throws |
| `App.RaffleApp.LoadPlayerStats` | frontend/src/App.tsx:128-151 | returns before any await for an absent or empty address; otherwise the new state is the stats read's effect for that address |
| `App.RaffleApp.InitOnLoad` | frontend/src/App.tsx:72-82 | no wallet: nothing changes; failed network or account lookup: the handler stops with that error; empty list: only the network changes; otherwise adopts the first account, reads the raffle, then that account's stats |
| `App.RaffleApp.ConnectWallet` | frontend/src/App.tsx:85-97 | no wallet or refused request: nothing changes and the error is logged; otherwise stores the first account (or none), shows the network, reads the raffle and that account's stats; a failed network lookup keeps the stored account |
| `App.RaffleApp.Refresh` | frontend/src/App.tsx:169-172 | re-reads the raffle, then reads the signer's stats, or returns the signer lookup's error; keeps loading on every screen shown |
| `App.RaffleApp.JoinLottery` | frontend/src/App.tsx:154-180 | without raffle data changes nothing; otherwise loading is set on every screen shown while waiting and reset at the end; the displayed wei price is submitted iff a wallet exists; a failure before the refresh leaves everything but an empty status, with the alert text; a confirmed join ends in the refresh's state |
| `App.RaffleApp.PickWinner` | frontend/src/App.tsx:182-214 | like join, with no value submitted, the pick-winner fallback text, and the winner banner raised once confirmed |
| `App.RaffleApp.ClearWinnerFlash` | frontend/src/App.tsx:197 | the timer callback hides the winner banner and changes nothing else |

## Left out

- Rendering is not modelled: JSX, CSS classes (including the join button's "pulse"),
  the shortened addresses, the "Unknown" network placeholder, hints and Etherscan
  links. Only the button conditions, the label, the connect button and the status
  line's visibility are modelled, because they decide what can be clicked or seen.
- The ethers provider, contracts, signer, `eth_requestAccounts`, `tx.wait()` and
  `getAddress()` are foreign wallet and network calls. Their results are parameters.
  Whether `window.ethereum` exists is the parameter `hasWallet`.
- `formatEther`'s output format is not part of the model. It is an arbitrary function
  of the wei value, fixed when the app is constructed (`RaffleApp.formatEther`).
- The three raffle reads run concurrently under `Promise.all`. They are modelled as
  one read that succeeds or fails as a whole.
- The 2500 ms delay of the winner-banner timer is not modelled. Its callback is
  `ClearWinnerFlash`, to be invoked by the environment. The model does not produce
  the `alert` and `console.error` output; the handlers return the text or error as a
  value instead.
- The read handlers fall back to `getProvider()` when they get no provider. That
  fallback is not modelled: every call site passes one.
- Handlers do not interleave. Each runs to completion. Nothing else changes state
  during its awaits, so the state a handler reads is the current one. React's
  batching of setter calls is not modelled. `suspended` only records what is shown at
  each await.
- The awaits of `getProvider()` are not recorded in `suspended`. With no wallet, the
  transaction handlers record no screen, although the page shows loading and the
  "sending" status while `getProvider()` rejects.
- The mount effect that runs `InitOnLoad` is not modelled. The environment calls that
  method once.
- Text.Lower: lowers ASCII letters only, whereas `toLowerCase` lowers all of Unicode.
  Addresses are hexadecimal ASCII, so the two agree on them.
- Error objects whose `reason` or `message` is not a string are not modelled. Both are
  treated as optional strings.
- The contract address from the environment and the fixed stats-contract address are
  configuration only.
- The deployment modules under `ignition/modules/` only pass constructor
  arguments. LotteryModule.js, LotteryWithStatsModule.js and PlayerStatsModule.js are
  not part of this model.
