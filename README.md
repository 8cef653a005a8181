# Wallet connection-state hook

This project models `useWallet`, the hook that holds a Bitcoin wallet
front-end's connection state. The hook owns two things:

- a `WalletState` record: `isConnected`, `addresses`, `error`, `isLoading`, `network`;
- the provider it remembers, which may be absent.

It offers three operations:

- `connectWallet` picks the caller's provider, or else the remembered one.
  With neither, it records "No wallet provider selected." and stops.
  Otherwise it enters loading, calls the provider (bounded by a timeout) and
  applies the outcome. A success replaces the whole state and remembers the
  provider. A failure clears the connection and records a message (but see
  "## Findings" for a failure that is not a `WalletConnectionError`).
- `disconnectWallet` returns to the initial idle shape and forgets the provider.
- `getAddressByPurpose` returns the first address with a given purpose.

Files:

- `wallet_types.dfy` (module `WalletTypes`) holds the entities as datatypes.
  Addresses, the state record, providers, error codes, what a failed call
  throws, and the settled outcome of the provider call.
- `use_wallet.dfy` (module `UseWallet`) holds the rest:
  - each transition as a function on a `Session` value (state plus remembered provider): `Begin`, `Complete`, `Connect`, `Disconnect`;
  - the lookup `FindByPurpose`;
  - lemmas about single calls and about sequences of calls (`Run`);
  - the class `WalletHook`, whose fields `walletState` and `provider` are updated by methods in the hook's own steps.
    Each method's `ensures` gives the whole new state and ties it to the matching function.

`connectWallet` is split into two phases:

- `BeginConnect` resolves the provider. It either records the missing-provider error or enters loading.
- `CompleteConnect` applies the outcome of the provider call.

`ConnectWallet` runs the two phases in a row. The provider call
(`connectWithTimeout`) is not modelled: its settled result is a parameter,
`Resolved(addresses)` or `Rejected(thrown)`. `thrown` is either a tagged
`WalletConnectionError` with its own message, or some other error.

The provider type is declared in a file that is not part of this model. It is
treated as an opaque non-null value, so `selectedProvider || provider`
picks the caller's provider whenever one is given. The address purposes
`Payment`, `Ordinals` and `Stacks` and the shape of `Network` are assumptions
for the same reason. Only whether two purposes are equal matters to the hook.

Disconnect is not the only way out of the connected state. A connected hook
may call connect again, and if that attempt fails the connection and its
addresses are dropped (`FailedReconnectDropsConnection`).

The failure path for an error that is not a `WalletConnectionError` does not
work as written; see "## Findings". `Complete`, `Connect` and every lemma
about them describe the evidently intended behaviour: the catch block
records "Failed to connect wallet" and ends the load. `CompleteAsWritten` and
`ConnectAsWritten` model the code as it stands.

## Model

| member | source | states |
|---|---|---|
| `UseWallet.InitialState` | src/hooks/useWallet.ts:7-13 | the initial state record (not connected, no addresses, no error, not loading, no network); definition; no contract of its own |
| `UseWallet.ResolveProvider` | src/hooks/useWallet.ts:18 | the provider a connect call uses: the caller's if given, else the remembered one; definition; no contract of its own |
| `UseWallet.FailureMessage` | src/hooks/useWallet.ts:47-56 | the error text a failed provider call leaves; definition; no contract of its own (see `FailureMessageCases`) |
| `UseWallet.Begin` | src/hooks/useWallet.ts:18-32 | the first phase of connect on a session value; definition; no contract of its own |
| `UseWallet.Complete` | src/hooks/useWallet.ts:34-61 | the second phase of connect, applying the settled outcome; definition; no contract of its own |
| `UseWallet.Connect` | src/hooks/useWallet.ts:17-62 | a whole connect call: the first phase, then the second when a provider was found; definition; no contract of its own |
| `UseWallet.Disconnect` | src/hooks/useWallet.ts:64-73 | the session after disconnect: the initial state and no provider; definition; no contract of its own |
| `UseWallet.Step` | src/hooks/useWallet.ts:17-73 | one completed connect or disconnect call on a session value; definition; no contract of its own |
| `UseWallet.Run` | src/hooks/useWallet.ts:17-73 | a sequence of calls, each completed before the next starts; definition; no contract of its own |
| `UseWallet.Consistent` | src/hooks/useWallet.ts:7-73 | the invariant between calls: no network, not loading, connected implies a remembered provider and no error, not connected implies no addresses; definition; no contract of its own |
| `UseWallet.CompleteAsWritten` | src/hooks/useWallet.ts:45-61 | the second phase as written: a rejection that is not a `WalletConnectionError` leaves the session as the first phase left it; definition; no contract of its own |
| `UseWallet.ConnectAsWritten` | src/hooks/useWallet.ts:17-62 | a whole connect call as written, using `CompleteAsWritten`; definition; no contract of its own |
| `UseWallet.OtherErrorStaysLoadingAsWritten` | src/hooks/useWallet.ts:47-52 | as written, a connect rejected with a non-tagged error stays loading, shows no error and keeps its connection, addresses and provider; the corrected connect ends not loading, not connected, with no addresses and the generic text |
| `UseWallet.AsWrittenAgreesOtherwise` | src/hooks/useWallet.ts:17-62 | for every other outcome, the connect as written equals the corrected one |
| `UseWallet.AsWrittenBreaksConsistent` | src/hooks/useWallet.ts:47-52 | concrete input: a connected session whose re-connect is rejected with a plain error stays connected and loading, so the between-calls invariant fails as written |
| `UseWallet.WalletHook.constructor` | src/hooks/useWallet.ts:7-15 | the hook starts not connected, with no addresses, no error, not loading, no network and no remembered provider |
| `UseWallet.WalletHook.BeginConnect` | src/hooks/useWallet.ts:17-32 | the provider used is the caller's if given, else the remembered one; with none, only `error` changes, to exactly "No wallet provider selected."; with one, only `isLoading` (to true) and `error` (to none) change; the remembered provider is untouched |
| `UseWallet.WalletHook.CompleteConnect` | src/hooks/useWallet.ts:34-61 | success: the state becomes exactly connected / returned addresses / no error / not loading / no network, and the provider is remembered; failure: not connected, no addresses, not loading, error is the failure's message, network and remembered provider unchanged |
| `UseWallet.WalletHook.ConnectWallet` | src/hooks/useWallet.ts:17-62 | the whole call equals `Connect` on the old state; it ends not loading unless no provider was found and a load was already in progress |
| `UseWallet.WalletHook.DisconnectWallet` | src/hooks/useWallet.ts:64-73 | the state becomes the initial record and the remembered provider is cleared |
| `UseWallet.WalletHook.GetAddressByPurpose` | src/hooks/useWallet.ts:75-77 | reads the state without changing it; none exactly when no current address has purpose `p`, otherwise the address at the first position with that purpose |
| `UseWallet.FindByPurpose` | src/hooks/useWallet.ts:76 | none exactly when no address has purpose `p`; otherwise an element of the sequence with purpose `p` |
| `UseWallet.FindByPurposeReturnsFirstMatch` | src/hooks/useWallet.ts:76 | when position `i` holds the first address with purpose `p`, the lookup returns exactly that address (first match in sequence order) |
| `UseWallet.FindByPurposeFirstMatchAll` | src/hooks/useWallet.ts:76 | the first-match property for every position at once |
| `UseWallet.FindByPurposeAppend` | src/hooks/useWallet.ts:76 | addresses after a match never change the answer; with no match in the front part, the answer is the back part's |
| `UseWallet.ConnectWithoutProvider` | src/hooks/useWallet.ts:18-26 | with no caller provider and none remembered, connect sets `error` to exactly "No wallet provider selected." and changes nothing else; `isLoading` keeps its value and the provider stays absent |
| `UseWallet.OverrideTakesPrecedence` | src/hooks/useWallet.ts:18 | a caller-supplied provider is chosen over the remembered one and is the one remembered after success |
| `UseWallet.BeginWithProviderEntersLoading` | src/hooks/useWallet.ts:28-32 | with a provider, the first phase sets `isLoading` and clears `error`; `isConnected`, `addresses`, `network` and the provider are unchanged |
| `UseWallet.CompleteOutcome` | src/hooks/useWallet.ts:35-61 | every completed attempt ends not loading; success and failure give exactly the documented states |
| `UseWallet.FailureMessageCases` | src/hooks/useWallet.ts:47-56 | a `WalletConnectionError` shows its own message; any other error shows "Failed to connect wallet" |
| `UseWallet.DisconnectIdempotent` | src/hooks/useWallet.ts:64-73 | disconnect gives the initial state with no provider, and doing it twice equals doing it once |
| `UseWallet.DisconnectForgetsProvider` | src/hooks/useWallet.ts:18-26 | after a disconnect, a connect that names no provider fails with "No wallet provider selected." and is neither connected nor loading |
| `UseWallet.ConnectedIff` | src/hooks/useWallet.ts:17-62 | after connect the hook is connected exactly when a provider was found and its call resolved, or no provider was found and it was already connected |
| `UseWallet.FailedReconnectDropsConnection` | src/hooks/useWallet.ts:45-61 | a failed connect from a connected state, with or without a caller-supplied provider, leaves it not connected with no addresses, keeping the remembered provider |
| `UseWallet.StepKeepsConsistent` | src/hooks/useWallet.ts:17-73 | one completed connect or disconnect preserves the invariant: no network, not loading, connected implies a remembered provider and no error, not connected implies no addresses |
| `UseWallet.RunKeepsConsistent` | src/hooks/useWallet.ts:17-73 | that invariant holds after any sequence of completed calls |
| `UseWallet.RunAppend` | src/hooks/useWallet.ts:17-73 | running two call sequences one after the other equals running their concatenation |
| `UseWallet.DisconnectLastResets` | src/hooks/useWallet.ts:64-73 | any sequence of calls that ends with a disconnect leaves the initial session |

## Findings

| source | as written | input that shows it | evidently intended | confidence | as-written member | corrected member |
|---|---|---|---|---|---|---|
| src/hooks/useWallet.ts:50 | line 2 imports `RpcErrorCode` with `import type`, so `RpcErrorCode.DISCONNECTED` at line 50 has no runtime value; building the fallback error throws inside the catch block, before the state update at lines 54-60 | a connect with a provider whose call rejects with a plain `Error` (not a `WalletConnectionError`) | the state records "Failed to connect wallet", is no longer loading, not connected, with no addresses | medium; not executed | `UseWallet.OtherErrorStaysLoadingAsWritten` (with `UseWallet.ConnectAsWritten`, `UseWallet.AsWrittenBreaksConsistent`) | `UseWallet.CompleteOutcome` (with `UseWallet.Complete`, `UseWallet.FailureMessageCases`) |

## Left out

- Consistent: "not loading between calls" is the intended invariant. As written, a connect rejected with an error that is not a `WalletConnectionError` leaves `isLoading` true (see Findings, `AsWrittenBreaksConsistent`).
- FailureMessage: the generic text is what the code evidently intends for a non-tagged error. As written, line 50 throws before it is recorded (see Findings).
- Complete: models the evidently intended catch block for every rejection. `CompleteAsWritten` gives the behaviour as written.
- CompleteOutcome: "every completed attempt ends not loading" holds for the intended path. As written, it fails for a non-tagged rejection (see Findings).
- FailureMessageCases: the generic-text case holds for the intended path only (see Findings).
- ConnectedIff: stated for the intended path. As written, a connected session whose re-connect is rejected with a non-tagged error stays connected.
- FailedReconnectDropsConnection: stated for the intended path. As written, a re-connect rejected with a non-tagged error keeps the connection and its addresses.
- StepKeepsConsistent: stated for the intended path. As written, a connect step rejected with a non-tagged error leaves the session loading.
- RunKeepsConsistent: rests on `StepKeepsConsistent`, so it too holds for the intended path only.
- CompleteConnect: its failure clause is the intended catch-block update for every rejection. As written, a non-tagged rejection leaves the loading state in place.
- ConnectWallet: its "ends not loading" clause holds for the intended path only (see Findings).
- ResolveProvider: treats every supplied provider value as present. If the provider type is an identifier string, JavaScript's `selectedProvider || provider` would treat an empty string as absent and fall back to the remembered provider; the model does not capture that falsy case.
- `connectWithTimeout` and the internals of `WalletConnectionError` are declared in files that are not part of this model. The timer race is asynchronous. Only its settled outcome is modelled, as a parameter.
- React machinery is not modelled: `useState`, `useCallback` memoisation, dependency arrays, re-rendering, and the stale closures these can cause.
- Overlapping connect calls and a disconnect during a connect are not modelled. They are event-loop interleavings. The two phases can still be called separately on `WalletHook`, but the lemmas over call sequences assume each call completes before the next.
- The `console.error` logging on failure is I/O.
- The constant `hasProvider: false` field of the returned object has no behaviour.
- `src/pages/SuccessPage.tsx` only renders, and redirects when not connected.
- `src/App.tsx` is a fixed route table.
- `src/types/ui.ts` declares property types only.
