# DEXTswap widget: pair state and the "max" shortcut

This project models the logic of the DEXTswap single-page swap widget in Dafny.
That logic is the widget's pair state and the "use max balance" shortcut of its
amount inputs.

- `tokens.dfy` (module `Tokens`): the `Token` record and the four-entry token
  catalog (ETH, DEXT, USDT, USDC). It also defines JavaScript truthiness of an
  optional balance string.
- `swap_input.dfy` (module `SwapInput`): one side of the form. It covers the
  `readOnly`/`showBalance` defaults, when the balance button is rendered, the
  guarded max-click handler, and typed input forwarded verbatim. The handler's
  `balance.replace(',', '')` is modelled as `RemoveFirst`. With a string pattern,
  JavaScript's `replace` removes only the FIRST comma.
- `widget.dfy` (module `Widget`): the widget's six state cells, `fromToken`,
  `toToken`, `fromAmount`, `toAmount`, `isConnected` and `showSettings`.
  - Class `SwapWidget` holds the cells, and its methods update them in place, one
    method per handler.
  - A pure `Step` function over user `Event`s specifies each method.
  - `Run` applies a sequence of events. Lemmas about `Run` state the properties
    that span several events.
- `wrappers.dfy`: an `Option` type, used for `undefined` and for "no callback".

The widget holds no exchange-rate table and computes no quote. `toAmount` starts
at `"0.0"`. It changes only when the sides are flipped or when text is typed into
the "To" field. `RunKeepsToAmount` proves that no other event changes `toAmount`.

## Model

| member | source | states |
|---|---|---|
| `Tokens.Truthy` | src/components/SwapInput.tsx:27 | an absent balance and the empty string are falsy; every other string is truthy |
| `Tokens.Catalog` | src/components/SwapWidget.tsx:17-22 | the catalog has four entries with pairwise distinct symbols, and each has a non-empty balance |
| `Tokens.CatalogDefaults` | src/components/SwapWidget.tsx:18-19 | entry 0 is ETH with balance "2.5432"; entry 1 is DEXT with balance "1,250.00" |
| `SwapInput.IndexOf` | src/components/SwapInput.tsx:28 | the located position holds the character and no earlier position does; None exactly when the character is absent |
| `SwapInput.RemoveFirst` | src/components/SwapInput.tsx:28 | the result is one character shorter when the string contains the character, and otherwise has the same length |
| `SwapInput.RemoveFirstAbsent` | src/components/SwapInput.tsx:28 | a balance with no comma passes through unchanged |
| `SwapInput.RemoveFirstAt` | src/components/SwapInput.tsx:28 | only the first comma is cut out; everything before and after it, later commas included, is kept in order |
| `SwapInput.RemoveFirstCounts` | src/components/SwapInput.tsx:28 | exactly one comma disappears when there is one; every other character's count is unchanged |
| `SwapInput.RemoveFirstDextBalance` | src/components/SwapInput.tsx:28 | "1,250.00" becomes "1250.00" |
| `SwapInput.RemoveFirstKeepsSecondSeparator` | src/components/SwapInput.tsx:28 | "1,234,567" becomes "1234,567": the second separator remains |
| `SwapInput.ResolveProps` | src/components/SwapInput.tsx:23-24 | `readOnly` and `showBalance` are true only when passed as true; omitted means false |
| `SwapInput.ShowsBalanceButton` | src/components/SwapInput.tsx:36 | the balance button is rendered only when `showBalance` is set and the token has a non-empty balance |
| `SwapInput.MaxClick` | src/components/SwapInput.tsx:26-30 | the handler calls back if and only if the balance is truthy and the field is not read-only; it passes the balance minus its first comma |
| `SwapInput.OnEvent` | src/components/SwapInput.tsx:51 | typed input is forwarded verbatim; a balance click on a read-only field or with no balance yields no callback |
| `SwapInput.BalanceButtonFires` | src/components/SwapInput.tsx:36-38 | a rendered balance button on an editable field always fires; its value is one character shorter and has one comma fewer exactly when the balance has a comma |
| `Widget.FromProps` | src/components/SwapWidget.tsx:82-90 | the "From" side shows its balance and is editable |
| `Widget.ToProps` | src/components/SwapWidget.tsx:105-113 | the "To" side is read-only and shows no balance |
| `Widget.SwapNotice` | src/components/SwapWidget.tsx:50-55 | the swap toast is titled "Swap Initiated", and its description's length is the four fields' lengths plus the fixed words |
| `Widget.ConnectNotice` | src/components/SwapWidget.tsx:44-47 | the connect toast is titled "Wallet Connected" and differs from every swap toast |
| `Widget.Step` | src/components/SwapWidget.tsx:33-174 | only the primary button raises a toast; `isConnected` only becomes true, and only through that button; only the settings button toggles `showSettings`; only a flip or typing into the "To" field changes `toAmount` |
| `Widget.InitialState` | src/components/SwapWidget.tsx:25-30 | initial state is ETH (catalog entry 0) to DEXT (entry 1), amounts "1" and "0.0", disconnected, settings hidden |
| `Widget.FlipInvolution` | src/components/SwapWidget.tsx:33-40 | flipping twice restores every field |
| `Widget.RunFlipsPairwise` | src/components/SwapWidget.tsx:33-40 | any even number of consecutive flips restores the state |
| `Widget.FromInputIdempotent` | src/components/SwapWidget.tsx:86 | typing the same "From" amount a second time changes nothing |
| `Widget.ConnectThenSwap` | src/components/SwapWidget.tsx:158-174 | the first press of the primary button connects and raises the connect toast; the next press changes nothing and raises the swap toast |
| `Widget.ToSideMaxInert` | src/components/SwapWidget.tsx:105-113 | the read-only "To" side shows no balance button, and a max click there yields no callback |
| `Widget.FromSideMaxFires` | src/components/SwapWidget.tsx:82-90 | on the "From" side, a token with a balance shows the button; clicking it sets only `fromAmount`, to the balance minus its first comma |
| `Widget.DextMaxClick` | src/components/SwapWidget.tsx:82-90 | with DEXT on the "From" side, the max click writes "1250.00" |
| `Widget.SwapNoticeOnlyPair` | src/components/SwapWidget.tsx:50-55 | the swap toast depends only on the two amounts and the two symbols, not on names, icons, balances or flags |
| `Widget.CatalogFromSideMaxFires` | src/components/SwapWidget.tsx:82-90 | while both sides hold catalog tokens, the "From" side always shows the balance button, and a click sets only `fromAmount`, to the balance minus its first comma |
| `Widget.RunKeepsConnected` | src/components/SwapWidget.tsx:42-48 | no event disconnects the wallet |
| `Widget.RunConnects` | src/components/SwapWidget.tsx:42-48 | any sequence that presses the primary button ends connected |
| `Widget.RunKeepsToAmount` | src/components/SwapWidget.tsx:28 | only a flip or typing into the "To" field changes `toAmount`; it is never recomputed from the "From" side or the tokens |
| `Widget.RunKeepsInCatalog` | src/components/SwapWidget.tsx:82-113 | when every selection comes from the catalog, both sides keep holding catalog tokens |
| `Widget.SwapWidget.constructor` | src/components/SwapWidget.tsx:25-30 | the new widget's state is the initial state |
| `Widget.SwapWidget.SwapTokens` | src/components/SwapWidget.tsx:33-40 | the new from token/amount are the old to token/amount and vice versa; `isConnected` and `showSettings` are unchanged |
| `Widget.SwapWidget.SetFromAmount` | src/components/SwapWidget.tsx:86 | only `fromAmount` changes; `toAmount` is not recomputed |
| `Widget.SwapWidget.SetToAmount` | src/components/SwapWidget.tsx:109 | only `toAmount` changes |
| `Widget.SwapWidget.SetFromToken` | src/components/SwapWidget.tsx:87 | only `fromToken` changes, even when it equals `toToken` |
| `Widget.SwapWidget.SetToToken` | src/components/SwapWidget.tsx:110 | only `toToken` changes, even when it equals `fromToken` |
| `Widget.SwapWidget.FromAmountEvent` | src/components/SwapWidget.tsx:82-90 | typed text becomes `fromAmount` verbatim; a balance click sets it to the token's balance minus its first comma; `toAmount` never changes |
| `Widget.SwapWidget.ToAmountEvent` | src/components/SwapWidget.tsx:105-113 | a max click on the "To" side changes no state |
| `Widget.SwapWidget.ConnectWallet` | src/components/SwapWidget.tsx:42-48 | sets `isConnected` (idempotently), changes nothing else, and returns the "Wallet Connected" toast |
| `Widget.SwapWidget.Swap` | src/components/SwapWidget.tsx:50-55 | changes nothing; the toast is "Swap Initiated" with "Swapping <fromAmount> <fromSymbol> for <toAmount> <toSymbol>" |
| `Widget.SwapWidget.PressPrimary` | src/components/SwapWidget.tsx:158-174 | connects while disconnected and swaps once connected, as `Step` specifies |
| `Widget.SwapWidget.ToggleSettings` | src/components/SwapWidget.tsx:70 | flips `showSettings` and changes nothing else |

## Left out

- Rendering, CSS, icons, the dropdown menu of the token selector, and the static
  "2,450.32 DEXT" price text: these are presentation only. The only thing the
  model keeps from the selector is that it offers catalog tokens, as the
  `t in Catalog()` precondition of the token setters.
- Toast delivery: the model returns the title and description as a
  `Notification` instead of calling the toast collaborator.
- Wallet-library configuration (src/lib/wagmi.ts) and the slippage/deadline panel
  (src/components/SwapSettings.tsx) are not part of this model. The first is a
  foreign library with network transports. The second is cosmetic state that is
  never used.
- Parsing amounts, exchange rates and quotes: amounts are opaque strings, and the
  source does no arithmetic on them.
- React scheduling: `setState` batching and handlers that read the values of the
  last render are modelled as immediate sequential updates. For the single
  synchronous handlers here, this gives the same final state.
- Browser behaviour of the `<input type="number">` element is not modelled. The
  browser sanitises what the user types, and it suppresses typing into a
  `readOnly` field. The model forwards whatever string it is given, as the
  `onChange` handler does.
