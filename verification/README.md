# Bookmark manager: dark-mode cell and contrast classifier

A Dafny model of the two pieces of logic in a browser bookmark manager.

- **Store** (`store.dfy`) models the persisted dark-mode preference. At start-up the boolean is decoded from the `darkMode` key of the browser's key-value storage. Only the exact string `"true"` decodes to true. A subscriber then runs on the start-up value and on every later value. It writes the value back as `"true"` or `"false"`, and adds or removes the `dark` class on the document root. Storage is a `map<string, string>` and the class list is a `set<string>`. `DarkModeStore` is a class holding both, plus the current value. Its `Init` and `Set` run the subscriber (`Notify`), and their postconditions tie the new state to the pure function `Apply` on the old state. The lemmas about `Apply` and `Replay` state what holds across a whole session.

  Four helper functions carry no contract of their own. Their properties are stated through the members in the table:
  - `GetItem` is the storage lookup, which gives no value for a missing key (src/store.js:3). It is used by `Decode`.
  - `Stringify` is the string form of a boolean that storage writes (src/store.js:7). It is used by `Apply`.
  - `Replay` runs the subscriber on a sequence of values in order (src/store.js:6-13). It is used by `ReplayLastWins`.
  - `Mirrors` is the invariant the cell keeps: the stored string and the `dark` class both agree with the value (src/store.js:7-12). It is used by `ApplyMirrors` and by the class's `Valid`.
- **ColorThief** (`color_thief.dfy`) models `getContrastingColor`. It weighs the red, green and blue channels by 299, 587 and 114, divides by 1000, and answers `"black"` when the result exceeds 128, otherwise `"white"`. The division is modelled as exact `real` division. A lemma proves that this comparison is the same as the integer comparison of the weighted sum against 128000.

## Model

| member | source | states |
|---|---|---|
| Store.Decode | src/store.js:3 | the start-up value is true exactly when the `darkMode` key is present and holds the string `"true"`; a missing key or any other string gives false |
| Store.Apply | src/store.js:6-13 | the subscriber's effect: decoding the new storage gives the value back; the stored string is `"true"` or `"false"`; `dark` is in the class set iff the value is true; no other key is added, removed or changed; no other class is added or removed |
| Store.LastWins | src/store.js:6-13 | applying the subscriber for `a` and then for `b` leaves exactly the storage and classes that applying it for `b` alone does |
| Store.Idempotent | src/store.js:7-12 | setting the same value twice leaves storage and classes as a single set does |
| Store.ReplayLastWins | src/store.js:6-13 | after the subscriber has run on any non-empty sequence of values, the page equals the page the last value alone gives |
| Store.InitNormalises | src/store.js:3-7 | start-up rewrites the stored preference: `"true"` stays `"true"`; any other stored string, or none, becomes `"false"` |
| Store.ApplyMirrors | src/store.js:7-12 | after the subscriber runs, the stored string and the `dark` class both agree with the value |
| Store.DarkModeStore.Init | src/store.js:3-13 | the value is the decoded start-up value; the subscriber has run once on it, so the new storage and classes are `Apply` of the initial ones and the invariant holds |
| Store.DarkModeStore.Set | src/store.js:6-13 | the value becomes `b`; storage and classes become `Apply` of the old ones for `b`; the invariant holds; on a valid cell, setting the current value again leaves storage and classes unchanged |
| Store.DarkModeStore.Notify | src/store.js:6-13 | writes the current value to storage and sets or clears the `dark` class, leaving the value unchanged |
| ColorThief.WeightedSum | src/colorThief.js:6 | the weighted channel sum lies in 0..255000 for channels in 0..255 |
| ColorThief.Brightness | src/colorThief.js:6 | brightness lies in 0..255 |
| ColorThief.ContrastingColor | src/colorThief.js:5-8 | the answer is always `"black"` or `"white"` |
| ColorThief.BlackIffWeightedSum | src/colorThief.js:6-7 | the answer is `"black"` iff `299*R + 587*G + 114*B > 128000`, and `"white"` iff that sum is at most 128000 |
| ColorThief.Extremes | src/colorThief.js:6-7 | white `[255,255,255]` gets `"black"`; black `[0,0,0]` gets `"white"` |
| ColorThief.MidGreyIsWhite | src/colorThief.js:6-7 | `[128,128,128]` has brightness exactly 128 and, as the comparison is strict, gets `"white"` |
| ColorThief.Monotone | src/colorThief.js:6-7 | raising one channel, the others fixed, never turns `"black"` into `"white"` |
| ColorThief.OnlyFirstThree | src/colorThief.js:6 | components after the third do not affect the answer |

## Left out

- `server.js`, a static-file server with port selection, and `ecosystem.config.cjs`, process-supervisor settings: I/O and configuration with no logic.
- The `ColorThief` library instance and dominant-colour extraction (src/colorThief.js:1-3): a foreign library whose source is not part of this model.
- The reactive store's internals (src/store.js:1, 4): subscriber lists, unsubscribe handles and any suppression of notifications for an unchanged value. The model only says that the subscriber runs once at start-up and once per `Set`. It makes no claim about how many times it fires. Running the subscriber for an unchanged value cannot be observed on any state `Init` or `Set` produces: `Set` proves that, on a valid cell, setting the current value leaves storage and classes unchanged.
- Bookmark and category persistence: nothing in the modelled files implements it.
- Storage failures (quota, disabled storage): the code does not handle them.
- Real browser storage and DOM: abstracted as a `map<string, string>` and a `set<string>`.
- `Set` takes a boolean. The source's store would accept any value and store its string form; the model covers the boolean values the application sets.
- ColorThief.ContrastingColor: requires at least three components with channels in 0..255. In the source a shorter array gives `NaN` brightness and so `"white"`; out-of-range or fractional channels are not modelled. Floating-point rounding is not modelled: for integer channels in range the exact quotient and the floating-point one compare the same against 128.
