# Golden Eggs: session, server resolver and client API

A Dafny model of the sequential core of the Golden Eggs browser game.

The game is an egg-cracking game. A player buys an egg of a template (gold or
premium), cracks it up to five times for a chance to win, and then cashes it
out or stores it in a small storage bar.

The model has three parts.

- **The client session** (`AppGame`). Files: `egg_store.dfy`, `app_game.dfy`.
  - Egg objects live in two pools, `boughtEggs` and `storedEggs`; the session
    also holds the active egg, the lock flag, the selected tab and two
    histories.
  - Modelled operations: buy, crack, cashout, applying a server result
    (stored / cashout / win / lose), the result modal's confirm step, tab
    switching, move-to-storage, removal, lookup, grouping and level clamps.
  - Eggs are Dafny objects and the pools are sequences of references. So the
    model keeps the source's aliasing: a bought egg is the *same* object in
    both pools, and a stored copy is a *new* object.
- **The development server** (`server/index.js`). File: `server.dfy`.
  - Covered: `buildStatus`, `buildLevel`, the `/game/init` greeting and the
    `/game/action` handler.
  - The handler is a pure decision (`Server.Decide`) plus a method
    (`Server.GameServer.HandleAction`) that updates the server's one running
    balance.
  - The roll, the FORCE_WIN / FORCE_BONUS switches and the time stamp are
    parameters.
- **The client API module** (`src/api/gameApi.js`). File: `game_api.dfy`.
  - Covered: base-URL normalisation, `buildUrl`, the mock switch, and the mock
    backend (`mockInit`, `mockAction`).
  - `mockAction` is a random walk of the win chance; the model keeps that
    chance as a whole percentage.

`util.dfy` holds shared helpers: `Option`, min/max, decimal rendering, and
list truncation.

**How "nothing else changes" is stated.** `Game.AppGame.State()` is a
snapshot of every session field. A method's contract gives the whole new
state as `old(State())` with the changed fields replaced. The storage cap is
*not* a class invariant, because the source does not keep it everywhere:
- the win path appends to `storedEggs` without checking the cap;
- `setConfig` can lower `maxStored`.

So buy, tab switch and move-to-storage each promise the cap for their own
step. Each operation that changes `storedEggs` promises to keep it free of
duplicate uids. For a buy this holds when every stored uid was minted with a
counter below the current one (`MintedBelow`), since the counter is the
number at the end of each uid.

## Model

| member | source | states |
|---|---|---|
| Util.Truncate | src/game/AppGame.js:735-737 | The result is the list cut to its first n elements (all of it when shorter), as `length = n` leaves it. |
| EggStore.BetAfterWin | src/game/AppGame.js:759-764 | A positive bet doubles. A non-positive bet becomes a positive win amount, or stays. The new bet is positive exactly when the old bet or the win amount was. |
| EggStore.Egg.Create | src/game/AppGame.js:2060-2068 | A new egg copies the template's id, title and bet, takes the given uid, and starts with 0 tries, last win 0, no crack level, not maxed. |
| EggStore.Egg.CountTry | src/game/AppGame.js:754 | `tries` becomes `min(maxCracks, tries + 1)`; no other field changes. |
| EggStore.Egg.RecordWin | src/game/AppGame.js:759-764 | Sets `lastWinAmount` to the win amount and `bet` to `BetAfterWin`; tries, crack level and the maxed flag are kept. |
| EggStore.Egg.Copy | src/game/AppGame.js:2122 | The copy is a separate object with every field equal to the original's. |
| EggStore.SelectedTemplate | src/game/AppGame.js:930-935 | The premium template for exactly the premium tab; the gold template for every other tab. |
| EggStore.MakeUid | src/game/AppGame.js:5-8 | A uid starts with the prefix and a dash, and is at least four characters longer than the prefix (two dashes and at least one digit each for the clock and the counter). |
| EggStore.MakeUidCounter | src/game/AppGame.js:5-8 | The counter can be read back from any minted uid as the number after its last dash, whatever the prefix and the clock. |
| EggStore.MakeUidDistinct | src/game/AppGame.js:5-8 | Uids minted with different counters differ, even with different prefixes or clock readings. |
| EggStore.FreshUidAbsent | src/game/AppGame.js:5-8 | A uid minted with the current counter is absent from a pool whose uids were all minted with smaller counters. |
| EggStore.AppendMintedKeepsFresh | src/game/AppGame.js:836-838 | Appending an egg minted with the current counter keeps the pool duplicate-free, and every uid is then below the advanced counter. |
| EggStore.FirstUidIndex | src/game/AppGame.js:2139 | Returns -1 exactly when no egg has the uid. Otherwise returns the first position holding it; no earlier position holds it. |
| EggStore.RemoveFirstUid | src/game/AppGame.js:2138-2141 | Without the uid the pool is unchanged. Otherwise the pool is one shorter: entries before the first match are kept, and later entries shift down by one. |
| EggStore.RemoveFirstUidSubset | src/game/AppGame.js:2138-2141 | Removal adds nothing: every egg left was in the pool. |
| EggStore.RemoveFirstUidKeepsOthers | src/game/AppGame.js:2138-2141 | Every entry except the first match is still in the pool after removal. |
| EggStore.RemoveFirstUidKeepsDistinct | src/game/AppGame.js:2138-2141 | On a pool without duplicate uids, removal keeps it duplicate-free and the uid is then gone altogether. |
| EggStore.AppendNewUidKeepsDistinct | src/game/AppGame.js:940-947 | Appending an egg whose uid is absent keeps the pool free of duplicates, and the uid is then present. |
| EggStore.KeysOf | src/game/AppGame.js:1204-1206 | One grid key per egg, in order. Each key is the egg's base id (`id`, else title, else `egg`) paired with its bet. |
| EggStore.FirstOccurrences | src/game/AppGame.js:1207-1209 | Lists the positions where a new key first appears (the positions where the map gains an entry); all are in range. |
| EggStore.FirstOccurrencesIncrease | src/game/AppGame.js:1212 | The first-occurrence positions increase, so groups come out in insertion order. |
| EggStore.FirstOccurrencesAreFirst | src/game/AppGame.js:1207 | No key appears before its recorded first position. |
| EggStore.FirstOccurrencesCover | src/game/AppGame.js:1203-1209 | Every key of the input has a recorded first position. |
| EggStore.FirstOccurrencesDistinct | src/game/AppGame.js:1207-1209 | The recorded positions hold pairwise different keys. |
| EggStore.OccurrencesAbsent | src/game/AppGame.js:1210 | A key that does not appear is counted zero times. |
| EggStore.GroupIndex | src/game/AppGame.js:1207 | Returns -1 exactly when no group has the key (`map.has`). Otherwise returns the index of a group with that key (`map.get`). |
| EggStore.SumCountsIncrement | src/game/AppGame.js:1210 | Bumping one group's count raises the total count by one. |
| EggStore.SumCountsAppend | src/game/AppGame.js:1208 | Appending a group adds its count to the total. |
| EggStore.FoundExtends | src/game/AppGame.js:1203-1209 | A key found in a prefix of the keys is still found, at the same recorded position, in the whole. |
| EggStore.TabulatesNewKey | src/game/AppGame.js:1207-1210 | A key not seen before opens a new group with count 1, and the groups still tabulate the longer key list. |
| EggStore.TabulatesKnownKey | src/game/AppGame.js:1210 | A key seen before bumps its group's count and nothing else, and the groups still tabulate the longer key list. |
| EggStore.TabulatedKeysDistinct | src/game/AppGame.js:1202-1212 | Groups that tabulate a key list have pairwise different keys. |
| EggStore.AddToGroups | src/game/AppGame.js:1207-1210 | Adding an egg appends `(key, egg, 1)` for a new key, or raises the count of the key's group by one for a known key. |
| EggStore.GroupsOfStep | src/game/AppGame.js:1203-1211 | Grouping one more egg is one more `AddToGroups` step. |
| EggStore.GroupsOfTabulates | src/game/AppGame.js:1201-1213 | The built groups tabulate the key list: one per first occurrence, in that order, with the first egg and the number of occurrences. |
| EggStore.GroupsOfCount | src/game/AppGame.js:1201-1213 | The group counts add up to the number of eggs grouped. |
| EggStore.GroupsOfIsGrouping | src/game/AppGame.js:1201-1213 | Exactly one group per distinct `id:bet` key, in first-occurrence order: the recorded positions increase, each is the first position of its key, and every key has one. Each group holds the first egg with its key and the number of eggs sharing the key; no two groups share a key; the counts sum to the input length. |
| EggStore.GroupEggs | src/game/AppGame.js:1201-1213 | The loop builds exactly the groups `GroupsOfIsGrouping` characterises. |
| EggStore.PickEggFromGroup | src/game/AppGame.js:1215-1219 | Null exactly for an empty list. With no group, the list's first egg. With a group, the result is the first egg matching the group's id and bet when one exists, else the list's first egg. |
| EggStore.FirstMatch | src/game/AppGame.js:1218 | Returns -1 exactly when no egg matches the id and bet. Otherwise returns the first matching position. |
| EggStore.EggLevel | src/game/AppGame.js:1481-1484 | The level is tries + 1 below the cap and exactly `maxCracks` at or above it, so it never exceeds the cap; it is at least 1 for non-negative tries. |
| EggStore.SpriteLevel | src/game/AppGame.js:1495 | The drawn level is always within 1..maxCracks. An in-range level is kept, a missing (zero) or negative level becomes 1, and one above the cap becomes the cap. |
| EggStore.SpriteType | src/game/AppGame.js:1494 | Premium art exactly for a premium egg, gold art for every other egg or none. |
| EggStore.EggSpriteUrls | src/game/AppGame.js:1493-1501 | The URLs are always the egg type's art at some level within 1..maxCracks. That level is the given one when it is in range, 1 when it is missing or negative, and the cap when it is above it. |
| EggStore.ArtKeyLevel | src/game/AppGame.js:1500 | The cache key names its level: the number after the key's last dash is the level it was built for, so keys of different levels differ. |
| Game.OutcomeOf | src/game/AppGame.js:715-781 | Classifies the `result` string; each of stored, cashout, win and lose is recognised for exactly its own string. |
| Game.AppGame.constructor | src/game/AppGame.js:29-46 | The session starts at home with empty pools and histories, cap 3, nothing active or locked, the gold tab, and 5 cracks per egg. |
| Game.AppGame.FindEggByUid | src/game/AppGame.js:2046-2050 | Null exactly for a missing or empty uid, or a uid absent from the chosen pool. Otherwise the egg at the first position of that pool holding the uid. |
| Game.AppGame.ActiveEgg | src/game/AppGame.js:2042-2044 | Null exactly when no active uid is set or the active pool has no egg with it. Otherwise the egg is in the active pool and carries the active uid. |
| Game.AppGame.ResultEgg | src/game/AppGame.js:713 | With a truthy `eggId`, the egg of the active pool with that uid, null exactly when there is none. Without one, the active egg. |
| Game.AppGame.FindLatestStoredById | src/game/AppGame.js:2052-2058 | Null exactly for an empty id or no stored egg with that id. Otherwise the stored egg with that id at the last position; no later egg has it. |
| Game.AppGame.LockUI | src/game/AppGame.js:2143-2144 | Only `isLocked` changes. |
| Game.AppGame.RecordHistory | src/game/AppGame.js:2028-2037 | Exactly one entry, built from the egg as it is now, goes in front of `history`; nothing else changes. |
| Game.AppGame.RenderPlay | src/game/AppGame.js:1036-1051 | When no active egg resolves, the crack and bonus flags are reset. Otherwise nothing changes. |
| Game.AppGame.EnterPlay | src/game/AppGame.js:959-967 | No change for a null egg. Otherwise the egg becomes active from the given pool, the crack overlay is cleared and the view is play. If the pool has no egg with that uid, the bonus flag is also reset. For an egg that is in the pool, nothing else changes. |
| Game.AppGame.GoHome | src/game/AppGame.js:969-976 | No change while locked. Otherwise nothing is active, the overlay is cleared and the view is home; nothing else changes. |
| Game.AppGame.RetrieveStoredEgg | src/game/AppGame.js:916-923 | No change while locked, for a null egg, or for the egg already active. Otherwise the egg becomes active from storage in play mode, as in `EnterPlay`, and the bonus flag is reset when storage has no egg with its uid. |
| Game.AppGame.RemoveActiveEgg | src/game/AppGame.js:2129-2136 | Reports whether an active uid was set. If so, its first entry leaves both pools and the uid is cleared; otherwise nothing changes. Storage stays duplicate-free. |
| Game.AppGame.StoreCopy | src/game/AppGame.js:2122 | A fresh copy of the egg is appended to `storedEggs`, and nothing else changes. Storage stays duplicate-free when the uid was absent. |
| Game.AppGame.MoveActiveToStored | src/game/AppGame.js:2116-2127 | No change with no active egg or full storage. Otherwise a copy is appended only if the uid is not stored yet, the uid's first entry leaves `boughtEggs`, and nothing is active. The cap and duplicate-freedom are kept. |
| Game.AppGame.SelectEggTab | src/game/AppGame.js:937-957 | With an unstored active egg and full storage, refused with no change at all (the tab included). With no active egg, the tab changes and the crack and bonus flags are reset. Otherwise the egg is appended once if it is not stored, the active egg and both flags are cleared, and the tab is set. The cap and duplicate-freedom are kept. |
| Game.AppGame.HandleBuy | src/game/AppGame.js:830-842 | No change while locked, with an egg active, or with storage full. Otherwise one fresh egg of the tab's template (0 tries, last win 0) is appended to both pools as the same object, becomes active from storage in play mode, and the uid counter advances. The cap is kept. If storage was duplicate-free with every uid minted below the counter, it stays so. |
| Game.AppGame.HandleCrack | src/game/AppGame.js:793-813 | No request and no change while locked, with no egg or handler, or at `maxCracks` tries. Otherwise the egg records the level of this crack, the session locks, and the request carries the egg's bet, uid and current tries. No other egg changes. |
| Game.AppGame.HandleCashout | src/game/AppGame.js:815-828 | No request and no change while locked or with no egg. Otherwise the session locks and a cashout request carries the egg's bet, uid and tries. |
| Game.AppGame.ApplyStored | src/game/AppGame.js:715-723 | The bonus flag is cleared and the tab reselected (the current one, or `gold`). With no active egg, the crack overlay is also cleared and nothing else changes. With an active egg and room, its first entry leaves `boughtEggs`, a fresh copy is stored unless its uid already is, nothing is active and the overlay is cleared. With storage full, an already-stored egg is only deactivated (overlay cleared), and an unstored one stays active (the switch is refused). Nothing else changes; the cap and duplicate-freedom are kept. |
| Game.AppGame.ApplyCashout | src/game/AppGame.js:725-745 | The active egg leaves both pools. With a result egg, a cashout entry for its last win goes in front of `cashoutHistory`, cut to 20 entries. One status-2 entry with that amount is prepended, the view is play, and the crack and bonus flags are reset; nothing else changes. |
| Game.AppGame.ApplyWin | src/game/AppGame.js:747-770 | The egg's tries go up by one, capped at `maxCracks`, its last win is the win amount and its bet rises per `BetAfterWin`. One status-1 entry is prepended. The egg is appended to storage only if its uid is absent (no cap check), so afterwards it is stored and storage stays duplicate-free. |
| Game.AppGame.ApplyLose | src/game/AppGame.js:771-779 | The egg's tries go up by one, capped; the active egg's first entries leave both pools and the active uid is cleared. One status-0 entry is prepended; nothing else changes. |
| Game.AppGame.ApplyCrackOrOther | src/game/AppGame.js:747-790 | A win sets all five egg fields as `ApplyWin` does and has its session effect, then the render reset. A lose sets all five egg fields and has the session effect `ApplyLose` states, except that the crack overlay ends cleared, since no uid is then active. Any other outcome leaves the egg untouched (it is outside the frame) and clears the bonus flag, then the render reset. Balance and lock are untouched; with no active egg left both flags are reset; storage stays duplicate-free. |
| Game.AppGame.ShowResult | src/game/AppGame.js:707-790 | Applies a server result in one step: records a present balance, dispatches to the branch for the outcome, and always ends unlocked. After a cashout or a lose, no uid is active and the crack and bonus flags are reset. Storage stays duplicate-free. |
| Game.AppGame.ConfirmResult | src/game/AppGame.js:898-911 | The overlay and bonus flag are cleared. A loss clears the active egg. A win that used the last try marks the egg maxed and clears the active egg. Every egg field other than `isMaxed` (tries, bet, last win and crack level) is untouched. |
| Game.AppGame.InitTabEggs | src/game/AppGame.js:677-683 | Empties the bought pool, returns to the gold tab with nothing active from the bought pool; nothing else changes. |
| Game.AppGame.SetConfig | src/game/AppGame.js:669-675 | Resets the tab state as `InitTabEggs` does and keeps the stored pool. Takes a non-empty configured currency (else the current one) and a configured cap (else 3). With nothing active, rendering resets the crack and bonus flags. |
| Server.BuildStatus | server/index.js:18-23 | 1 exactly for win, 0 exactly for lose, 2 exactly for cashout or redeemed, and null for every other result. |
| Server.BuildLevel | server/index.js:25-28 | Always within 1..5. It is 1 for a non-number and for try indices at or below 0, try index + 1 in between, and 5 from try index 4 up. |
| Server.LogOf | server/index.js:166-182 | The log line's time, result, status, win amount and bonus are the response's. Its balance-before is the pre-action balance and its balance-after is the response balance. |
| Server.ResolveCrack | server/index.js:144-149 | A bonus always implies a win, under all four switch combinations. A roll below 0.5 (or FORCE_WIN) wins, and the bonus lies below 0.01 (or follows the win under FORCE_BONUS). The amount is 0, the bet or twice the bet, and for a non-zero bet it is 0 exactly on a loss. |
| Server.StoreDecision | server/index.js:73-86 | The balance is unchanged, with result `stored`, status null, amount 0 and no bonus. |
| Server.CashoutDecision | server/index.js:107-121 | The amount is the bet amount, the balance becomes `max(0, before + amount)`, the status is 2, and the result is `redeemed` exactly for a redeem, else `cashout`. |
| Server.CrackDecision | server/index.js:144-165 | The result is win or lose on the roll, with status 1 or 0. The amount and bonus follow `ResolveCrack`, and the balance becomes `max(0, before + amount - bet)`. |
| Server.Decide | server/index.js:59-184 | The answer is always ok and stamped with the request time. The response balance is the new balance, and the log line is built from the response and the old balance. The status is `BuildStatus` of the result and the level is `BuildLevel` of the try index. A bonus only comes with a win. The balance is never negative after a non-store action, and a store leaves it unchanged. |
| Server.GameServer.constructor | server/index.js:16 | The balance starts at 1000. |
| Server.GameServer.HandleInit | server/index.js:39-57 | Echoes the user (default empty) and language (default `en`) and reports the current balance. The catalogue is always the fixed pair, gold at 100 and premium at 1000: two eggs with different ids and positive bets. Currency RM and cap 3. |
| Server.GameServer.HandleAction | server/index.js:59-184 | The response, log line and new balance are exactly those of `Decide` after the body defaults. A non-negative balance stays non-negative. |
| Server.BalanceStaysNonNegative | server/index.js:107-150 | From a non-negative balance, no sequence of requests, under any switches and rolls, makes the balance negative. |
| GameApi.NormalizeBaseUrl | src/api/gameApi.js:1 | An unset base becomes empty. A base ending in `/` loses exactly that last character; any other base is kept. |
| GameApi.NormalizeStripsOneSlash | src/api/gameApi.js:1 | Only one slash is stripped: `s/` becomes `s`, and `s//` becomes `s/`. |
| GameApi.ShouldMock | src/api/gameApi.js:2-3 | The mock runs whenever the flag is `true`. Outside development, it runs only then. In development without the flag, it runs exactly when no base URL is set, the base is empty, or it is a bare `/`. |
| GameApi.BuildUrl | src/api/gameApi.js:8-11 | The path alone for an empty base, otherwise base followed by path; the URL always ends with the path. |
| GameApi.BuildUrlJoinsOnce | src/api/gameApi.js:1-11 | A base configured with one trailing slash joins an absolute path with a single slash. |
| GameApi.Multiplier | src/api/gameApi.js:72 | The payout multiplier is 2, 3 or 4, according to the third of [0, 1) the roll falls in. |
| GameApi.MockStep | src/api/gameApi.js:63-80 | Winning happens exactly when the roll is below the chance. A win pays bet × multiplier, adds it to the balance and lowers the chance by 5 to no less than 20. A loss pays 0, takes the bet off the balance down to no less than 0, and raises the chance by 5 to no more than 80. |
| GameApi.MockStepKeepsBounds | src/api/gameApi.js:74-79 | One step keeps the chance on the 5% grid within 20..80 whatever the bet. From a non-negative balance, a non-negative bet keeps the balance non-negative. |
| GameApi.MockRunKeepsBounds | src/api/gameApi.js:63-80 | Across any sequence of actions, the chance stays on the grid within 20..80. From a non-negative balance, a run of non-negative bets keeps the balance non-negative. |
| GameApi.InitialMockRunKeepsBounds | src/api/gameApi.js:5-6 | From the initial balance 1000 and chance 50%, every run keeps the chance within 20..80, and a run of non-negative bets keeps the balance non-negative. |
| GameApi.MockBackend.constructor | src/api/gameApi.js:5-6 | The mock starts with balance 1000 and chance 50%. |
| GameApi.MockBackend.MockInit | src/api/gameApi.js:44-61 | Always the fixed catalogue: bet sizes 1, 5, 10, the three eggs gold 1, ruby 5 and jade 10, in CNY. So the ids are distinct and every egg's bet is an offered size. It echoes the language (default `en`) and reports the current balance as a mock answer. |
| GameApi.MockBackend.MockAction | src/api/gameApi.js:63-90 | The new balance and chance, and the response, are exactly one `MockStep` with the bet defaulting to 1. |

## Left out

- Rendering, animation, DOM, modals, toasts and audio are not modelled. Their one effect on session fields is kept: `_renderPlay` resets the crack and bonus flags when no egg is active (`RenderPlay`), at each call from a modelled operation. The calls from sprite loading and from resizing are not modelled.
- The Express wiring, the log file write and `fetch` are not modelled. The log line is returned as data.
- `Math.random`, `Date.now` and `new Date()` become parameters (rolls, `now`). The uid clock is a `nat`. The `makeUid` counter is the field `uidCounter`. In the source it is module-level and shared by every `AppGame` instance; the model keeps one counter per session.
- The `await`s inside `showResult`, `_handleCrack` and the animations are not modelled: each result application is one atomic step.
- Floating point is not modelled. The 0.01 / 0.49 thresholds are exact reals, and the mock's chance is an integer percentage, so IEEE rounding of `0.5 - 0.05·k` is not reproduced.
- JSON values of the wrong type are not modelled: bet amounts are integers and egg fields always numbers. A non-numeric `betAmount`, a string `bet`, and the `?? 0` / `'na'` fallbacks are therefore not modelled.
- Server.BuildLevel: an infinite `tryIndex` is not modelled (it would give 5). `NaN` and non-numbers are one case.
- Egg `label` is named `title` in the model, because `label` is a Dafny keyword. The cashout entry's `label ?? id ?? 'Egg'` is the egg's title, which template eggs always have.
- EggStore.GroupKey: the string key `id:bet` is modelled as the pair (id, bet). A bet is a number and has no `:`, so two keys are equal exactly when the pairs are.
- EggStore.GroupEggs: each group holds a reference to its first egg. The source holds a shallow copy with a `groupKey` field and the base id in place of `id`.
- Game.AppGame.ApplyCashout: the amount recorded is the egg's `lastWinAmount`, as the code does. The egg's current bet, which could also be read as the payout, is not used.
- Game.AppGame.ShowResult: the server's `redeemed` result is an "other" outcome here, as in the code: it only clears the bonus flag.
- Game.AppGame.ShowResult: its own contract states the unlock, the balance, duplicate-freedom and the flag reset after a cashout or a lose. Each branch's full effect is the contract of `ApplyStored` or `ApplyCashout`, or of `ApplyWin` / `ApplyLose` followed by `RenderPlay` (in `ApplyCrackOrOther`).
- Game.AppGame.ShowResult: the balance is recorded after the result egg is looked up. The source records it first, but the lookup does not read the balance.
- Game.AppGame.HandleCrack: the lock test of the crack button and the handler test are folded into one guard. The request is returned rather than passed to `onAction`.
- Game.AppGame.HandleCashout: the request is returned even when no `onAction` handler is set (the source then sends nothing, but still locks).
- `_getEggLevelForDisplay`, `previousTabId`, `lastResultText` and `_prevEggOnStoredLose` are display state and are not modelled.
- The client dispatch path that sends `'spin'` is not modelled (`src/bootstrap/startGame.js` is not part of this model). So the client and server contracts are stated separately, not end to end.
- Game.AppGame.HandleBuy: keeps duplicate-freedom only for a pool whose uids were all minted below the counter (`MintedBelow`). The other operations do not promise to keep `MintedBelow`, so it is not a class invariant.
- Game.AppGame.ApplyStored: clears the bonus flag after storing and reselecting rather than before, and picks the tab before storing rather than after. Neither step reads the flag or changes the tab, and the only other write to the flag also sets it false, so the result is the same.
- The storage cap is kept per operation (buy, tab switch, move to storage), not as an invariant. The win path may push a stored egg beyond `maxStored`, as the source does.
- The server shares its balance between all users. The model has one `GameServer` object for it; concurrent requests are not modelled.
- GameApi.MockBackend.MockAction: the `eggId` of the payload is unused by the source and is not a parameter; `reels` is the constant `[1, 2, 3]`.
