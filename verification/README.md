# mqtt-avanza: the reshaper and the change-gated publisher

mqtt-avanza polls a brokerage account API and publishes what it finds to an MQTT broker.
This project models the two pieces of sequential logic between those calls, and proves what
they promise.

- **The summary reshaper** (`avanza-summary.js`). `fetchAccounts` builds one summary per
  account of the overview. Each summary starts with an empty `positions` list. It then walks
  the flat position list and appends each position's summary to the first account whose id
  matches. A position that matches no account is dropped. `fetchWatch` turns every orderbook
  of every watchlist into an item. It picks the item's `change` by a switch on the
  lower-cased instrument type, and groups the items under the watchlist's name.
- **The change-gated publisher** (`mqtt-avanza.js`, `App.loop`). For every account it builds a
  summary and serialises it. It publishes the summary, retained, to `<topic>/<name>` only when
  the cache holds nothing or something else under that name. It then caches the new text.
  In debug mode it also echoes the whole overview to the root topic once per cycle. For each
  changed account it also sends the raw account and account overview, not retained.

Files:

- `js.dfy`: the JavaScript conventions the code relies on. `Field` is a property that is
  undefined, null or a value, with loose `== undefined`. `Round` stands for the `round(x, places)`
  helper, and `ToLower` for `toLowerCase`.
- `avanza.dfy`: the records the brokerage client answers with. `Client` bundles one cycle's
  answers. The argument-less calls (`getOverview`, `getPositions`, `getWatchlists`) are values.
  The per-id calls (`getAccountOverview`, `getOrderbooks`, `getInstrument`) are functions of
  their arguments.
- `avanza_summary.dfy`: `FetchAccounts` and `FetchWatch` are loop methods, proved against the
  specification functions `AttachedTo`, `ItemsUnder`, `Named` and `KeyOrder`, with lemmas about
  those functions.
- `mqtt_avanza.dfy`: class `App`, with the `cache` map and a ghost log `sent` of every
  `publish` call. The one-candidate gate `Step` and the whole account loop `Run` specify its
  methods, and lemmas state what the gate guarantees.

The rounding helper and `JSON.stringify` are parameters: `round` is any function of type
`Round`, and the serialiser is any `Serializer`. Every contract therefore holds for every
rounding and every deterministic serialisation.

Behaviour of the code worth knowing, all of it kept in the model:

- A missing value is not always turned into null. A position's `lastPriceUpdated` is copied
  as it is, so an undefined one stays undefined (`NewPositionSummary`). For an index,
  `instrument.changePercent || null` turns a change of exactly 0 into null (`NewWatchItem`).
- The publisher keys its cache by the account's name alone, not by the topic path and an
  account id. In a cycle made of exactly two accounts that share a name and differ in summary,
  both are republished on every repeat, each overwriting the other under one retained topic
  (`SharedNameRepublishes`). In general, the account loop of a second cycle is quiet exactly
  when names determine summaries (`SecondLoopQuietIff`). In debug mode every cycle still
  echoes the overview to the root topic.
- The two entry points round differently. `avanza-summary.js` rounds capital, position values
  and position profits to whole numbers, performances to two places (one place for the
  three-year window), and passes no places argument for the account profits. `mqtt-avanza.js`
  rounds capital, the total profit and the year-to-date profit to tens, every performance to
  one place, and passes no places argument for the window profits. Each summary function keeps
  its own file's precision.

## Model

| member | source | states |
|---|---|---|
| `Js.ToLower` | avanza-summary.js:46 | the lower-cased type has the input's length, contains no upper-case ASCII letter, keeps every other character and maps each upper-case letter to its lower-case one |
| `AvanzaSummary.NewAccountSummary` | avanza-summary.js:85-124 | an account's summary carries the account's name, id and type, and starts with an empty `positions` list |
| `AvanzaSummary.NewPositionSummary` | avanza-summary.js:139-147 | a position's summary takes the id of its orderbook and the type of the instrument it is listed under; its name is the position's name, and its date is the position's `lastPriceUpdated` unchanged, undefined included |
| `AvanzaSummary.FirstIndex` | avanza-summary.js:134-136 | the index `find` stops at is the first whose id equals the position's account id; there is none exactly when no id matches |
| `AvanzaSummary.FindAccount` | avanza-summary.js:134-136 | the loop returns the first account whose id matches, or none when no id matches |
| `AvanzaSummary.Attach` | avanza-summary.js:134-161 | one position's summary is appended to the first matching account; every other account, and every account when none matches, is left unchanged |
| `AvanzaSummary.FetchAccounts` | avanza-summary.js:75-167 | the result has one summary per overview account, in overview order; summary k carries exactly the positions whose account id is first found at k, in listing order |
| `AvanzaSummary.AttachedConcat` | avanza-summary.js:130-163 | what an account gains from two stretches of positions is what it gains from the first followed by what it gains from the second, so positions keep their listing order |
| `AvanzaSummary.UnknownAccountDropped` | avanza-summary.js:134-138 | a position whose account id matches no account adds nothing to any account |
| `AvanzaSummary.AttachedToFirstMatch` | avanza-summary.js:134-159 | a position is appended to the first account with its id and to no other account |
| `AvanzaSummary.AttachedTotalIsKnownCount` | avanza-summary.js:130-164 | summed over all accounts, the attached positions number exactly the input positions whose account id matches some account |
| `AvanzaSummary.NewWatchItem` | avanza-summary.js:39-62 | `date` is null exactly when `updated` is undefined or null, and is `updated` otherwise; `type` is the lower-cased instrument type; `change` is set exactly for fund, index and stock; fund takes `changeSinceOneDay` and stock takes the orderbook's `changePercent`, each null when undefined; index takes the instrument's `changePercent`, null when it is falsy, zero included |
| `AvanzaSummary.Push` | avanza-summary.js:65-68 | pushing under a name creates the key when missing and appends the item to that key's list; every other key keeps its list |
| `AvanzaSummary.GroupBooks` | avanza-summary.js:37-69 | after one watchlist, its name is a key exactly when it was one already or the watchlist has an orderbook; that key's list grows by the watchlist's items in orderbook order; other keys are untouched |
| `AvanzaSummary.FetchWatch` | avanza-summary.js:29-73 | the keys are the names of the watchlists that have at least one orderbook; each key holds the items of every watchlist of that name, watchlist after watchlist and orderbook after orderbook; the ghost `keys` it returns is the order in which the keys were created, a name entering when its first item is pushed |
| `AvanzaSummary.NamedIffItems` | avanza-summary.js:65-68 | a name is a key exactly when at least one item was pushed under it, so a watchlist without orderbooks yields no key |
| `AvanzaSummary.KeyOrderListsNamed` | avanza-summary.js:65-66 | the order in which keys are created lists every key of the grouping, and each exactly once |
| `AvanzaSummary.KeyOrderPrefix` | avanza-summary.js:65-66 | the keys created after any number of watchlists are a prefix of the final key order, so keys appear in the order their first item was pushed |
| `AvanzaSummary.ItemsUnderConcat` | avanza-summary.js:65-68 | grouping two stretches of watchlists concatenates their lists under each name, so watchlists with the same name share one list in watchlist order |
| `MqttAvanza.Summarize` | mqtt-avanza.js:68-105 | the summary is keyed by the account's name and carries its type |
| `MqttAvanza.CandidateFor` | mqtt-avanza.js:66-107 | what the loop offers the gate for an account is cached under that account's name |
| `MqttAvanza.App.constructor` | mqtt-avanza.js:28 | the publisher starts with an empty cache and has published nothing |
| `MqttAvanza.App.PublishIfChanged` | mqtt-avanza.js:107-114 | it publishes exactly when nothing or something else is cached under the name; then the cache entry becomes the payload, and the summary is sent retained to `<topic>/<name>`, followed in debug mode by the account and overview unretained; otherwise nothing changes |
| `MqttAvanza.App.Loop` | mqtt-avanza.js:54-118 | a cycle sends the overview echo first (debug mode only), then what the gate emits for the accounts in overview order, and leaves the cache the gate ends with |
| `MqttAvanza.App.PublishAccounts` | mqtt-avanza.js:65-115 | the account loop's cache and publishes are those of the gate applied to the accounts' candidates in overview order |
| `MqttAvanza.StepPublishesIffChanged` | mqtt-avanza.js:107-109 | something is published exactly when the cache lacks the name or holds a different text; the first publish is the retained summary under `<topic>/<name>`, and its payload is the new cache entry |
| `MqttAvanza.StepWritesOnlyItsName` | mqtt-avanza.js:108 | only the entry under the summary's name is written; afterwards it holds the summary's text, and every other entry is unchanged |
| `MqttAvanza.StepIdempotent` | mqtt-avanza.js:107-109 | offering the same summary twice in a row publishes nothing the second time and leaves the cache as it was |
| `MqttAvanza.DebugOnlyWhenChanged` | mqtt-avanza.js:110-113 | an unretained publish for an account happens exactly when debug is on and the summary changed |
| `MqttAvanza.RunConcat` | mqtt-avanza.js:65-115 | running the gate over two stretches of accounts equals running it over the first and then over the second from the resulting cache; publishes follow account order |
| `MqttAvanza.RunStaysBelowRoot` | mqtt-avanza.js:109-112 | every publish of the account loop goes to a topic that starts with `<topic>/` |
| `MqttAvanza.CycleRootPublishFirst` | mqtt-avanza.js:60-62 | in one cycle the root topic is published to only in debug mode, at most once, as the first publish, carrying the serialised overview unretained |
| `MqttAvanza.RunWritesOnlyNames` | mqtt-avanza.js:107-108 | a cycle adds cache keys only for the accounts' names and leaves every other entry unchanged |
| `MqttAvanza.RunRemembers` | mqtt-avanza.js:107-108 | when names determine summaries, after a cycle the cache holds every account's serialised summary |
| `MqttAvanza.RunQuiet` | mqtt-avanza.js:107 | an account loop whose summaries are all already cached publishes nothing and leaves the cache alone |
| `MqttAvanza.QuietRunHeld` | mqtt-avanza.js:107-108 | an account loop that publishes nothing leaves the cache alone and found every account's summary already cached under its name |
| `MqttAvanza.CycleIdempotent` | mqtt-avanza.js:65-115 | repeating the account loop of a cycle with identical input publishes nothing, provided no two accounts share a name with different summaries; the debug overview echo is still sent |
| `MqttAvanza.SecondLoopQuietIff` | mqtt-avanza.js:65-115 | the repeated account loop publishes nothing exactly when no two accounts share a name with different summaries |
| `MqttAvanza.SharedNameRepublishes` | mqtt-avanza.js:107-109 | in a cycle made of exactly two accounts that share a name and differ in summary, both are republished when the cycle is repeated |

## Left out

- `raw.js`, `summary.js` and `test.js` are not part of this model. They only fetch, wire up
  and print.
- `fetch` (avanza-summary.js:20-27) only puts the two results into one object. It is not
  modelled separately.
- The constructors, `authenticate`, `connect`, `login` and the option parsing are left out.
  They are I/O and configuration. The cycle reads only `debug` and `topic`, through `Config`.
- The `setTimeout` rescheduling (mqtt-avanza.js:117) is left out. One call of `App.Loop` is one
  cycle.
- A failing or hanging client or broker call is not modelled. Every call answers, and repeated
  calls with the same arguments within a cycle answer the same.
- The numerics of `round` (floating point, NaN) are not modelled. Numbers are `real`, and a
  NaN, which JavaScript would also treat as falsy in `|| null`, cannot occur.
- How `JSON.stringify` produces its text is not modelled. Only its determinism is used.
- `console.log` and the debug logging are left out.
- `ToLower` covers the ASCII letters only. JavaScript's full Unicode case mapping is not
  modelled.
- JavaScript object-key quirks are not modelled. The cache and the watchlist grouping behave
  as plain maps. In the code, a name such as `__proto__` or `constructor` would hit the
  object's prototype.
- The code mutates account summaries through the reference that `accounts.find` returns. The
  model updates the sequence at the found index instead. Nothing else holds those references.
- `App.Loop`: the serialised payloads are not modelled as text.
  The model passes each record kind through its own serialiser function.
- `NewPositionSummary`: its contract states the date, name, type and id. The rounded change,
  value, profit and performance are defined by its body only, because `round` is opaque.
- `FetchWatch`: the key order it returns is creation order. JavaScript lists names that are
  array indices (such as `"0"` or `"42"`) before all other names, in ascending numeric order;
  that reordering, which `JSON.stringify` would show, is not modelled.
- `NewAccountSummary`: its contract states the identity fields and the empty `positions`
  list. The rounded figures are defined by its body only, because `round` is opaque.
- `Summarize`: its contract states only the cache key (the name) and the type. The rounded
  figures, to tens and to one place, are defined by its body only, because `round` is opaque.
- `CandidateFor`: its contract states only the cache key. Its payloads are the serialiser's
  output for the summary, the account and the account overview, as its body gives them.
