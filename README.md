# Coin price monitor: the polling price client

A Dafny model of the core of `app.go`, the desktop price monitor's backend.
Every `UpdateInterval` seconds it asks the Binance REST ticker for the BTCUSDT and
ETHUSDT prices. It cuts each price to two fraction characters and stores both in
the `App`, together with the update time. It then sends a snapshot and a window
title to the front end. Its HTTP client takes a proxy from `HTTP_PROXY`, then
`HTTPS_PROXY`, then the configuration file.

Modules (one per concern of `app.go`):

- `Wrappers` (`wrappers.dfy`): `Option` and `Result`, standing for Go's nil pointers and `(value, error)` returns.
- `PriceFormat` (`price_format.dfy`): the price truncation inside `fetchPrice`. It has a pure `FormatPrice` and a method `TruncatePrice` that runs Go's scanning loop; the method is proved to agree with the function.
- `AppConfig` (`app_config.dfy`): `Config` and `loadConfig`. The defaults are overlaid with the keys that `config.json` sets.
- `Proxy` (`proxy.dfy`): the proxy decision of `getHTTPClient`. It is a function of the two environment variables, the config and an uninterpreted `parses` predicate that stands for `url.Parse` succeeding. A reference definition ("first source that is set, kept only if it parses") is proved equal to it.
- `PriceApp` (`price_app.dfy`): class `App` with its mutable fields `btcPrice`, `ethPrice` and `lastUpdate`. It has `NewApp` (the constructor), `GetPrices`, `fetchPrice`, `fetchPrices` and the title string.

Modelling choices:

- A Go string is a byte sequence. Here each element of a Dafny `string` stands for one byte. `'.'` is ASCII, and the byte 0x2E never occurs inside a multi-byte character, so the index at which Go's `for i, c := range price` first sees '.' is the index of the first '.' byte. The non-ASCII placeholder `"加载中..."` is only stored and compared, never measured.
- The network part of `fetchPrice` (request, body read, JSON decode) is an input `Response`: `RequestFailed`, `ReadFailed`, `DecodeFailed` or `Ticker(rawPrice)`.
- `time.Now()` is the integer parameter `now` of `FetchPrices`. The zero `time.Time` of a new `App` is 0.
- The Wails context is the boolean field `hasContext`, Go's `ctx != nil`. `FetchPrices` returns the event payload and the title that it would hand to Wails, or `None` when there is no context.
- Two behaviours of the code that a reader might not expect:
  - An empty raw price stays `""`. It becomes `"N/A"` only when the fetch fails (`Shown`, `ShownPrice`, `ShortExamples`).
  - The configured proxy has the lowest priority, after `HTTP_PROXY` and `HTTPS_PROXY`, as the comment at app.go:83-86 and the branches at app.go:88-109 say.

## Model

| member | source | states |
|---|---|---|
| PriceFormat.DotIndex | app.go:163-169 | -1 exactly when there is no '.'; otherwise an index holding '.' with no '.' before it |
| PriceFormat.FormatPrice | app.go:160-175 | the formatted price is always a prefix of the raw price, so it is never longer |
| PriceFormat.TruncatePrice | app.go:159-173 | the scanning loop and slice give exactly `FormatPrice` of the input |
| PriceFormat.GuardIsRedundant | app.go:161-172 | the `len(price) > 3` guard never changes the result: same as the cut without it |
| PriceFormat.TruncatesToTwoFractionChars | app.go:163-172 | with the first '.' at d and length > d+3, the result is exactly the first d+3 characters, the '.' at d |
| PriceFormat.UnchangedIff | app.go:161-172 | a price is returned unchanged if and only if it has no '.' or at most two characters after its first '.'; "" maps to "" |
| PriceFormat.KeepsIntegerPart | app.go:170-171 | everything up to and including the first '.' is kept; a price without '.' is unchanged |
| PriceFormat.AtMostTwoFractionChars | app.go:170-171 | the result has at most two characters after its first '.' |
| PriceFormat.Idempotent | app.go:160-175 | formatting a formatted price changes nothing |
| PriceFormat.TruncationExample | app.go:170-171 | "12345.6789" becomes "12345.67" |
| PriceFormat.NoRoundingExample | app.go:170-171 | "99.999" becomes "99.99": truncation, no rounding |
| PriceFormat.ShortExamples | app.go:161 | "5", "1.1" and "" are returned unchanged |
| PriceFormat.TwoFractionCharsExample | app.go:170 | "2500.50" (exactly two fraction characters) is unchanged |
| PriceFormat.TickerExample | app.go:170-171 | "60000.123" becomes "60000.12" |
| AppConfig.LoadConfig | app.go:48-67 | a missing or undecodable config file gives the defaults |
| AppConfig.MissingFileDefaults | app.go:49-64 | without a config file: interval 10, proxy enabled, address "http://127.0.0.1:7897"; an undecodable file gives the same |
| AppConfig.EmptyFileIsDefaults | app.go:56-62 | a file that sets no keys leaves the defaults in place |
| AppConfig.KeysOverrideIndependently | app.go:49-62 | each key present in the file replaces its default; each absent key keeps its default |
| Proxy.ConfiguredAddress | app.go:99 | the config proxy is a candidate exactly when the config exists, is enabled and its address is non-empty |
| Proxy.SelectProxy | app.go:88-109 | a chosen proxy always parses, is non-empty and is HTTP_PROXY, HTTPS_PROXY or the enabled config address |
| Proxy.SelectProxyIsFirstCandidate | app.go:83-109 | the choice equals "first set source in the order HTTP_PROXY, HTTPS_PROXY, config, kept only if it parses" |
| Proxy.HttpProxyShadowsLowerSources | app.go:88-93 | a non-empty HTTP_PROXY alone decides; HTTPS_PROXY and the config are not consulted |
| Proxy.HttpsProxyShadowsConfig | app.go:94-98 | with HTTP_PROXY empty, a non-empty HTTPS_PROXY alone decides; the config is not consulted |
| Proxy.ConfigProxyIsLastResort | app.go:99-109 | with both variables empty, a proxy is set exactly when the config enables a non-empty address that parses |
| Proxy.NoFallbackOnParseFailure | app.go:88-109 | if the selected source does not parse, no proxy is set, whatever the lower sources hold |
| PriceApp.Shown | app.go:182-196 | a failed fetch makes the field "N/A"; a successful one makes it a prefix of the raw price |
| PriceApp.ShownPrice | app.go:181-198 | a successful fetch shows at most two fraction characters, and an empty raw price stays "" |
| PriceApp.Title | app.go:207 | the title is "BTC: $", the BTC price, the fixed separator, the ETH price, and nothing else; its length is theirs plus 15 |
| PriceApp.App.constructor | app.go:71-77 | a new App shows "加载中..." for both prices, has zero update time, no context, and the loaded config |
| PriceApp.App.Startup | app.go:119-120 | storing the context changes no price, time or config |
| PriceApp.App.GetPrices | app.go:129-135 | the snapshot holds the current prices unchanged and the last update time, and changes nothing |
| PriceApp.App.ClientProxy | app.go:80-109 | the proxy chosen for the App's own config always parses; none when both variables are empty and the config proxy is disabled |
| PriceApp.App.FetchPrice | app.go:138-176 | each failure step yields its own error; a decoded price yields `FormatPrice` of it |
| PriceApp.App.FetchPrices | app.go:179-210 | each price becomes its formatted fetch result or "N/A", independently; the time is set in every case; config and context unchanged; with a context, the new snapshot and title are sent |

## Left out

- The HTTP request, body read and JSON decode in `fetchPrice` (app.go:140-157): network I/O and library decoding. They are the input `Response`.
- `os.ReadFile`, `json.Unmarshal` and `os.Getenv` (app.go:56-65, 88, 94): file and environment I/O. Their results are parameters (`ConfigFile`, `httpEnv`, `httpsEnv`).
- AppConfig.LoadConfig: `ConfigFile.Malformed` stands for a JSON syntax error, which leaves the defaults in place. On a value of the wrong type, or an `update_interval` that overflows Go's `int`, `json.Unmarshal` skips that value and still decodes every well-typed key. That result is `LoadConfig(Decoded(...))` of the well-typed keys alone; only the log line (not modelled) tells the two cases apart.
- `url.Parse`, `http.Transport`, `http.ProxyURL` and `http.Client` with its 10-second timeout (app.go:81, 90-91, 111-114): foreign library calls. `url.Parse` succeeding is the uninterpreted predicate `parses`.
- `runtime.EventsEmit` and `runtime.WindowSetTitle` (app.go:204, 208): UI plumbing. Only the payload and the title string are modelled, as the `Notice` that `FetchPrices` returns.
- The goroutines started by `startup` and the ticker loop of `startPriceUpdater` (app.go:122-126, 213-228): concurrency and timers. A non-positive `update_interval` would make `time.NewTicker` panic; this is not modelled. The unsynchronised access to the price fields between these goroutines and `GetPrices` is also not modelled.
- `time.Now()` and `lastUpdate.Format("15:04:05")` (app.go:133, 200): wall clock and library formatting. The timestamp is an integer, and `GetPrices` returns it unformatted.
- Log output (`fmt.Printf`, `fmt.Println` throughout).
- `frontend/wailsjs/go/models.ts`: a generated binding that only copies the three `PriceData` fields.
- Only the polling client in `app.go` is modelled.
