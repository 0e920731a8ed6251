/**
  The polling price client's `App`: its BTC and ETH price fields, the last
  update time, one fetch of each price, the snapshot handed to the front end
  and the window title.

  The network part of a fetch (request, body read, JSON decode) is an input
  `Response`; timestamps are integers, with 0 for Go's zero `time.Time`; the
  Wails context is only recorded as present or absent.
*/
module PriceApp {
  import opened Wrappers
  import opened AppConfig
  import opened PriceFormat
  import Proxy

  /** Placeholder shown before the first fetch. */
  const Loading: string := "加载中..."
  /** Shown for a price whose fetch failed. */
  const NotAvailable: string := "N/A"

  /** The snapshot returned to the front end. */
  datatype PriceData = PriceData(btc: string, eth: string, lastUpdate: int)

  /** What one fetch round sends to the window: the `price-update` event payload and the title. */
  datatype Notice = Notice(event: PriceData, title: string)

  /** The outcome of the HTTP request, body read and JSON decode for one symbol. */
  datatype Response = RequestFailed | ReadFailed | DecodeFailed | Ticker(price: string)

  /** The three error returns of `fetchPrice`. */
  datatype FetchError = RequestError | ReadError | DecodeError

  /** The price field value a response leads to: the formatted price, or "N/A" on any failure. */
  function Shown(resp: Response): (r: string)
    ensures !resp.Ticker? ==> r == "N/A"
    ensures resp.Ticker? ==> r <= resp.price
  {
    if resp.Ticker? then FormatPrice(resp.price) else NotAvailable
  }

  /** A successful fetch shows at most two fraction characters, and an empty raw price stays "" (not "N/A"). */
  lemma ShownPrice(resp: Response)
    ensures resp.Ticker? ==> FractionLength(Shown(resp)) <= 2
    ensures resp.Ticker? && resp.price == "" ==> Shown(resp) == ""
  {
    if resp.Ticker? {
      AtMostTwoFractionChars(resp.price);
    }
  }

  /**
    The window title "BTC: $<btc> | ETH: $<eth>". It can be taken apart again:
    the fixed text, the BTC price, the separator, the ETH price.
  */
  function Title(btc: string, eth: string): (t: string)
    ensures |t| == |btc| + |eth| + 15
    ensures t[..6] == "BTC: $"
    ensures t[6..6 + |btc|] == btc
    ensures t[6 + |btc|..15 + |btc|] == " | ETH: $"
    ensures t[15 + |btc|..] == eth
  {
    var t := "BTC: $" + btc + " | ETH: $" + eth;
    assert t == "BTC: $" + (btc + (" | ETH: $" + eth));
    t
  }

  class App {
    /** Whether `startup` has stored the Wails context (Go's `ctx != nil`). */
    var hasContext: bool
    var btcPrice: string
    var ethPrice: string
    var lastUpdate: int
    var config: Config

    /** `NewApp`: both prices show the loading placeholder, the config comes from `loadConfig`. */
    constructor (file: ConfigFile)
      ensures !hasContext
      ensures btcPrice == Loading && ethPrice == Loading
      ensures lastUpdate == 0
      ensures config == LoadConfig(file)
    {
      hasContext := false;
      btcPrice := Loading;
      ethPrice := Loading;
      lastUpdate := 0;
      config := LoadConfig(file);
    }

    /** The part of `startup` that stores the context; nothing else changes. */
    method Startup()
      modifies this
      ensures hasContext
      ensures btcPrice == old(btcPrice) && ethPrice == old(ethPrice)
      ensures lastUpdate == old(lastUpdate) && config == old(config)
    {
      hasContext := true;
    }

    /** `GetPrices`: the current prices, as stored, and the last update time. */
    function GetPrices(): (d: PriceData)
      reads this
      ensures d.btc == btcPrice && d.eth == ethPrice && d.lastUpdate == lastUpdate
    {
      PriceData(btcPrice, ethPrice, lastUpdate)
    }

    /** The proxy `getHTTPClient` configures, given the two environment variables. */
    function ClientProxy(httpEnv: string, httpsEnv: string, parses: string -> bool): (r: Option<string>)
      reads this
      ensures r.Some? ==> parses(r.value)
      ensures httpEnv == "" && httpsEnv == "" && !config.proxy.enabled ==> r == None
    {
      Proxy.SelectProxy(httpEnv, httpsEnv, Some(config), parses)
    }

    /** `fetchPrice`: a failure is passed on, a decoded price is formatted. */
    method FetchPrice(resp: Response) returns (r: Result<string, FetchError>)
      ensures r.Success? <==> resp.Ticker?
      ensures resp.Ticker? ==> r.value == FormatPrice(resp.price)
      ensures resp.RequestFailed? ==> r == Failure(RequestError)
      ensures resp.ReadFailed? ==> r == Failure(ReadError)
      ensures resp.DecodeFailed? ==> r == Failure(DecodeError)
    {
      match resp
      case RequestFailed => r := Failure(RequestError);
      case ReadFailed => r := Failure(ReadError);
      case DecodeFailed => r := Failure(DecodeError);
      case Ticker(raw) =>
        var price := TruncatePrice(raw);
        r := Success(price);
    }

    /**
      `fetchPrices`: `btcResp` and `ethResp` are the responses for BTCUSDT and
      ETHUSDT. Each price is set from its own response, independently
      of the other; the update time is set in every case; with a context, the
      snapshot and title of the new state are sent to the window.
    */
    method FetchPrices(btcResp: Response, ethResp: Response, now: int) returns (notice: Option<Notice>)
      modifies this
      ensures btcPrice == Shown(btcResp)
      ensures ethPrice == Shown(ethResp)
      ensures lastUpdate == now
      ensures config == old(config) && hasContext == old(hasContext)
      ensures notice == if hasContext then Some(Notice(GetPrices(), Title(btcPrice, ethPrice))) else None
    {
      var btc := FetchPrice(btcResp);
      if btc.Failure? {
        btcPrice := NotAvailable;
      } else {
        btcPrice := btc.value;
      }

      var eth := FetchPrice(ethResp);
      if eth.Failure? {
        ethPrice := NotAvailable;
      } else {
        ethPrice := eth.value;
      }

      lastUpdate := now;

      notice := None;
      if hasContext {
        var title := Title(btcPrice, ethPrice);
        notice := Some(Notice(GetPrices(), title));
      }
    }
  }

  /** A run through the App: start-up state, a successful BTC fetch and a failed ETH fetch. */
  method Scenario() {
    var app := new App(Missing);
    var d := app.GetPrices();
    assert d.btc == Loading && d.eth == Loading;
    assert app.config.proxy.address == "http://127.0.0.1:7897";

    app.Startup();
    TickerExample();
    var notice := app.FetchPrices(Ticker("60000.123"), RequestFailed, 42);
    d := app.GetPrices();
    assert d == PriceData("60000.12", "N/A", 42);
    assert notice == Some(Notice(d, Title("60000.12", "N/A")));
  }
}
