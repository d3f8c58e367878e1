/** client.go: building a client from a configuration, the text of an API
    error, and the request URL. Sending the request is not part of this
    model. */
module Api {

  import opened Optional
  import opened Text
  import opened Query

  const DefaultBaseUrl: string := "https://gateway-na.americanexpress.com/api"
  /** `30 * time.Second`, as a `time.Duration` in nanoseconds. */
  const DefaultTimeout: int := 30_000_000_000
  const SdkVersion: string := "1.0.0"

  /** The part of `*http.Client` the SDK sets: its timeout. */
  class HttpClient {
    var timeout: int

    constructor (timeout: int)
      ensures this.timeout == timeout
    {
      this.timeout := timeout;
    }
  }

  /** `Config`, which `NewClient` fills in place. A nil `HTTPClient` is `null`. */
  class Config {
    var baseUrl: string
    var apiKey: string
    var secretKey: string
    var timeout: int
    var httpClient: HttpClient?

    constructor (baseUrl: string, apiKey: string, secretKey: string, timeout: int, httpClient: HttpClient?)
      ensures this.baseUrl == baseUrl && this.apiKey == apiKey && this.secretKey == secretKey
      ensures this.timeout == timeout && this.httpClient == httpClient
    {
      this.baseUrl := baseUrl;
      this.apiKey := apiKey;
      this.secretKey := secretKey;
      this.timeout := timeout;
      this.httpClient := httpClient;
    }
  }

  /** `Client`: its fields are set once, when it is built. */
  class Client {
    const baseUrl: string
    const httpClient: HttpClient
    const apiKey: string
    const secretKey: string
    const userAgent: string

    constructor (baseUrl: string, httpClient: HttpClient, apiKey: string, secretKey: string, userAgent: string)
      ensures this.baseUrl == baseUrl && this.httpClient == httpClient
      ensures this.apiKey == apiKey && this.secretKey == secretKey && this.userAgent == userAgent
    {
      this.baseUrl := baseUrl;
      this.httpClient := httpClient;
      this.apiKey := apiKey;
      this.secretKey := secretKey;
      this.userAgent := userAgent;
    }
  }

  /** `NewClient`. Missing settings are defaulted in the caller's `Config`
      itself (a nil one is replaced by an empty one first); the client keeps
      the base URL without one trailing "/", shares the configuration's HTTP
      client and carries the SDK's user agent. */
  method NewClient(config: Config?) returns (c: Client)
    modifies config
    ensures config != null ==>
      config.baseUrl == (if old(config.baseUrl) == "" then DefaultBaseUrl else old(config.baseUrl)) &&
      config.timeout == (if old(config.timeout) == 0 then DefaultTimeout else old(config.timeout)) &&
      config.apiKey == old(config.apiKey) && config.secretKey == old(config.secretKey)
    ensures config != null && old(config.httpClient) != null ==>
      config.httpClient == old(config.httpClient) && unchanged(old(config.httpClient))
    ensures config != null && old(config.httpClient) == null ==>
      config.httpClient != null && fresh(config.httpClient) && config.httpClient.timeout == config.timeout
    ensures config != null ==>
      c.baseUrl == TrimSuffix(config.baseUrl, "/") && c.httpClient == config.httpClient &&
      c.apiKey == config.apiKey && c.secretKey == config.secretKey
    ensures config == null ==>
      c.baseUrl == DefaultBaseUrl && fresh(c.httpClient) && c.httpClient.timeout == DefaultTimeout &&
      c.apiKey == "" && c.secretKey == ""
    ensures c.userAgent == "AmexSDK-Go/" + SdkVersion
  {
    var cfg := config;
    if cfg == null {
      cfg := new Config("", "", "", 0, null);
    }
    if cfg.baseUrl == "" {
      cfg.baseUrl := DefaultBaseUrl;
    }
    if cfg.timeout == 0 {
      cfg.timeout := DefaultTimeout;
    }
    if cfg.httpClient == null {
      cfg.httpClient := new HttpClient(cfg.timeout);
    }
    DefaultBaseUrlHasNoSlash();
    c := new Client(TrimSuffix(cfg.baseUrl, "/"), cfg.httpClient, cfg.apiKey, cfg.secretKey,
      "AmexSDK-Go/" + SdkVersion);
  }

  /** `NewClient(nil)`: the defaults. */
  method NewClientWithDefaults() returns (c: Client)
    ensures c.baseUrl == DefaultBaseUrl && c.httpClient.timeout == DefaultTimeout
  {
    c := NewClient(null);
  }

  /** A configuration with keys and a ten-second timeout: the keys are copied,
      the base URL is defaulted in the configuration, and the new HTTP client
      takes the configured timeout. */
  method NewClientWithKeys() returns (c: Client, config: Config)
    ensures c.apiKey == "test-api-key" && c.secretKey == "test-secret-key"
    ensures c.baseUrl == DefaultBaseUrl && config.baseUrl == DefaultBaseUrl
    ensures config.timeout == 10_000_000_000 && c.httpClient.timeout == 10_000_000_000
  {
    config := new Config("", "test-api-key", "test-secret-key", 10_000_000_000, null);
    c := NewClient(config);
  }

  lemma DefaultBaseUrlHasNoSlash()
    ensures TrimSuffix(DefaultBaseUrl, "/") == DefaultBaseUrl
  {
    assert DefaultBaseUrl[|DefaultBaseUrl| - 1] == 'i';
  }

  /** A base URL configured with a trailing "/" is stored without it, so a
      path that starts with "/" is joined with a single "/". */
  lemma TrailingSlashJoin(base: string, path: string, encode: seq<Pair> -> string)
    requires base == [] || base[|base| - 1] != '/'
    ensures TrimSuffix(base + "/", "/") == base
    ensures TrimSuffix(base, "/") == base
    ensures RequestUrl(TrimSuffix(base + "/", "/"), path, [], encode) == base + path
  {
    assert (base + "/")[..|base|] == base;
    if base != [] {
      assert base[|base| - 1..] != "/";
    }
  }

  // ---------------------------------------------------------------------------
  // doRequest: the URL

  /** The URL of a request: the base URL and the path, followed by "?" and
      the encoded query when there is a query. `encode` is
      `url.Values.Encode`, which is not part of this model. */
  function RequestUrl(baseUrl: string, path: string, query: seq<Pair>, encode: seq<Pair> -> string): (u: string)
    ensures |baseUrl + path| <= |u| && u[..|baseUrl + path|] == baseUrl + path
    ensures u == baseUrl + path <==> query == []
    ensures query != [] ==> u[|baseUrl + path|..] == "?" + encode(query)
  {
    if query != [] then baseUrl + path + "?" + encode(query) else baseUrl + path
  }

  // ---------------------------------------------------------------------------
  // APIError

  /** `APIError`, as decoded from an error response. */
  datatype ApiError = ApiError(statusCode: int, message: string, code: string, details: string)

  const ApiErrorPrefix: string := "amex api error: "

  /** `(*APIError).Error()`. */
  function ApiErrorText(e: ApiError): (s: string)
    ensures |ApiErrorPrefix| < |s| && s[..|ApiErrorPrefix|] == ApiErrorPrefix && s[|s| - 1] == ')'
  {
    ApiErrorPrefix + IntToDecimal(e.statusCode) + " - " + e.message + " (" + e.code + ")"
  }

  /** The status code reads back from the text, right after the prefix; the
      details never appear. */
  lemma ApiErrorTextParts(e: ApiError, details: string)
    ensures var s := ApiErrorText(e); var n := |ApiErrorPrefix| + |IntToDecimal(e.statusCode)|;
      n <= |s| && ParseDecimal(s[|ApiErrorPrefix|..n]) == Some(e.statusCode)
    ensures ApiErrorText(e.(details := details)) == ApiErrorText(e)
  {
    var s := ApiErrorText(e);
    var n := |ApiErrorPrefix| + |IntToDecimal(e.statusCode)|;
    assert s[|ApiErrorPrefix|..n] == IntToDecimal(e.statusCode);
    IntToDecimalRoundTrip(e.statusCode);
  }

  lemma FourHundred()
    ensures IntToDecimal(400) == "400"
  {
    assert IntToDecimal(400) == NatToDecimal(40) + [DigitChar(0)] == NatToDecimal(4) + [DigitChar(0)] + [DigitChar(0)];
  }

  /** The shape of the error of the tests, a 400 response, whatever its
      message, code and details. */
  lemma ApiErrorExample(message: string, code: string, details: string)
    ensures ApiErrorText(ApiError(400, message, code, details))
      == "amex api error: 400 - " + message + " (" + code + ")"
  {
    FourHundred();
    assert ApiErrorPrefix + "400" + " - " == "amex api error: 400 - ";
  }
}
