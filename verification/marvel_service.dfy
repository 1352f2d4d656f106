/**
 * The request-building half of the catalogue client (src/services/MarvelService.js):
 * the endpoint table, the credential overlay, by-id URL construction and the
 * unwrapping of the response envelope. The HTTP call itself is not modelled: a
 * request is returned as a value and the transport's outcome is a parameter.
 */
module MarvelService {
  import opened Wrappers

  /** A scalar in a query-parameter object. */
  datatype Value = Str(s: string) | Num(n: int)

  /** A JavaScript object of query parameters. */
  type Params = map<string, Value>

  datatype Thumbnail = Thumbnail(path: string, extension: string)

  /**
   * One catalogue entry. Characters carry a `name` and no `title`; comics carry
   * a `title` and no `name`; the absent one is `undefined` in the source.
   */
  datatype Record = Record(
    id: nat,
    name: Option<string>,
    title: Option<string>,
    description: string,
    thumbnail: Thumbnail)

  /** The `data` object of a response: one window of the server's result list. */
  datatype DataContainer = DataContainer(offset: int, limit: int, total: int, count: int, results: seq<Record>)

  /** The JSON body of a response. */
  datatype DataWrapper = DataWrapper(code: int, status: string, data: DataContainer)

  /** What the transport resolves with: `response.data` is the JSON body. */
  datatype Response = Response(status: int, data: DataWrapper)

  /** A rejected request (network failure or a non-2xx status). */
  datatype FetchError = TransportError(message: string)

  /** A GET request: the URL and the query parameters sent with it. */
  datatype Request = Get(url: string, params: Params)

  /** The service object; its one field is set at construction and never changed. */
  datatype Service = Service(apiKey: string)

  const CharactersUrl: string := "https://gateway.marvel.com:443/v1/public/characters"
  const ComicsUrl: string := "https://gateway.marvel.com:443/v1/public/comics"

  /** The `ENDPOINTS` table: singular and plural names share one base URL per category. */
  function Endpoints(): (m: map<string, string>)
    ensures m.Keys == {"comic", "comics", "character", "characters"}
    ensures m["comic"] == m["comics"] == ComicsUrl
    ensures m["character"] == m["characters"] == CharactersUrl
    ensures m["comics"] != m["characters"]
  {
    map["comic" := ComicsUrl, "comics" := ComicsUrl,
        "character" := CharactersUrl, "characters" := CharactersUrl]
  }

  /** `getAuthConfig()`: exactly one key, `apikey`, holding the stored key. */
  function AuthConfig(svc: Service): (m: Params)
    ensures m.Keys == {"apikey"}
    ensures m["apikey"] == Str(svc.apiKey)
  {
    map["apikey" := Str(svc.apiKey)]
  }

  /**
   * `{ ...config, ...this.getAuthConfig() }`: the caller's parameters overlaid by
   * the credential, so the stored key wins over any `apikey` the caller gave.
   */
  function WithAuth(svc: Service, config: Params): (p: Params)
    ensures p.Keys == config.Keys + {"apikey"}
    ensures p["apikey"] == Str(svc.apiKey)
    ensures forall k :: k in config && k != "apikey" ==> p[k] == config[k]
  {
    config + AuthConfig(svc)
  }

  // ----- decimal rendering of an id, as a template string renders a number -----

  predicate IsDigits(s: string) {
    forall i :: 0 <= i < |s| ==> '0' <= s[i] <= '9'
  }

  function DigitValue(c: char): nat
    requires '0' <= c <= '9'
  {
    c as int - '0' as int
  }

  function Digit(d: nat): (c: char)
    requires d < 10
    ensures '0' <= c <= '9' && DigitValue(c) == d
  {
    ('0' as int + d) as char
  }

  /** The decimal numeral of `n`: digits only, and no leading zero. */
  function Decimal(n: nat): (s: string)
    ensures |s| > 0 && IsDigits(s)
    ensures s[0] == '0' ==> n == 0 && |s| == 1
  {
    if n < 10 then [Digit(n)] else Decimal(n / 10) + [Digit(n % 10)]
  }

  /** The value of a numeral, most significant digit first. */
  function ParseDecimal(s: string): nat
    requires IsDigits(s)
  {
    if s == [] then 0 else ParseDecimal(s[..|s| - 1]) * 10 + DigitValue(s[|s| - 1])
  }

  lemma {:induction false} DecimalRoundTrip(n: nat)
    ensures ParseDecimal(Decimal(n)) == n
  {
    if n >= 10 {
      var p := Decimal(n / 10);
      DecimalRoundTrip(n / 10);
      assert (p + [Digit(n % 10)])[..|p|] == p;
    }
  }

  predicate IsProperPrefix(p: string, s: string) {
    |p| < |s| && s[..|p|] == p
  }

  /** Reads the id back out of a by-id URL built on `base`, if it is one. */
  function IdOfUrl(base: string, u: string): Option<nat> {
    if |u| > |base| + 1 && u[..|base|] == base && u[|base|] == '/' && IsDigits(u[|base| + 1..])
    then Some(ParseDecimal(u[|base| + 1..]))
    else None
  }

  /** `${base}/${id}`: extends the list URL, and the id can be read back from it. */
  function ById(base: string, id: nat): (u: string)
    ensures IsProperPrefix(base, u)
    ensures IdOfUrl(base, u) == Some(id)
    ensures u[|base| + 1] == '0' ==> id == 0 && |u| == |base| + 2
  {
    DecimalRoundTrip(id);
    var u := base + "/" + Decimal(id);
    assert u[..|base|] == base;
    assert u[|base| + 1..] == Decimal(id);
    u
  }

  // ----- the four lookups, up to the point where the request is sent -----

  function GetCharacters(svc: Service, config: Params): (r: Request)
    ensures r.url == CharactersUrl
    ensures r.params == WithAuth(svc, config)
  {
    Get(Endpoints()["characters"], WithAuth(svc, config))
  }

  /** Built on the singular endpoint name, which is the plural list URL. */
  function GetCharacter(svc: Service, id: nat, config: Params): (r: Request)
    ensures IsProperPrefix(CharactersUrl, r.url)
    ensures IdOfUrl(CharactersUrl, r.url) == Some(id)
    ensures r.url[|CharactersUrl| + 1] == '0' ==> id == 0 && |r.url| == |CharactersUrl| + 2
    ensures r.params == WithAuth(svc, config)
  {
    Get(ById(Endpoints()["character"], id), WithAuth(svc, config))
  }

  function GetComics(svc: Service, config: Params): (r: Request)
    ensures r.url == ComicsUrl
    ensures r.params == WithAuth(svc, config)
  {
    Get(Endpoints()["comics"], WithAuth(svc, config))
  }

  function GetComic(svc: Service, id: nat, config: Params): (r: Request)
    ensures IsProperPrefix(ComicsUrl, r.url)
    ensures IdOfUrl(ComicsUrl, r.url) == Some(id)
    ensures r.url[|ComicsUrl| + 1] == '0' ==> id == 0 && |r.url| == |ComicsUrl| + 2
    ensures r.params == WithAuth(svc, config)
  {
    Get(ById(Endpoints()["comic"], id), WithAuth(svc, config))
  }

  /**
   * `.then((response) => response.data.data)`: a resolved request yields the inner
   * `data` of the body whatever its code and status; a rejection passes through.
   */
  function Unwrap(raw: Result<Response, FetchError>): (d: Result<DataContainer, FetchError>)
    ensures d.Ok? <==> raw.Ok?
    ensures raw.Ok? ==> d.value == raw.value.data.data
    ensures raw.Err? ==> d.error == raw.error
  {
    match raw
    case Ok(response) => Ok(response.data.data)
    case Err(e) => Err(e)
  }
}
