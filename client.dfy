/** `APIClient`: one GET against `base_url + "/" + endpoint`, answered by
    the parsed body on status 200. The network exchange and the status
    rule of `raise_for_status` belong to the `requests` library and are
    parameters here. */
module Client {
  import opened Errors
  import opened JsonData

  /** What the transport hands back: the status code and the body as
      `response.json()` would parse it (the body is only read on 200). */
  datatype Response = Response(status: int, body: Json)

  /** The `requests` library as the client sees it: `get` performs the GET
      for a URL, `raiseForStatus` says whether `raise_for_status` raises
      for a status. */
  datatype Http = Http(get: string -> Response, raiseForStatus: int -> bool)

  datatype APIClient = APIClient(baseUrl: string)

  /** The rule `requests` applies in `raise_for_status`: a 4xx or 5xx
      status raises, every other status passes. The general lemmas hold for
      any rule; `FetchUnderRequests` and the fixtures use this one. */
  predicate RequestsRaiseForStatus(status: int) {
    400 <= status < 600
  }

  /** The URL is the base URL, one slash and the endpoint, joined as they
      are: a slash already ending the base URL is kept. */
  function RequestUrl(baseUrl: string, endpoint: string): (url: string)
    ensures |url| == |baseUrl| + 1 + |endpoint|
    ensures url[..|baseUrl|] == baseUrl
    ensures url[|baseUrl|] == '/'
    ensures url[|baseUrl| + 1..] == endpoint
  {
    baseUrl + "/" + endpoint
  }

  /** A base URL that ends in a slash gives a URL with two slashes in a
      row before the endpoint. */
  lemma TrailingSlashDoubles(baseUrl: string, endpoint: string)
    requires |baseUrl| > 0 && baseUrl[|baseUrl| - 1] == '/'
    ensures RequestUrl(baseUrl, endpoint)[|baseUrl| - 1..|baseUrl| + 1] == "//"
  {
    var url := RequestUrl(baseUrl, endpoint);
    assert url[|baseUrl| - 1] == url[..|baseUrl|][|baseUrl| - 1];
  }

  /** For one base URL, different endpoints are requested at different
      URLs. */
  lemma RequestUrlInjective(baseUrl: string, e1: string, e2: string)
    requires e1 != e2
    ensures RequestUrl(baseUrl, e1) != RequestUrl(baseUrl, e2)
  {
  }

  /** `fetch_data`: status 200 gives the parsed body; any other status
      runs `raise_for_status`, which either raises HTTPError or lets the
      call return an empty list. */
  function FetchData(client: APIClient, endpoint: string, http: Http): (r: Result<Json>)
    ensures var response := http.get(RequestUrl(client.baseUrl, endpoint));
      && (response.status == 200 ==> r == Ok(response.body))
      && (r.Err? <==> response.status != 200 && http.raiseForStatus(response.status))
      && (r.Err? ==> r.error == HttpError(response.status))
      && (r.Ok? && response.status != 200 ==> r.value == JArray([]))
  {
    var response := http.get(RequestUrl(client.baseUrl, endpoint));
    if response.status == 200 then
      Ok(response.body)
    else if http.raiseForStatus(response.status) then
      Err(HttpError(response.status))
    else
      Ok(JArray([]))
  }

  /** The outcome of a fetch depends on nothing but the response for the
      one URL it requests and the status rule applied to it. */
  lemma FetchReadsOneUrl(client: APIClient, endpoint: string, h1: Http, h2: Http)
    requires var url := RequestUrl(client.baseUrl, endpoint);
      h1.get(url) == h2.get(url) && h1.raiseForStatus(h1.get(url).status) == h2.raiseForStatus(h2.get(url).status)
    ensures FetchData(client, endpoint, h1) == FetchData(client, endpoint, h2)
  {
  }

  /** Under the status rule of `requests`, only a 4xx or 5xx answer makes
      the fetch fail, and every other status except 200 (a 1xx, another
      2xx, a 3xx) is turned into an empty list: not every non-2xx status
      raises. */
  lemma FetchUnderRequests(client: APIClient, endpoint: string, get: string -> Response)
    ensures var status := get(RequestUrl(client.baseUrl, endpoint)).status;
      var r := FetchData(client, endpoint, Http(get, RequestsRaiseForStatus));
      && (r.Err? <==> 400 <= status < 600)
      && (r.Ok? && status != 200 ==> r.value == JArray([]))
  {
  }
}
