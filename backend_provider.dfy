/**
 * The MCP server's client for the backend API
 * (mcp/app/providers/backend_provider.py): the base URL taken from the
 * environment and given a scheme when it lacks one, the two endpoint URLs,
 * and how an HTTP reply becomes a result or an exception. The environment
 * lookup and the HTTP exchange are inputs.
 */
module BackendProvider {
  import opened Wrappers
  import opened Json
  import Text

  const DefaultUrl: string := "http://localhost:8001"

  /** `url.startswith(('http://', 'https://'))`. */
  predicate HasScheme(url: string) {
    Text.StartsWith(url, "http://") || Text.StartsWith(url, "https://")
  }

  /** The base URL after `__init__`: unchanged when it has a scheme, `http://` put in front otherwise. */
  function Normalized(url: string): (r: string)
    ensures HasScheme(r)
    ensures HasScheme(url) ==> r == url
    ensures !HasScheme(url) ==> r == "http://" + url
  {
    if HasScheme(url) then url
    else
      assert ("http://" + url)[..7] == "http://";
      "http://" + url
  }

  /** Normalising twice changes nothing beyond normalising once. */
  lemma NormalizedIdempotent(url: string)
    ensures Normalized(Normalized(url)) == Normalized(url)
  {
  }

  /** One `session.get(url)`: the status, the decoded JSON (or the message `response.json()` raised) and the text; or the exception raised on the way. */
  datatype HttpReply =
    | Reply(status: int, json: Result<Value, string>, text: string)
    | Raised(message: string)

  /** The message raised for a reply that is not a 200. */
  function ApiFailure(text: string): string {
    "API 호출 실패: " + text
  }

  /** What a fetch returns or raises: the JSON of a 200, the failure carrying the text otherwise, any exception passed on. */
  function Received(reply: HttpReply): (r: Result<Value, string>)
    ensures r.Ok? <==> reply.Reply? && reply.status == 200 && reply.json.Ok?
    ensures r.Ok? ==> r.value == reply.json.value
    ensures reply.Reply? && reply.status != 200 ==> r == Err(ApiFailure(reply.text))
    ensures reply.Raised? ==> r == Err(reply.message)
  {
    match reply
    case Raised(message) => Err(message)
    case Reply(status, json, text) =>
      if status == 200 then json else Err(ApiFailure(text))
  }

  /** The non-200 failure keeps the response text whole, at its end. */
  lemma ApiFailureCarriesText(text: string)
    ensures Text.EndsWith(ApiFailure(text), text)
    ensures Text.Contains(ApiFailure(text), text)
  {
    var s := ApiFailure(text);
    assert s[|s| - |text|..] == text;
    Text.ContainsMiddle("API 호출 실패: ", text, "");
    assert "API 호출 실패: " + text + "" == s;
  }

  /** `f"{base}/activities/laps/user/{user_id}"`. */
  function LapsUrl(base: string, userId: int): string {
    base + "/activities/laps/user/" + Text.IntToString(userId)
  }

  /** `f"{base}/activities/monthly-summary/user/{user_id}"`. */
  function MonthlyUrl(base: string, userId: int): string {
    base + "/activities/monthly-summary/user/" + Text.IntToString(userId)
  }

  /** Both endpoints sit under the base URL and end with the user id, so they keep its scheme. */
  lemma UrlsShape(base: string, userId: int)
    ensures Text.StartsWith(LapsUrl(base, userId), base)
    ensures Text.EndsWith(LapsUrl(base, userId), "/activities/laps/user/" + Text.IntToString(userId))
    ensures Text.StartsWith(MonthlyUrl(base, userId), base)
    ensures Text.EndsWith(MonthlyUrl(base, userId), "/activities/monthly-summary/user/" + Text.IntToString(userId))
    ensures HasScheme(base) ==> HasScheme(LapsUrl(base, userId)) && HasScheme(MonthlyUrl(base, userId))
  {
    var laps := LapsUrl(base, userId);
    var monthly := MonthlyUrl(base, userId);
    assert laps[..|base|] == base;
    assert monthly[..|base|] == base;
    if Text.StartsWith(base, "http://") {
      assert laps[..7] == base[..7] && monthly[..7] == base[..7];
    }
    if Text.StartsWith(base, "https://") {
      assert laps[..8] == base[..8] && monthly[..8] == base[..8];
    }
  }

  /** A `BackendProvider` instance. */
  class BackendClient {
    var baseUrl: string

    /** `__init__`: `BACKEND_URL` from the environment (`environment`), or the default, then normalised. */
    constructor (environment: Option<string>)
      ensures baseUrl == Normalized(environment.GetOr(DefaultUrl))
      ensures environment.None? ==> baseUrl == DefaultUrl
      ensures HasScheme(baseUrl)
    {
      baseUrl := environment.GetOr(DefaultUrl);
      new;
      if !HasScheme(baseUrl) {
        baseUrl := "http://" + baseUrl;
      }
      assert DefaultUrl[..7] == "http://";
    }

    /** `get_running_activities`: fetches the laps URL; `fetch` is the HTTP exchange. */
    method GetRunningActivities(userId: int, fetch: string -> HttpReply) returns (r: Result<Value, string>)
      ensures r == Received(fetch(LapsUrl(baseUrl, userId)))
    {
      var url := LapsUrl(baseUrl, userId);
      r := Received(fetch(url));
    }

    /** `get_monthly_activity_summary`: fetches the monthly-summary URL. */
    method GetMonthlyActivitySummary(userId: int, fetch: string -> HttpReply) returns (r: Result<Value, string>)
      ensures r == Received(fetch(MonthlyUrl(baseUrl, userId)))
    {
      var url := MonthlyUrl(baseUrl, userId);
      r := Received(fetch(url));
    }
  }
}
