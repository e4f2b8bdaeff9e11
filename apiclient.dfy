/**
 * Construction of the Hevy API client (NewClient in internal/api/client.go):
 * the functional options run against a client whose HTTP transport does
 * not exist yet, and only afterwards is the transport configured from the
 * client's fields. The request methods themselves are network I/O and are
 * not part of this model.
 */
module ApiClient {
  import opened Common

  const DefaultBaseURL: string := "https://api.hevyapp.com/v1"
  const DefaultTimeoutSeconds: int := 30
  const UserAgent: string := "hevycli/1.0"

  /** What NewClient configures on the HTTP transport. */
  datatype HttpSettings = HttpSettings(baseURL: string, headers: seq<(string, string)>, timeoutSeconds: int)

  /** The ClientOption closures the package offers. */
  datatype ClientOption = WithBaseURL(url: string) | WithTimeout(seconds: int)

  function DefaultHeaders(apiKey: string): seq<(string, string)>
  {
    [("api-key", apiKey), ("User-Agent", UserAgent),
     ("Content-Type", "application/json"), ("Accept", "application/json")]
  }

  /** The base URL after applying `opts` in order: the last WithBaseURL wins. */
  function ConfiguredBaseURL(opts: seq<ClientOption>): string
  {
    if opts == [] then DefaultBaseURL
    else match opts[|opts| - 1]
      case WithBaseURL(u) => u
      case WithTimeout(_) => ConfiguredBaseURL(opts[..|opts| - 1])
  }

  predicate SetsBaseURL(opts: seq<ClientOption>)
  {
    exists i :: 0 <= i < |opts| && opts[i].WithBaseURL?
  }

  /** Options applied later override earlier ones; timeouts never change the base URL. */
  lemma {:induction false} ConfiguredBaseURLAppend(a: seq<ClientOption>, b: seq<ClientOption>)
    ensures ConfiguredBaseURL(a + b) == if SetsBaseURL(b) then ConfiguredBaseURL(b) else ConfiguredBaseURL(a)
    decreases |b|
  {
    if b == [] {
      assert a + b == a;
    } else {
      var last := b[|b| - 1];
      assert (a + b)[..|a + b| - 1] == a + b[..|b| - 1];
      assert (a + b)[|a + b| - 1] == last;
      ConfiguredBaseURLAppend(a, b[..|b| - 1]);
      if last.WithTimeout? {
        assert SetsBaseURL(b) == SetsBaseURL(b[..|b| - 1]) by {
          if SetsBaseURL(b) {
            var i :| 0 <= i < |b| && b[i].WithBaseURL?;
            assert i < |b| - 1 && b[..|b| - 1][i] == b[i];
          }
          if SetsBaseURL(b[..|b| - 1]) {
            var i :| 0 <= i < |b| - 1 && b[..|b| - 1][i].WithBaseURL?;
            assert b[i] == b[..|b| - 1][i];
          }
        }
      } else {
        assert SetsBaseURL(b);
      }
    }
  }

  /** Without a WithBaseURL option the default base URL is used. */
  lemma {:induction false} ConfiguredBaseURLDefault(opts: seq<ClientOption>)
    requires !SetsBaseURL(opts)
    ensures ConfiguredBaseURL(opts) == DefaultBaseURL
    decreases |opts|
  {
    if opts != [] {
      assert !opts[|opts| - 1].WithBaseURL?;
      var init := opts[..|opts| - 1];
      assert forall i :: 0 <= i < |init| ==> init[i] == opts[i];
      ConfiguredBaseURLDefault(init);
    }
  }

  class Client {
    var baseURL: string
    var apiKey: string
    /** The resty client; None until NewClient creates it after running the options. */
    var httpClient: Option<HttpSettings>

    /** Run one option against the client. WithTimeout acts only once the transport exists. */
    method Apply(opt: ClientOption)
      modifies this
      ensures apiKey == old(apiKey)
      ensures baseURL == (if opt.WithBaseURL? then opt.url else old(baseURL))
      ensures httpClient == (if opt.WithTimeout? && old(httpClient).Some?
                             then Some(old(httpClient).value.(timeoutSeconds := opt.seconds))
                             else old(httpClient))
    {
      match opt
      case WithBaseURL(u) =>
        baseURL := u;
      case WithTimeout(t) =>
        if httpClient.Some? {
          httpClient := Some(httpClient.value.(timeoutSeconds := t));
        }
    }

    /** NewClient: defaults, then the options in order, then the transport. */
    constructor NewClient(key: string, opts: seq<ClientOption>)
      ensures apiKey == key
      ensures baseURL == ConfiguredBaseURL(opts)
      ensures httpClient == Some(HttpSettings(ConfiguredBaseURL(opts), DefaultHeaders(key), DefaultTimeoutSeconds))
    {
      baseURL := DefaultBaseURL;
      apiKey := key;
      httpClient := None;
      new;
      var i := 0;
      while i < |opts|
        invariant 0 <= i <= |opts|
        invariant apiKey == key && httpClient == None
        invariant baseURL == ConfiguredBaseURL(opts[..i])
      {
        assert opts[..i + 1][..i] == opts[..i];
        Apply(opts[i]);
        i := i + 1;
      }
      assert opts[..i] == opts;
      httpClient := Some(HttpSettings(baseURL, DefaultHeaders(apiKey), DefaultTimeoutSeconds));
    }
  }

  /**
   * The transport settings a freshly built client ends up with: a WithTimeout
   * option never takes effect, because it runs while the transport is absent.
   */
  method TransportOf(key: string, opts: seq<ClientOption>) returns (s: HttpSettings)
    ensures s.timeoutSeconds == DefaultTimeoutSeconds
    ensures s.baseURL == ConfiguredBaseURL(opts)
    ensures |s.headers| == 4 && s.headers[0] == ("api-key", key)
  {
    var c := new Client.NewClient(key, opts);
    s := c.httpClient.value;
  }

  /** The repository's test: one WithBaseURL option replaces the default. */
  lemma CustomBaseURL()
    ensures ConfiguredBaseURL([WithBaseURL("https://custom.api.com")]) == "https://custom.api.com"
    ensures ConfiguredBaseURL([]) == DefaultBaseURL
  {
  }
}
