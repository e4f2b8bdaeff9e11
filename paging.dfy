/**
 * Paged fetching as the list and search commands do it: pages are requested
 * from 1 upwards and the loop stops once the page number reaches the page
 * count the API reports. The API is given as the sequence of its page
 * responses; asking for a page past the last one yields an empty page, and
 * every response reports the length of that sequence as the page count.
 */
module Paging {
  import opened Common

  /** One page response: its items, or the error the request failed with. */
  datatype Fetch<T> = Fetched(items: seq<T>) | FetchFailed(msg: string)

  function Items<T>(f: Fetch<T>): seq<T>
  {
    if f.Fetched? then f.items else []
  }

  /** The items of every page, in page order (a failed page contributes nothing). */
  function Flatten<T>(pages: seq<Fetch<T>>): seq<T>
  {
    if pages == [] then [] else Flatten(pages[..|pages| - 1]) + Items(pages[|pages| - 1])
  }

  lemma {:induction false} FlattenAppend<T>(a: seq<Fetch<T>>, b: seq<Fetch<T>>)
    ensures Flatten(a + b) == Flatten(a) + Flatten(b)
    decreases |b|
  {
    if b == [] {
      assert a + b == a;
    } else {
      assert (a + b)[..|a + b| - 1] == a + b[..|b| - 1];
      FlattenAppend(a, b[..|b| - 1]);
    }
  }

  /** The response to a request for page `page` (numbered from 1). */
  function PageAt<T>(pages: seq<Fetch<T>>, page: int): (f: Fetch<T>)
    requires page >= 1
    ensures page > |pages| ==> f == Fetched([])
    ensures page <= |pages| ==> f == pages[page - 1]
  {
    if page <= |pages| then pages[page - 1] else Fetched([])
  }

  /** The first `n` elements, or all of them when there are fewer (none for n <= 0). */
  function Take<T>(xs: seq<T>, n: int): (r: seq<T>)
    ensures |r| == Max(0, Min(n, |xs|))
    ensures r <= xs
  {
    xs[..Max(0, Min(n, |xs|))]
  }

  /** A prefix that already holds `n` elements decides the first `n` of the whole. */
  lemma TakeLongPrefix<T>(a: seq<T>, b: seq<T>, n: int)
    requires |Take(a, n)| >= n
    ensures Take(a + b, n) == Take(a, n)
  {
  }

  /**
   * The `--all` loop: fetch page after page, appending each page's items,
   * until the page number reaches the reported page count; the first failed
   * request ends the command with "failed to fetch <what>: <error>".
   */
  method FetchAll<T>(pages: seq<Fetch<T>>, what: string) returns (r: Result<seq<T>>)
    ensures r.Ok? <==> forall j :: 0 <= j < |pages| ==> pages[j].Fetched?
    ensures r.Ok? ==> r.value == Flatten(pages)
    ensures r.Err? ==> exists j :: 0 <= j < |pages| && pages[j].FetchFailed? && r.msg == "failed to fetch " + what + ": " + pages[j].msg
  {
    var all: seq<T> := [];
    var page := 1;
    while true
      invariant 1 <= page <= Max(|pages|, 1)
      invariant forall j :: 0 <= j < page - 1 ==> pages[j].Fetched?
      invariant all == Flatten(pages[..page - 1])
      decreases |pages| - page
    {
      var resp := PageAt(pages, page);
      if resp.FetchFailed? {
        assert pages[page - 1].FetchFailed?;
        return Err("failed to fetch " + what + ": " + resp.msg);
      }
      FlattenNext(pages, page - 1);
      all := all + resp.items;
      if page >= |pages| {
        assert pages[..Min(page, |pages|)] == pages;
        return Ok(all);
      }
      page := page + 1;
    }
  }

  /** One more page adds its items at the end; past the last page nothing changes. */
  lemma FlattenNext<T>(pages: seq<Fetch<T>>, k: nat)
    requires k <= |pages|
    ensures k < |pages| ==> Flatten(pages[..k + 1]) == Flatten(pages[..k]) + Items(pages[k])
  {
    if k < |pages| {
      assert pages[..k + 1] == pages[..k] + [pages[k]];
      FlattenAppend(pages[..k], [pages[k]]);
      assert Flatten([pages[k]]) == Items(pages[k]);
    }
  }
}
