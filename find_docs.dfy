/**
 * `findDocs` of script.js: list the Drive files named after the notes
 * document, one page of at most ten files per request, following the
 * continuation token and concatenating the pages in the order received.
 *
 * The Drive service is abstracted as the sequence of responses it gives
 * to the successive list requests: the k-th request issued is answered
 * by the k-th response. A request beyond the end of that sequence is
 * never answered.
 */
module FindDocs {
  import opened Wrappers

  /** A listed file, as requested with `fields: 'files(id, name)'`. */
  datatype FileInfo = FileInfo(id: string, name: string)

  /** One page of a list response. */
  datatype Page = Page(files: seq<FileInfo>, nextPageToken: Option<string>)

  /** How one list request settles: with a page, or rejected with a message. */
  datatype Response = Listed(page: Page) | ListError(message: string)

  /** The parameters of one `gapi.client.drive.files.list` call. */
  datatype ListRequest = ListRequest(pageToken: Option<string>, q: string, pageSize: nat, fields: string)

  /**
   * The promise returned by `findDocs`: resolved with the accumulated files,
   * or still pending. A rejected list request has no handler in the chain,
   * so it leaves the promise pending too.
   */
  datatype Outcome = Resolved(files: seq<FileInfo>) | Pending

  /** The promise's outcome together with every list request issued, in order. */
  datatype Run = Run(outcome: Outcome, requests: seq<ListRequest>)

  const PAGE_SIZE: nat := 10
  const FIELDS: string := "nextPageToken, files(id, name)"

  function NameQuery(title: string): string {
    "name='" + title + "'"
  }

  function Request(title: string, pageToken: Option<string>): ListRequest {
    ListRequest(pageToken, NameQuery(title), PAGE_SIZE, FIELDS)
  }

  /** JavaScript truthiness of `response.result.nextPageToken`: absent and "" are false. */
  predicate Truthy(token: Option<string>) {
    token.Some? && token.value != ""
  }

  /** A response after which `findDocs` issues a follow-up request. */
  predicate Continues(r: Response) {
    r.Listed? && Truthy(r.page.nextPageToken)
  }

  /**
   * `retrievePageOfFiles(promise, answer)`: `pending` holds the response to
   * the request just issued, then the responses to any later ones.
   */
  function Retrieve(title: string, pending: seq<Response>, answer: seq<FileInfo>): Run {
    if pending == [] || pending[0].ListError? then
      Run(Pending, [])
    else
      var page := pending[0].page;
      var answer' := answer + page.files;
      if Truthy(page.nextPageToken) then
        var rest := Retrieve(title, pending[1..], answer');
        Run(rest.outcome, [Request(title, page.nextPageToken)] + rest.requests)
      else
        Run(Resolved(answer'), [])
  }

  /** `findDocs(title)` against a server that answers with `server`. */
  function FindDocs(title: string, server: seq<Response>): Run {
    var rest := Retrieve(title, server, []);
    Run(rest.outcome, [Request(title, None)] + rest.requests)
  }

  // ---------------------------------------------------------------------
  // Reference definitions

  /** The number of leading responses that are pages with a truthy token. */
  function LeadingRun(server: seq<Response>): (n: nat)
    ensures n <= |server|
    ensures forall j :: 0 <= j < n ==> Continues(server[j])
    ensures n < |server| ==> !Continues(server[n])
  {
    if server != [] && Continues(server[0]) then 1 + LeadingRun(server[1..]) else 0
  }

  function PagesOf(rs: seq<Response>): seq<Page>
    requires forall j :: 0 <= j < |rs| ==> rs[j].Listed?
  {
    if rs == [] then [] else [rs[0].page] + PagesOf(rs[1..])
  }

  /** The files of the pages, page after page. */
  function Flatten(pages: seq<Page>): seq<FileInfo> {
    if pages == [] then [] else pages[0].files + Flatten(pages[1..])
  }

  /** How the server answers every request of a directory listing, in order. */
  function Serve(dir: seq<Page>): seq<Response> {
    if dir == [] then [] else [Listed(dir[0])] + Serve(dir[1..])
  }

  /** A directory of pages as the service produces it: only the last page lacks a token. */
  predicate WellFormed(dir: seq<Page>) {
    && |dir| > 0
    && (forall j :: 0 <= j < |dir| - 1 ==> Truthy(dir[j].nextPageToken))
    && !Truthy(dir[|dir| - 1].nextPageToken)
  }

  // ---------------------------------------------------------------------
  // Properties

  /**
   * The accumulation step: one follow-up request per response with a truthy
   * token, carrying that token; resolution exactly when the first response
   * without one is a page, with everything received appended to `answer`.
   */
  lemma {:induction false} RetrieveRun(title: string, pending: seq<Response>, answer: seq<FileInfo>)
    ensures var r := Retrieve(title, pending, answer);
            var n := LeadingRun(pending);
            && |r.requests| == n
            && (forall j :: 0 <= j < n ==> r.requests[j] == Request(title, pending[j].page.nextPageToken))
            && r.outcome == if n < |pending| && pending[n].Listed?
                            then Resolved(answer + Flatten(PagesOf(pending[..n + 1])))
                            else Pending
  {
    if pending != [] && Continues(pending[0]) {
      var page := pending[0].page;
      var tail := pending[1..];
      RetrieveRun(title, tail, answer + page.files);
      var m := LeadingRun(tail);
      if m < |tail| && tail[m].Listed? {
        assert pending[..m + 2][1..] == tail[..m + 1];
        assert PagesOf(pending[..m + 2]) == [page] + PagesOf(tail[..m + 1]);
      }
    } else if pending != [] && pending[0].Listed? {
      assert PagesOf(pending[..1]) == [pending[0].page];
    }
  }

  /**
   * `findDocs` on any server: the first request has no page token; request
   * j + 1 carries the token of response j; there are as many follow-ups as
   * leading responses with a truthy token; the promise resolves iff the
   * first response without one is a page, and then with the concatenation
   * of every page received, in order.
   */
  lemma FindDocsRun(title: string, server: seq<Response>)
    ensures var r := FindDocs(title, server);
            var n := LeadingRun(server);
            && |r.requests| == n + 1
            && r.requests[0] == ListRequest(None, "name='" + title + "'", 10, "nextPageToken, files(id, name)")
            && (forall j :: 0 <= j < n ==> r.requests[j + 1] == Request(title, server[j].page.nextPageToken))
            && r.outcome == if n < |server| && server[n].Listed?
                            then Resolved(Flatten(PagesOf(server[..n + 1])))
                            else Pending
  {
    RetrieveRun(title, server, []);
  }

  lemma {:induction false} ServeListed(dir: seq<Page>)
    ensures |Serve(dir)| == |dir|
    ensures forall j :: 0 <= j < |dir| ==> Serve(dir)[j] == Listed(dir[j])
    ensures PagesOf(Serve(dir)) == dir
  {
    if dir != [] {
      ServeListed(dir[1..]);
    }
  }

  lemma {:induction false} LeadingRunOfDirectory(dir: seq<Page>)
    requires WellFormed(dir)
    ensures LeadingRun(Serve(dir)) == |dir| - 1
  {
    ServeListed(dir);
  }

  /**
   * On a well-formed directory of K pages `findDocs` issues exactly K list
   * requests, each with the previous page's token, and resolves with the
   * in-order concatenation of all K pages.
   */
  lemma FindDocsOnDirectory(title: string, dir: seq<Page>)
    requires WellFormed(dir)
    ensures var r := FindDocs(title, Serve(dir));
            && r.outcome == Resolved(Flatten(dir))
            && |r.requests| == |dir|
            && r.requests[0] == Request(title, None)
            && forall j :: 0 < j < |dir| ==> r.requests[j] == Request(title, dir[j - 1].nextPageToken)
  {
    ServeListed(dir);
    LeadingRunOfDirectory(dir);
    FindDocsRun(title, Serve(dir));
    assert Serve(dir)[..|dir|] == Serve(dir);
  }
}
