# note-maker: document search and status log

A model of the two pieces of sequential logic in `script.js` of the
note-maker browser utility, which signs a user in to Google, looks for the
Drive documents titled "Note Maker Notes" and creates a new one.

- **Document search (`findDocs`).** Lists the files named after the
  notes document, ten per request, following the continuation token and
  concatenating the pages in the order they arrive. The Drive service is
  abstracted as the sequence of responses it gives to the successive list
  requests (`FindDocs.Retrieve`, `FindDocs.FindDocs`). A model run
  yields the promise's outcome (resolved with the files, or pending) and
  every list request issued.
- **Status log (`appendPre`, `printDocInfo`, `createDoc`).** The
  `#content` element is a `Console` object whose `log: seq<string>` holds
  one string per text node. Its methods only append. Their results are
  specified by pure functions (`DocInfoEntries`, `CreateMessage`), and
  lemmas state what those functions write.

`Decimal.NatToString` renders the loop index as the template literal
`${i}` does. `Decimal.ParseDecimal` is its inverse.

Behaviour of the code that the model keeps as written:

- The list query is only `name='<title>'`. Trashed files are not excluded.
- A rejected list request has no rejection handler in the promise chain.
  `findDocs` then neither resolves nor rejects: the model's outcome is
  `Pending`, not a propagated error.
- There is no create/adopt/refuse resolver. Sign-in calls `findDocs` and
  `createDoc` independently of each other.

## Model

| member | source | states |
|---|---|---|
| `FindDocs.LeadingRun` | script.js:120-128 | The number of leading responses that carry a truthy `nextPageToken`: each of them does, and the response after them does not (or there is none). |
| `FindDocs.RetrieveRun` | script.js:117-133 | One step of `retrievePageOfFiles` onward: one follow-up request per leading response with a truthy token, carrying that exact token with the same `name='<title>'` query, page size 10 and fields. The promise resolves iff the first response without a truthy token is a page, and then with the accumulator followed by the files of every page received, in order. Otherwise it stays pending. |
| `FindDocs.FindDocsRun` | script.js:115-141 | `findDocs` on any server: the first request has no page token, query `name='<title>'`, page size 10. Request j+1 carries response j's token. There are 1 + (leading truthy-token responses) requests. The result starts from the empty list and is the in-order concatenation of the received pages, and resolution happens only once a response without a token arrives. |
| `FindDocs.LeadingRunOfDirectory` | script.js:121-131 | On a directory of K pages where only the last page lacks a token, exactly K-1 responses lead to a follow-up request. |
| `FindDocs.FindDocsOnDirectory` | script.js:115-141 | On such a directory of K pages, `findDocs` issues exactly K list requests, request j carrying page j-1's token, and resolves with the concatenation of all K pages in order. |
| `FindDocs.ServeListed` | script.js:118-119 | Serving a directory answers request j with page j, and the pages received are the directory's pages. |
| `Decimal.NatToString` | script.js:105 | The index printed by `${i}` is a non-empty string of decimal digits with no leading zero except for 0 itself, and one digit long iff i < 10. |
| `Decimal.ParseNatToString` | script.js:105 | Reading the printed index back as a decimal numeral gives the index. |
| `Decimal.NatToStringInjective` | script.js:105 | Different indices are printed differently. |
| `StatusLog.ListingSnoc` | script.js:103-106 | Processing one more file appends exactly that file's line, numbered with its position, after the lines for the earlier files. |
| `StatusLog.ListingAt` | script.js:103-106 | The listing of n files has n lines. Line i is `Document <from+i>: "<name>" (<id>)` followed by a newline, for file i in list order. |
| `StatusLog.DocInfoEntriesShape` | script.js:100-110 | `printDocInfo` first writes `Matching documents:\n` plus the newline `appendPre` adds. For a non-empty list of n files it writes exactly n more lines, line i being `Document i: "<name>" (<id>)` with i counted from 0. For a null or empty list it writes exactly the one line `No matching documents found.` |
| `StatusLog.Console.AppendPre` | script.js:91-95 | Appends `message + '\n'` to the end of the log. Earlier content is unchanged, and every entry still ends with a newline. |
| `StatusLog.Console.PrintDocInfo` | script.js:100-110 | The `for` loop appends the header and then the listing (or the "none found" line) after the existing log. The loop invariant says the lines appended so far match the files processed so far. |
| `StatusLog.Console.CreateDoc` | script.js:149-157 | On success, logs `Document "<title>" created with ID <id>.\n` plus `appendPre`'s newline and yields the id. On failure, logs `Error: <message>` plus a newline and yields nothing. |

## Left out

- OAuth and client-library loading (`handleClientLoad`, `initClient`, script.js:23-47) and the error entry `initClient` logs: foreign-library wiring.
- `updateSigninStatus` and the sign-in/sign-out click handlers (script.js:53-83): button display toggling and the wiring that calls `findDocs` and `createDoc`.
- The Drive `files.list` and Docs `documents.create` calls: the model takes their responses as inputs. Asynchrony is reduced to the strict order of the page requests.
- DOM text-node creation: only the resulting append to the log is modelled.
- A page response without a `files` field (`concat(undefined)` in JavaScript): every page has a file list.
- The create request's own parameter `title`: `Console.CreateDoc` takes the settled response, and the logged title is the one the response carries, as in the source.
