/**
 * The status output of script.js: the `#content` element to which
 * `appendPre` adds one text node per message, and the two writers built
 * on it, `printDocInfo` and the settlement handlers of `createDoc`.
 */
module StatusLog {
  import opened Wrappers
  import opened Decimal
  import opened FindDocs

  const MATCHING_HEADER: string := "Matching documents:\n"
  const NONE_FOUND: string := "No matching documents found."

  /** The text node `appendPre(message)` adds. */
  function Entry(message: string): string {
    message + "\n"
  }

  predicate EndsWithNewline(s: string) {
    |s| > 0 && s[|s| - 1] == '\n'
  }

  /** The message `printDocInfo` writes for the file at index i. */
  function DocumentMessage(i: nat, f: FileInfo): string {
    "Document " + NatToString(i) + ": \"" + f.name + "\" (" + f.id + ")"
  }

  /** The entries for `files`, numbered from `from`. */
  function Listing(files: seq<FileInfo>, from: nat): seq<string> {
    if files == [] then [] else [Entry(DocumentMessage(from, files[0]))] + Listing(files[1..], from + 1)
  }

  /** Everything `printDocInfo(files)` writes; `None` stands for a null list. */
  function DocInfoEntries(files: Option<seq<FileInfo>>): seq<string> {
    [Entry(MATCHING_HEADER)] + if files.Some? && |files.value| > 0 then Listing(files.value, 0) else [Entry(NONE_FOUND)]
  }

  /** How the `documents.create` request settles. */
  datatype CreateResponse = Created(title: string, documentId: string) | CreateError(message: string)

  /** The message `createDoc` logs for a settled create request. */
  function CreateMessage(response: CreateResponse): string {
    match response
    case Created(title, id) => "Document \"" + title + "\" created with ID " + id + ".\n"
    case CreateError(message) => "Error: " + message
  }

  lemma {:induction false} ListingSnoc(files: seq<FileInfo>, from: nat, f: FileInfo)
    ensures Listing(files + [f], from) == Listing(files, from) + [Entry(DocumentMessage(from + |files|, f))]
  {
    if files != [] {
      assert (files + [f])[1..] == files[1..] + [f];
      ListingSnoc(files[1..], from + 1, f);
    } else {
      assert Listing([f], from) == [Entry(DocumentMessage(from, f))];
    }
  }

  /** Entry i of the listing is the line for file i, numbered from `from`. */
  lemma {:induction false} ListingAt(files: seq<FileInfo>, from: nat)
    ensures |Listing(files, from)| == |files|
    ensures forall i :: 0 <= i < |files| ==>
              Listing(files, from)[i] == "Document " + NatToString(from + i) + ": \"" + files[i].name + "\" (" + files[i].id + ")\n"
  {
    if files != [] {
      ListingAt(files[1..], from + 1);
    }
  }

  /**
   * `printDocInfo` writes the header first; then, for a non-empty list of n
   * files, exactly n lines in list order, line i naming file i with i
   * counted from 0; for a null or empty list exactly the "none found" line.
   */
  lemma DocInfoEntriesShape(files: Option<seq<FileInfo>>)
    ensures var e := DocInfoEntries(files);
            && |e| > 0
            && e[0] == "Matching documents:\n\n"
            && (files.Some? && |files.value| > 0 ==>
                  && |e| == |files.value| + 1
                  && forall i :: 0 <= i < |files.value| ==>
                       e[i + 1] == "Document " + NatToString(i) + ": \"" + files.value[i].name + "\" (" + files.value[i].id + ")\n")
            && (files == None || files == Some([]) ==> e == ["Matching documents:\n\n", "No matching documents found.\n"])
  {
    assert Entry(MATCHING_HEADER) == "Matching documents:\n\n";
    assert Entry(NONE_FOUND) == "No matching documents found.\n";
    if files.Some? {
      ListingAt(files.value, 0);
    }
  }

  /** The output element: an append-only sequence of text nodes. */
  class Console {
    var log: seq<string>

    /** Every text node was added by `appendPre`, so it ends with a newline. */
    ghost predicate Valid()
      reads this
    {
      forall i :: 0 <= i < |log| ==> EndsWithNewline(log[i])
    }

    constructor ()
      ensures Valid() && log == []
    {
      log := [];
    }

    /** `appendPre(message)`: add `message + '\n'` after what is already there. */
    method AppendPre(message: string)
      requires Valid()
      modifies this
      ensures Valid()
      ensures log == old(log) + [message + "\n"]
    {
      log := log + [Entry(message)];
    }

    /** `printDocInfo(files)`: the header, then one line per file or the "none found" line. */
    method PrintDocInfo(files: Option<seq<FileInfo>>)
      requires Valid()
      modifies this
      ensures Valid()
      ensures log == old(log) + DocInfoEntries(files)
    {
      AppendPre(MATCHING_HEADER);
      if files.Some? && |files.value| > 0 {
        var fs := files.value;
        for i := 0 to |fs|
          invariant Valid()
          invariant log == old(log) + [Entry(MATCHING_HEADER)] + Listing(fs[..i], 0)
        {
          var file := fs[i];
          AppendPre(DocumentMessage(i, file));
          ListingSnoc(fs[..i], 0, file);
          assert fs[..i + 1] == fs[..i] + [file];
        }
        assert fs[..|fs|] == fs;
      } else {
        AppendPre(NONE_FOUND);
      }
    }

    /**
     * The handlers `createDoc` attaches to the create request: on success
     * log the created document's title and id and yield the id; on failure
     * log the error message and yield nothing.
     */
    method CreateDoc(response: CreateResponse) returns (id: Option<string>)
      requires Valid()
      modifies this
      ensures Valid()
      ensures response.Created? ==>
                && log == old(log) + ["Document \"" + response.title + "\" created with ID " + response.documentId + ".\n\n"]
                && id == Some(response.documentId)
      ensures response.CreateError? ==>
                && log == old(log) + ["Error: " + response.message + "\n"]
                && id == None
    {
      match response
      case Created(title, documentId) =>
        AppendPre(CreateMessage(response));
        assert Entry(CreateMessage(response)) == "Document \"" + title + "\" created with ID " + documentId + ".\n\n";
        id := Some(documentId);
      case CreateError(message) =>
        AppendPre(CreateMessage(response));
        id := None;
    }
  }
}
