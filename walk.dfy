/**
 * The depth-first walk over a data directory that gathers the enriched
 * records of every `accounts.json` into one flat list.
 *
 * The filesystem is a tree of entries as `readdirSync(dir, { withFileTypes: true })`
 * lists them: directories (walked into), regular files (only those named
 * exactly `accounts.json` are read) and anything else (symbolic links,
 * sockets, ...), which the walk skips because it is neither.
 */
module Walk {
  import opened Values
  import opened ChainIds
  import opened Enrichment

  datatype Entry =
    | Directory(name: string, children: seq<Entry>)
    | File(name: string, content: Content)
    | Other(name: string)

  const AccountsFileName: string := "accounts.json"

  /** What one listed entry of directory `dir` contributes. A failure is
      always that of an `accounts.json` below `dir`. */
  function EntryRecords(dir: seq<string>, e: Entry): (r: Result<seq<Record>>)
    ensures r.Err? ==> FailsBelow(dir, r.error)
    decreases e
  {
    match e
    case Directory(name, children) =>
      var r := CombineEntries(dir + [name], children);
      assert r.Err? ==> r.error.path[..|dir|] == r.error.path[..|dir| + 1][..|dir|];
      r
    case File(name, content) =>
      if name == AccountsFileName then EnrichFile(dir + [name], content) else Ok([])
    case Other(_) => Ok([])
  }

  /** The entries of directory `dir`, in listing order, combined: the first
      failure aborts, otherwise the contributions are concatenated. A failure
      is always that of an `accounts.json` below `dir`. */
  function CombineEntries(dir: seq<string>, entries: seq<Entry>): (r: Result<seq<Record>>)
    ensures r.Err? ==> FailsBelow(dir, r.error)
    decreases entries
  {
    if |entries| == 0 then Ok([])
    else Then(EntryRecords(dir, entries[0]), CombineEntries(dir, entries[1..]))
  }

  /** The error names a file called `accounts.json` inside the tree of `dir`. */
  predicate FailsBelow(dir: seq<string>, error: Error)
  {
    |error.path| > |dir| && error.path[..|dir|] == dir && BaseName(error.path) == AccountsFileName
  }

  /** One `accounts.json` found by the walk: its full path and its content. */
  datatype AccountsFile = AccountsFile(path: seq<string>, content: Content)

  /** The `accounts.json` files below one entry, depth first. */
  function EntryFiles(dir: seq<string>, e: Entry): (fs: seq<AccountsFile>)
    ensures forall k :: 0 <= k < |fs| ==>
      |fs[k].path| > |dir| && fs[k].path[..|dir|] == dir && BaseName(fs[k].path) == AccountsFileName
    decreases e
  {
    match e
    case Directory(name, children) =>
      var fs := AccountsFiles(dir + [name], children);
      assert forall k :: 0 <= k < |fs| ==> fs[k].path[..|dir|] == fs[k].path[..|dir| + 1][..|dir|];
      fs
    case File(name, content) =>
      if name == AccountsFileName then [AccountsFile(dir + [name], content)] else []
    case Other(_) => []
  }

  /** The `accounts.json` files in the subtrees of `entries`, depth first in
      listing order: exactly the files the walk reads, and no other. */
  function AccountsFiles(dir: seq<string>, entries: seq<Entry>): (fs: seq<AccountsFile>)
    ensures forall k :: 0 <= k < |fs| ==>
      |fs[k].path| > |dir| && fs[k].path[..|dir|] == dir && BaseName(fs[k].path) == AccountsFileName
    decreases entries
  {
    if |entries| == 0 then []
    else EntryFiles(dir, entries[0]) + AccountsFiles(dir, entries[1..])
  }

  /** Reference definition of the result over the flat list of files. A
      failure names one of the listed files whose content is unparseable. */
  function CombineFiles(fs: seq<AccountsFile>): (r: Result<seq<Record>>)
    ensures r.Err? ==> exists k :: 0 <= k < |fs| && fs[k].content.Unparseable? && r.error == ParseError(fs[k].path)
  {
    if |fs| == 0 then Ok([])
    else Then(EnrichFile(fs[0].path, fs[0].content), CombineFiles(fs[1..]))
  }

  /** Number of array elements over all files. */
  function TotalRows(fs: seq<AccountsFile>): (n: nat)
  {
    if |fs| == 0 then 0
    else (if fs[0].content.Parsed? then |fs[0].content.rows| else 0) + TotalRows(fs[1..])
  }

  predicate AllParsed(fs: seq<AccountsFile>)
  {
    forall k :: 0 <= k < |fs| ==> fs[k].content.Parsed?
  }

  /** `loadDirOrFileFromFS`: walk the listing of `dir`, recursing into
      directories and reading every `accounts.json`, reassigning the
      accumulator by concatenation; any parse failure propagates at once. */
  method LoadDirOrFileFromFS(dir: seq<string>, entries: seq<Entry>) returns (r: Result<seq<Record>>)
    ensures r == CombineEntries(dir, entries)
    decreases entries
  {
    var combinedData: seq<Record> := [];
    var i := 0;
    while i < |entries|
      invariant 0 <= i <= |entries|
      invariant CombineEntries(dir, entries[..i]) == Ok(combinedData)
    {
      var entry := entries[i];
      var part: Result<seq<Record>> := Ok([]);
      match entry {
        case Directory(name, children) =>
          part := LoadDirOrFileFromFS(dir + [name], children);
        case File(name, content) =>
          if name == AccountsFileName {
            part := AddLabelAndChainIdToJSON(dir + [name], content);
          }
        case Other(_) =>
      }
      assert part == EntryRecords(dir, entry);
      CombineOne(dir, entries, i);
      if part.Err? {
        CombineAbortsAt(dir, entries, i);
        return part;
      }
      combinedData := combinedData + part.value;
      i := i + 1;
    }
    assert entries[..i] == entries;
    r := Ok(combinedData);
  }

  /** `loadAllAccountsFromFS`: the walk from the data directory `baseDir`,
      whose listing is `entries`. Its result is the flat combination of the
      `accounts.json` files of the whole tree. */
  method LoadAllAccountsFromFS(baseDir: seq<string>, entries: seq<Entry>) returns (r: Result<seq<Record>>)
    ensures r == CombineFiles(AccountsFiles(baseDir, entries))
  {
    r := LoadDirOrFileFromFS(baseDir, entries);
    WalkIsFlatCombine(baseDir, entries);
  }

  // ----- lemmas -----

  /** Combining a split listing is combining the two halves in turn. */
  lemma {:induction false} CombineEntriesAppend(dir: seq<string>, a: seq<Entry>, b: seq<Entry>)
    ensures CombineEntries(dir, a + b) == Then(CombineEntries(dir, a), CombineEntries(dir, b))
    decreases |a|
  {
    if |a| == 0 {
      assert a + b == b;
      assert CombineEntries(dir, a) == Ok([]);
      match CombineEntries(dir, b)
      case Ok(v) => assert [] + v == v;
      case Err(_) =>
    } else {
      assert (a + b)[1..] == a[1..] + b;
      CombineEntriesAppend(dir, a[1..], b);
      ThenAssociative(EntryRecords(dir, a[0]), CombineEntries(dir, a[1..]), CombineEntries(dir, b));
    }
  }

  /** One more entry of the listing extends the prefix's combination. */
  lemma CombineOne(dir: seq<string>, entries: seq<Entry>, i: nat)
    requires i < |entries|
    ensures CombineEntries(dir, entries[..i + 1])
      == Then(CombineEntries(dir, entries[..i]), EntryRecords(dir, entries[i]))
  {
    assert entries[..i + 1] == entries[..i] + [entries[i]];
    CombineEntriesAppend(dir, entries[..i], [entries[i]]);
    assert [entries[i]][1..] == [];
    match EntryRecords(dir, entries[i])
    case Ok(v) => assert v + [] == v;
    case Err(_) =>
  }

  /** A failing entry makes the whole listing fail with its error. */
  lemma CombineAbortsAt(dir: seq<string>, entries: seq<Entry>, i: nat)
    requires i < |entries|
    requires CombineEntries(dir, entries[..i]).Ok?
    requires EntryRecords(dir, entries[i]).Err?
    ensures CombineEntries(dir, entries) == EntryRecords(dir, entries[i])
  {
    assert entries == entries[..i] + entries[i..];
    CombineEntriesAppend(dir, entries[..i], entries[i..]);
    assert entries[i..][0] == entries[i];
  }

  /** The flat combination distributes over concatenation of file lists. */
  lemma {:induction false} CombineFilesAppend(a: seq<AccountsFile>, b: seq<AccountsFile>)
    ensures CombineFiles(a + b) == Then(CombineFiles(a), CombineFiles(b))
    decreases |a|
  {
    if |a| == 0 {
      assert a + b == b;
      match CombineFiles(b)
      case Ok(v) => assert [] + v == v;
      case Err(_) =>
    } else {
      assert (a + b)[1..] == a[1..] + b;
      CombineFilesAppend(a[1..], b);
      ThenAssociative(EnrichFile(a[0].path, a[0].content), CombineFiles(a[1..]), CombineFiles(b));
    }
  }

  /** The walk is the flat combination of the `accounts.json` files it
      finds, in depth-first listing order; nothing else contributes. */
  lemma {:induction false} WalkIsFlatCombine(dir: seq<string>, entries: seq<Entry>)
    ensures CombineEntries(dir, entries) == CombineFiles(AccountsFiles(dir, entries))
    decreases entries
  {
    if |entries| > 0 {
      EntryIsFlatCombine(dir, entries[0]);
      WalkIsFlatCombine(dir, entries[1..]);
      CombineFilesAppend(EntryFiles(dir, entries[0]), AccountsFiles(dir, entries[1..]));
    }
  }

  lemma {:induction false} EntryIsFlatCombine(dir: seq<string>, e: Entry)
    ensures EntryRecords(dir, e) == CombineFiles(EntryFiles(dir, e))
    decreases e
  {
    match e
    case Directory(name, children) =>
      WalkIsFlatCombine(dir + [name], children);
    case File(name, content) =>
      if name == AccountsFileName {
        var f := AccountsFile(dir + [name], content);
        assert [f][1..] == [];
        match EnrichFile(f.path, f.content)
        case Ok(v) => assert v + [] == v;
        case Err(_) =>
      }
    case Other(_) =>
  }

  /** With every file parsed, the combination succeeds and has one record
      per array element over all files. */
  lemma {:induction false} CombineFilesCount(fs: seq<AccountsFile>)
    requires AllParsed(fs)
    ensures CombineFiles(fs).Ok?
    ensures |CombineFiles(fs).value| == TotalRows(fs)
  {
    if |fs| > 0 {
      CombineFilesCount(fs[1..]);
    }
  }

  /** The combination fails exactly when some file is unparseable, and then
      with the error of the first such file: no partial list is returned. */
  lemma {:induction false} CombineFilesFirstFailure(fs: seq<AccountsFile>, k: nat)
    requires k < |fs| && fs[k].content.Unparseable?
    requires forall j :: 0 <= j < k ==> fs[j].content.Parsed?
    ensures CombineFiles(fs) == Err(ParseError(fs[k].path))
  {
    if k > 0 {
      CombineFilesFirstFailure(fs[1..], k - 1);
    }
  }

  /** Record i of file k lands at the offset of all earlier files' records
      plus i, and is that element enriched with the file's own label and
      chain ID: order is kept across and within files. */
  lemma CombinedRecordAt(fs: seq<AccountsFile>, k: nat, i: nat)
    requires AllParsed(fs)
    requires k < |fs| && i < |fs[k].content.rows|
    ensures CombineFiles(fs).Ok?
    ensures TotalRows(fs[..k]) + i < |CombineFiles(fs).value|
    ensures CombineFiles(fs).value[TotalRows(fs[..k]) + i]
      == Enrich(fs[k].content.rows[i], ParentName(fs[k].path), LookupChainId(GrandparentName(fs[k].path)))
  {
    var before, from := fs[..k], fs[k..];
    assert fs == before + from;
    CombineFilesAppend(before, from);
    AllParsedSlice(fs, 0, k);
    CombineFilesCount(before);
    var own := EnrichFile(fs[k].path, fs[k].content);
    assert from[0] == fs[k];
    assert CombineFiles(from) == Then(own, CombineFiles(from[1..]));
    AllParsedSlice(fs, k + 1, |fs|);
    assert from[1..] == fs[k + 1..];
    CombineFilesCount(from[1..]);
    assert CombineFiles(fs).value == CombineFiles(before).value + (own.value + CombineFiles(from[1..]).value);
  }

  lemma AllParsedSlice(fs: seq<AccountsFile>, lo: nat, hi: nat)
    requires AllParsed(fs) && lo <= hi <= |fs|
    ensures AllParsed(fs[lo..hi])
  {
    forall j | 0 <= j < hi - lo
      ensures fs[lo..hi][j].content.Parsed?
    {
      assert fs[lo..hi][j] == fs[lo + j];
    }
  }

  /** The walk over a whole tree: it fails iff some `accounts.json` is
      unparseable, and otherwise yields as many records as all those files
      hold elements. */
  lemma WalkOutcome(dir: seq<string>, entries: seq<Entry>)
    ensures var fs := AccountsFiles(dir, entries);
      (CombineEntries(dir, entries).Ok? <==> AllParsed(fs)) &&
      (AllParsed(fs) ==> |CombineEntries(dir, entries).value| == TotalRows(fs))
  {
    var fs := AccountsFiles(dir, entries);
    WalkIsFlatCombine(dir, entries);
    if AllParsed(fs) {
      CombineFilesCount(fs);
    } else {
      var k := FirstUnparseable(fs);
      CombineFilesFirstFailure(fs, k);
    }
  }

  /** Index of the first unparseable file. */
  function FirstUnparseable(fs: seq<AccountsFile>): (k: nat)
    requires !AllParsed(fs)
    ensures k < |fs| && fs[k].content.Unparseable?
    ensures forall j :: 0 <= j < k ==> fs[j].content.Parsed?
  {
    if fs[0].content.Unparseable? then 0 else 1 + FirstUnparseable(fs[1..])
  }
}
