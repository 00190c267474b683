/**
 * Turning one `accounts.json` into enriched records: every object gets the
 * name of the file's parent directory as `label` and the chain ID looked up
 * from its grandparent directory as `chainId`.
 *
 * A path is the sequence of its components below the filesystem root, so
 * `/repo/data/etherscan/0x-protocol/accounts.json` is
 * `["repo", "data", "etherscan", "0x-protocol", "accounts.json"]`.
 */
module Enrichment {
  import opened Values
  import opened ChainIds

  /** `path.dirname`: the path without its last component (the root is its own dirname). */
  function DirName(path: seq<string>): (d: seq<string>)
    ensures |path| > 0 ==> path == d + [path[|path| - 1]]
    ensures |path| == 0 ==> d == []
  {
    if |path| == 0 then [] else path[..|path| - 1]
  }

  /** `path.basename`: the last component, or the empty name for the root. */
  function BaseName(path: seq<string>): (r: string)
    ensures |path| > 0 ==> r == path[|path| - 1]
    ensures |path| == 0 ==> r == ""
  {
    if |path| == 0 then "" else path[|path| - 1]
  }

  /** Name of the directory holding the file: the component before the last. */
  function ParentName(filePath: seq<string>): (r: string)
    ensures |filePath| >= 2 ==> r == filePath[|filePath| - 2]
    ensures |filePath| < 2 ==> r == ""
  {
    BaseName(DirName(filePath))
  }

  /** Name of the directory above the one holding the file: the component
      two before the last. */
  function GrandparentName(filePath: seq<string>): (r: string)
    ensures |filePath| >= 3 ==> r == filePath[|filePath| - 3]
    ensures |filePath| < 3 ==> r == ""
  {
    BaseName(DirName(DirName(filePath)))
  }

  /** A file `name` inside directory `parent` inside directory `dir` is
      labelled `parent` and looked up by the last component of `dir`, which
      is the empty name when `dir` is the root. */
  lemma NamesOfFileInDirectory(dir: seq<string>, parent: string, name: string)
    ensures ParentName(dir + [parent, name]) == parent
    ensures GrandparentName(dir + [parent, name]) == BaseName(dir)
  {
    var p := dir + [parent, name];
    assert DirName(p) == dir + [parent];
    assert DirName(DirName(p)) == dir;
  }

  /** What is stored under `chainId`: the number, or `undefined` on a miss. */
  function ChainIdValue(chainId: Option<int>): (v: Value)
    ensures chainId.Some? <==> v.Num?
    ensures chainId.Some? ==> v == Num(chainId.value as real)
    ensures chainId.None? ==> v == Undefined
  {
    match chainId
    case Some(n) => Num(n as real)
    case None => Undefined
  }

  /** `{ ...obj, label, chainId }`: a copy of the object in which the two
      derived properties are set, whether or not the object had them. */
  function Enrich(obj: Record, name: string, chainId: Option<int>): (r: Record)
    ensures r.Keys == obj.Keys + {"label", "chainId"}
    ensures r["label"] == Str(name)
    ensures r["chainId"] == ChainIdValue(chainId)
    ensures forall k :: k in obj && k != "label" && k != "chainId" ==> r[k] == obj[k]
  {
    obj["label" := Str(name)]["chainId" := ChainIdValue(chainId)]
  }

  /** Every object enriched with the same label and chain ID, in order. */
  function EnrichRows(rows: seq<Record>, name: string, chainId: Option<int>): (r: seq<Record>)
    ensures |r| == |rows|
    ensures forall i :: 0 <= i < |rows| ==> r[i] == Enrich(rows[i], name, chainId)
  {
    if |rows| == 0 then [] else [Enrich(rows[0], name, chainId)] + EnrichRows(rows[1..], name, chainId)
  }

  /** The outcome of processing one `accounts.json` at `filePath`: a parse
      failure aborts, otherwise one enriched record per array element. */
  function EnrichFile(filePath: seq<string>, content: Content): (r: Result<seq<Record>>)
    ensures r.Err? <==> content.Unparseable?
    ensures r.Err? ==> r.error == ParseError(filePath)
    ensures r.Ok? ==> |r.value| == |content.rows|
    ensures r.Ok? ==> forall i :: 0 <= i < |r.value| ==>
      r.value[i] == Enrich(content.rows[i], ParentName(filePath), LookupChainId(GrandparentName(filePath)))
  {
    match content
    case Unparseable => Err(ParseError(filePath))
    case Parsed(rows) => Ok(EnrichRows(rows, ParentName(filePath), LookupChainId(GrandparentName(filePath))))
  }

  /** `addLabelAndChainIdToJSON`: parse, derive the two names and the chain
      ID once, then push one enriched copy per element. */
  method AddLabelAndChainIdToJSON(filePath: seq<string>, content: Content) returns (r: Result<seq<Record>>)
    ensures r == EnrichFile(filePath, content)
  {
    if content.Unparseable? {
      return Err(ParseError(filePath));
    }
    var jsonData := content.rows;
    var parentDir := BaseName(DirName(filePath));
    var grandparentDir := BaseName(DirName(DirName(filePath)));
    var chainId := LookupChainId(grandparentDir);
    var toReturn: seq<Record> := [];
    var i := 0;
    while i < |jsonData|
      invariant 0 <= i <= |jsonData|
      invariant |toReturn| == i
      invariant forall j :: 0 <= j < i ==> toReturn[j] == Enrich(jsonData[j], parentDir, chainId)
    {
      var newObject := jsonData[i]["label" := Str(parentDir)]["chainId" := ChainIdValue(chainId)];
      toReturn := toReturn + [newObject];
      i := i + 1;
    }
    assert toReturn == EnrichRows(jsonData, parentDir, chainId);
    r := Ok(toReturn);
  }

  /** All records of one file carry the same label and chain ID, whatever
      same-named properties the source objects had. */
  lemma {:induction false} RecordsShareDerivedFields(filePath: seq<string>, rows: seq<Record>, i: nat, j: nat)
    requires i < |rows| && j < |rows|
    ensures EnrichFile(filePath, Parsed(rows)).Ok?
    ensures var out := EnrichFile(filePath, Parsed(rows)).value;
      out[i]["label"] == out[j]["label"] == Str(ParentName(filePath)) &&
      out[i]["chainId"] == out[j]["chainId"] == ChainIdValue(LookupChainId(GrandparentName(filePath)))
  {
  }

  /** A grandparent outside the table is not an error: every record is
      produced, with `chainId` undefined. */
  lemma UnmappedGrandparentStillEnriches(filePath: seq<string>, rows: seq<Record>)
    requires LookupChainId(GrandparentName(filePath)) == None
    ensures EnrichFile(filePath, Parsed(rows)).Ok?
    ensures forall r :: r in EnrichFile(filePath, Parsed(rows)).value ==> r["chainId"] == Undefined
  {
  }
}
