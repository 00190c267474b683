/**
 * Concrete trees and what the walk makes of them.
 */
module Scenarios {
  import opened Values
  import opened ChainIds
  import opened Enrichment
  import opened Walk

  const DataDir: seq<string> := ["repo", "data"]

  /** A listing of one entry contributes what that entry does. */
  lemma SingleEntry(dir: seq<string>, e: Entry)
    ensures CombineEntries(dir, [e]) == EntryRecords(dir, e)
  {
    assert [e][1..] == [];
    match EntryRecords(dir, e)
    case Ok(v) => assert v + [] == v;
    case Err(_) =>
  }

  /** The records of the single file at `data/<explorer>/<name>/accounts.json`. */
  lemma OneFileTree(explorer: string, name: string, content: Content)
    ensures CombineEntries(DataDir, [Directory(explorer, [Directory(name, [File("accounts.json", content)])])])
      == EnrichFile(DataDir + [explorer, name, "accounts.json"], content)
  {
    var file := File("accounts.json", content);
    var inner := Directory(name, [file]);
    SingleEntry(DataDir, Directory(explorer, [inner]));
    SingleEntry(DataDir + [explorer], inner);
    SingleEntry(DataDir + [explorer] + [name], file);
    assert DataDir + [explorer] + [name] + ["accounts.json"] == DataDir + [explorer, name, "accounts.json"];
  }

  /** `data/etherscan/0x-protocol/accounts.json` holding one object. */
  lemma KnownExplorer()
    ensures CombineEntries(DataDir, [Directory("etherscan", [Directory("0x-protocol", [
        File("accounts.json", Parsed([map["address" := Str("0xabc"), "nameTag" := Str("Foo")]]))])])])
      == Ok([map["address" := Str("0xabc"), "nameTag" := Str("Foo"), "label" := Str("0x-protocol"), "chainId" := Num(1.0)]])
  {
    var obj := map["address" := Str("0xabc"), "nameTag" := Str("Foo")];
    var path := DataDir + ["etherscan", "0x-protocol", "accounts.json"];
    OneFileTree("etherscan", "0x-protocol", Parsed([obj]));
    assert ParentName(path) == "0x-protocol";
    assert GrandparentName(path) == "etherscan";
    EtherscanInAnyCase();
    var out := EnrichFile(path, Parsed([obj]));
    assert |out.value| == 1;
    assert out.value[0] == Enrich(obj, "0x-protocol", Some(1));
    assert ChainIdValue(Some(1)) == Num(1.0);
    assert Enrich(obj, "0x-protocol", Some(1))
      == map["address" := Str("0xabc"), "nameTag" := Str("Foo"), "label" := Str("0x-protocol"), "chainId" := Num(1.0)];
    assert out.value == [out.value[0]];
  }

  /** `data/unknownsite/some-label/accounts.json`: enriched, chain ID undefined, no error. */
  lemma UnknownExplorer()
    ensures CombineEntries(DataDir, [Directory("unknownsite", [Directory("some-label", [
        File("accounts.json", Parsed([map["address" := Str("0xdef")]]))])])])
      == Ok([map["address" := Str("0xdef"), "label" := Str("some-label"), "chainId" := Undefined]])
  {
    var obj := map["address" := Str("0xdef")];
    var path := DataDir + ["unknownsite", "some-label", "accounts.json"];
    OneFileTree("unknownsite", "some-label", Parsed([obj]));
    assert ParentName(path) == "some-label";
    assert GrandparentName(path) == "unknownsite";
    assert LookupChainId("unknownsite") == None;
    var out := EnrichFile(path, Parsed([obj]));
    assert |out.value| == 1;
    assert out.value[0] == Enrich(obj, "some-label", None);
    assert Enrich(obj, "some-label", None)
      == map["address" := Str("0xdef"), "label" := Str("some-label"), "chainId" := Undefined];
    assert out.value == [out.value[0]];
  }

  /** A bad file after a good one: the good file's records are not returned. */
  lemma BadFileAbortsWalk()
    ensures CombineEntries(DataDir, [Directory("etherscan", [
        Directory("a", [File("accounts.json", Parsed([map["address" := Str("0x1")]]))]),
        Directory("b", [File("notes.txt", Unparseable), File("accounts.json", Unparseable)])])])
      == Err(ParseError(DataDir + ["etherscan", "b", "accounts.json"]))
  {
  }
}
