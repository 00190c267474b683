# Dataset combiner of etherscan-labels, modelled in Dafny

The repository scrapes account labels from blockchain explorers into a tree
of `accounts.json` files and then combines them into one list for a
database. The combining step, `api/compute-combined-accounts.ts`, is
modelled here:

- **Chain-ID lookup** (`ChainIds`): the fixed seven-entry table from
  explorer directory names to chain IDs, looked up with the lower-cased
  grandparent directory name; a miss yields `undefined`, never an error.
- **Per-file enrichment** (`Enrichment`): one parsed `accounts.json`
  becomes a new list in which every object is copied with `label` (the
  parent directory's name) and `chainId` written over whatever it held.
  `AddLabelAndChainIdToJSON` is the push loop of the source, proved against
  the function `EnrichFile`.
- **Recursive walk** (`Walk`): depth first, in listing order, into every
  directory, reading only files named exactly `accounts.json`, and
  concatenating everything into one flat list. `LoadDirOrFileFromFS` is the
  loop with recursion of the source, proved against `CombineEntries`; the
  lemmas relate that to `CombineFiles`, an independent definition over the
  flat list of `accounts.json` files the tree holds.

The filesystem is an inductive tree (`Walk.Entry`): directories with their
listing, regular files with their content already parsed (or
`Unparseable`), and other entries (symbolic links and the like, which the
source neither walks into nor reads). A path is the sequence of its
components below the filesystem root; `path.dirname` drops the last one and
`path.basename` of the root is the empty name, so a file directly under the
data directory takes the data directory's own parent as its grandparent.
A thrown exception is `Err(ParseError(path))` and aborts the whole walk.

The combiner always writes `chainId`. On a miss the property is present
with the value `undefined` (`Values.Undefined`), because the object literal
at api/compute-combined-accounts.ts:39-43 sets it unconditionally.

Since every operation is modelled by a function of the tree, running the
combiner twice on the same tree gives the same list.

## Model

| member | source | states |
|---|---|---|
| `Values.Then` | api/compute-combined-accounts.ts:55-65 | a failure in the first step is the result; otherwise a failure in the second; otherwise the two record lists concatenated (`concat` with exceptions propagating) |
| `Values.ThenAssociative` | api/compute-combined-accounts.ts:55-65 | regrouping three throwing steps does not change the outcome, so accumulating entry by entry equals combining sub-lists |
| `Ascii.LowerChar` | api/compute-combined-accounts.ts:34 | capitals A-Z become the small letter 32 code points higher; every other character is kept |
| `Ascii.ToLower` | api/compute-combined-accounts.ts:34 | same length as the input, each character lower-cased |
| `Ascii.ToLowerSameIffEqualIgnoringCase` | api/compute-combined-accounts.ts:34 | two names lower-case to the same string exactly when they differ only in the case of letters |
| `Ascii.ToLowerIdempotent` | api/compute-combined-accounts.ts:34 | lower-casing a lower-cased name changes nothing |
| `ChainIds.LookupChainId` | api/compute-combined-accounts.ts:6-14 | gives 1, 42161, 8453, 56, 42220, 100, 10 exactly when the lower-cased name is etherscan, arbiscan, basescan, bscscan, celo, gnosis, optimism respectively, and no other chain ID ever |
| `ChainIds.LookupIgnoresCase` | api/compute-combined-accounts.ts:34 | names equal ignoring case resolve to the same chain ID, and a name resolves as its lower-cased form does |
| `ChainIds.AnyCaseOfKeyResolves` | api/compute-combined-accounts.ts:34 | any spelling of a table key, in any case, resolves to that key's chain ID |
| `ChainIds.LookupMiss` | api/compute-combined-accounts.ts:34 | a name equal (ignoring case) to no table key gives no chain ID, without error |
| `ChainIds.ToLowerFixesLowerKey` | api/compute-combined-accounts.ts:6-14 | every table key is already lower case, so it is reachable by the lower-cased lookup |
| `ChainIds.EtherscanInAnyCase` | api/compute-combined-accounts.ts:34 | `etherscan`, `Etherscan` and `ETHERSCAN` all resolve to chain 1 |
| `Enrichment.DirName` | api/compute-combined-accounts.ts:28-31 | the path is its dirname followed by its last component; the root is its own dirname |
| `Enrichment.BaseName` | api/compute-combined-accounts.ts:28 | the last path component, or the empty name for the root |
| `Enrichment.ParentName` | api/compute-combined-accounts.ts:28 | the component before the file name, or the empty name when there is none |
| `Enrichment.GrandparentName` | api/compute-combined-accounts.ts:31 | the component two before the file name, or the empty name when there is none |
| `Enrichment.NamesOfFileInDirectory` | api/compute-combined-accounts.ts:28-31 | a file found at `dir` + [p, name] gets parent p and grandparent the last component of `dir` (empty for the root) |
| `Enrichment.ChainIdValue` | api/compute-combined-accounts.ts:42 | a found chain ID is stored as that number, a miss as `undefined` |
| `Enrichment.Enrich` | api/compute-combined-accounts.ts:39-43 | the copy has the source's properties plus `label` and `chainId`; `label` is the given name, `chainId` the looked-up value, whatever the source held there; every other property is unchanged |
| `Enrichment.EnrichRows` | api/compute-combined-accounts.ts:36-45 | same length as the input; element i is input element i enriched with the shared label and chain ID |
| `Enrichment.EnrichFile` | api/compute-combined-accounts.ts:22-48 | fails, naming the file, exactly when the content is unparseable; otherwise one record per array element, in order, each enriched with the parent directory name and the grandparent's chain ID |
| `Enrichment.AddLabelAndChainIdToJSON` | api/compute-combined-accounts.ts:22-48 | the push loop returns exactly `EnrichFile` of the file |
| `Enrichment.RecordsShareDerivedFields` | api/compute-combined-accounts.ts:28-34 | all records of one file carry the same `label` (the parent name) and the same `chainId` |
| `Enrichment.UnmappedGrandparentStillEnriches` | api/compute-combined-accounts.ts:34-45 | with an unmapped grandparent the file still succeeds and every record has `chainId` undefined |
| `Walk.EntryRecords` | api/compute-combined-accounts.ts:58-64 | one listed entry contributes its subtree's records, its file's enrichment, or nothing; a failure always names an `accounts.json` inside the directory |
| `Walk.CombineEntries` | api/compute-combined-accounts.ts:53-65 | the listing folded in order with the first failure aborting; a failure always names an `accounts.json` inside the directory |
| `Walk.CombineFiles` | api/compute-combined-accounts.ts:55-65 | the flat fold over the found files; a failure is the parse error of one of those files whose content is unparseable |
| `Walk.EntryFiles` | api/compute-combined-accounts.ts:58-64 | every file found below an entry lies under the entry's directory and is named exactly `accounts.json` |
| `Walk.AccountsFiles` | api/compute-combined-accounts.ts:55-65 | every file found in a listing lies under that directory and is named exactly `accounts.json` |
| `Walk.LoadDirOrFileFromFS` | api/compute-combined-accounts.ts:51-68 | the loop with recursion returns exactly `CombineEntries` of the directory's listing |
| `Walk.LoadAllAccountsFromFS` | api/compute-combined-accounts.ts:70-76 | the walk from the data directory equals the flat combination of all `accounts.json` files of the tree in depth-first listing order |
| `Walk.CombineEntriesAppend` | api/compute-combined-accounts.ts:55-65 | combining a listing split in two is combining the halves in turn |
| `Walk.CombineOne` | api/compute-combined-accounts.ts:55-65 | each further entry extends the accumulated combination by its own contribution |
| `Walk.CombineAbortsAt` | api/compute-combined-accounts.ts:60-63 | an entry that throws makes the whole listing throw that error, dropping what was accumulated |
| `Walk.CombineFilesAppend` | api/compute-combined-accounts.ts:60-63 | the flat combination of two file lists is the combination of each in turn |
| `Walk.WalkIsFlatCombine` | api/compute-combined-accounts.ts:51-68 | the walk equals the flat combination of exactly the `accounts.json` files found in the subtree, depth first in listing order |
| `Walk.EntryIsFlatCombine` | api/compute-combined-accounts.ts:58-64 | one entry's contribution equals the flat combination of the `accounts.json` files below it |
| `Walk.CombineFilesCount` | api/compute-combined-accounts.ts:55-65 | with every file parsed, the result succeeds with as many records as the files' arrays have elements in all |
| `Walk.CombineFilesFirstFailure` | api/compute-combined-accounts.ts:24-25 | if file k is the first unparseable one, the whole result is its parse error and no list |
| `Walk.CombinedRecordAt` | api/compute-combined-accounts.ts:36-65 | record i of file k sits at position (records of files before k) + i and is that element enriched with file k's own label and chain ID |
| `Walk.WalkOutcome` | api/compute-combined-accounts.ts:51-68 | the walk succeeds exactly when every `accounts.json` in the tree is parseable, and then its length is the sum of their array lengths |
| `Scenarios.OneFileTree` | api/compute-combined-accounts.ts:51-68 | a tree with one `accounts.json` two levels below the data directory gives exactly that file's enrichment |
| `Scenarios.KnownExplorer` | api/compute-combined-accounts.ts:39-43 | `data/etherscan/0x-protocol/accounts.json` with `{address: "0xabc", nameTag: "Foo"}` gives that object with `label` "0x-protocol" and `chainId` 1 |
| `Scenarios.UnknownExplorer` | api/compute-combined-accounts.ts:34-43 | `data/unknownsite/some-label/accounts.json` gives the object with `label` "some-label" and `chainId` undefined, no error |
| `Scenarios.BadFileAbortsWalk` | api/compute-combined-accounts.ts:60-63 | an unparseable `accounts.json` after a good one fails the walk with no records; an unparseable file of another name is ignored |

## Left out

- Filesystem access (`readdirSync`, `readFileSync`, `path.resolve(__dirname, "../data")`): the tree, the listing order and the data directory's path are parameters. Errors listing a directory or reading a file are therefore not modelled; only the parse failure is.
- `JSON.parse` and JSON syntax: file content is given already parsed as an array of objects, or as `Unparseable`, which also stands for valid JSON that is not an array (it fails at `forEach`).
- Array elements that are not objects (numbers, strings, `null`, nested arrays): spreading them is not modelled; every element is a `Record`.
- Property enumeration order of the enriched objects: a record is a map, so where `label` and `chainId` sit among the keys is not captured.
- Numbers are exact reals (`Values.Num`), not IEEE doubles; the combiner only copies them.
- `Ascii.LowerChar`: lowers only the ASCII capitals A-Z, where `toLowerCase` follows Unicode (a non-ASCII capital such as É is kept); the next line explains why no lookup in the table changes.
- `Ascii.ToLower`: lowers ASCII letters only, where `toLowerCase` follows Unicode. For this table the lookup result is the same: the only non-ASCII characters that lower-case to ASCII letters are the Kelvin sign (to `k`, which no key contains) and the dotted capital I (to two characters, one of them non-ASCII).
- Inherited properties of the object used as the table (a lower-cased name such as `constructor` finds a prototype member in JavaScript); the table is a plain seven-entry map.
- The error value names the path of the failing file; the exception `JSON.parse` throws does not, but it is thrown at that file.
- The module-level `console.log` of the result: output only.
- `scripts/modules/main.ts` (browser automation, provider orchestration, CLI flags, formatting by an external tool) and `scripts/db/types.ts` (table type declarations only) are not part of this model.
