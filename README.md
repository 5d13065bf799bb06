# Grid inheritance resolution of the nftGrid page, in Dafny

The grid page (`src/pages/gridDetails.tsx`) shows a collection's `N*M` grid of NFT slots. A
collection can be the child of a parent collection, which gives a chain of ancestors up to a
root. The page fills each slot in four steps:

- it walks the chain of parents through the indexer (`fetchParent`);
- it merges the collection's own mints with the ancestors' mints into one array of `N*M` entries;
- it lets the user overwrite one entry locally (`setMintDetails`);
- it builds the base URI for the owner's setup transaction (`handleCompleteSetup`).

A gate decides when a resolution starts.

The project has five modules:

- `JsValues` (`js_values.dfy`): the JavaScript value semantics the page relies on. These are
  `undefined`, string truthiness, template rendering, ASCII `toLowerCase`, and `toString`/`Number`
  on non-negative integers.
- `Entities` (`entities.dfy`): mint records, grid entries, indexer collection records and the
  page's `data` record, all as datatypes.
- `AncestorWalk` (`walk.dfy`): `fetchParent` as a recursive function over a map that stands in
  for the indexer. It has a fuel bound, because the source has no cycle protection.
- `MintMerge` (`merge.dfy`): the merge block, written as an array method (`MergeMints`). The
  method is proved to compute a fold that follows the code's write order. Lemmas then describe
  each slot of the fold's result without reference to that order.
- `GridSession` (`session.dfy`): the readiness gate, one full resolution (gate, walk, merge), the
  base-URI setup, and the in-place edit of one entry.

How the code resolves a slot, and what follows from its write order:

- Own mints are written first, and the last own mint of a slot wins.
- Ancestor mints only fill slots that are still empty.
- The ancestor accumulator lists the nearest ancestor first, and the merge walks it from its end
  (`reverse()`). So among ancestors, the one reached **last** in the walk (the farthest) wins,
  with its first mint of that slot; a nearer ancestor's mint never displaces it.
- A record without a parent (the root) ends the walk and is never appended to the accumulator.
  So the root's own mints never reach the grid, not even in slots no one else claims.
- A rejected indexer request ends in the `catch`, which only logs, so no grid is published and
  the ancestors found so far are not merged into any grid. A response that resolves with an error and no data is a
  different case: it has no collection, so the test at line 140 treats it as terminal and the
  merge runs with the ancestors found so far. The model's missing-key case is that response.
- A token id outside the grid is neither skipped nor reported; the write would lengthen the array.
  The model takes in-range ids as a precondition of the merge.
- The gate tests the dimension strings for truthiness. A zero dimension (`"0"`) is a non-empty
  string, so it opens the gate and the merge runs over an empty grid.
- `Array.from({length: N*M})` throws a RangeError when `N*M` exceeds 2^32 - 1. The throw happens
  inside the `.then`, the `catch` only logs, and no grid is published.

Two places in the source read a path the data does not have, and the model takes the evident
reading. The recursive call at line 164 reads `resp.data?.data?.collection`; the model uses the
fetched collection. Line 151 reads `op.mints` while the query selects `mint`; the model uses the
ancestor's `mint` list. Token ids are modelled as the numbers `Number(tokenId)`, and the metadata
URI renders them in canonical decimal.

## Model

| member | source | states |
|---|---|---|
| `JsValues.Truthy` | src/pages/gridDetails.tsx:140 | JavaScript truthiness of a possibly undefined string: only `undefined` and `""` are falsy; the definition is the model, used by the tests at lines 140 and 211 (`WalkFrom`, `Ready`) |
| `JsValues.Template` | src/pages/gridDetails.tsx:147 | `${data.baseURI}` in a template literal: an undefined base URI renders as the word `undefined`; the definition is the model, used by `OwnSlot` |
| `JsValues.OrEmpty` | src/pages/gridDetails.tsx:136 | `(parent or empty)`: a truthy string passes through; `undefined` or `""` gives `""` |
| `JsValues.Decimal` | src/pages/gridDetails.tsx:34-35 | `toString()` of a non-negative integer is a non-empty digit string, with no leading zero above 9 |
| `JsValues.ParseDecimalOfDecimal` | src/pages/gridDetails.tsx:142 | `Number(n.toString()) == n`, so the grid size read back from `data` is the contract's value |
| `JsValues.ToLower` | src/pages/gridDetails.tsx:136 | `toLowerCase()` keeps the length of the id; its idempotence is `ToLowerIdempotent` |
| `JsValues.ParseDecimal` | src/pages/gridDetails.tsx:142 | `Number(s)` on a digit string; the definition is the model, and `ParseDecimalOfDecimal` proves it inverts `toString()` |
| `JsValues.ToLowerIdempotent` | src/pages/gridDetails.tsx:136 | lower-casing an id twice is the same as lower-casing it once |
| `AncestorWalk.QueryKey` | src/pages/gridDetails.tsx:136 | `(parent or empty).toLowerCase()`; the definition is the model, and `QueryKeyNormalised` states its properties |
| `AncestorWalk.QueryKeyNormalised` | src/pages/gridDetails.tsx:136 | the query key has the length of the parent id (empty for a missing parent) and is already lower case, so lower-casing it again changes nothing |
| `AncestorWalk.WalkFrom` | src/pages/gridDetails.tsx:117-167 | the accumulator only grows at its end; every appended record has a parent; one query per appended record plus one for the terminal answer; at most `fuel` queries |
| `AncestorWalk.WalkIgnoresCase` | src/pages/gridDetails.tsx:136 | ids are lower-cased before the query, so the walk from an id and from its lower-cased form are identical |
| `AncestorWalk.WalkStep` | src/pages/gridDetails.tsx:139-164 | a fetched record with a parent is appended to the end of the accumulator, and the walk continues from its parent after exactly one query |
| `AncestorWalk.WalkAlong` | src/pages/gridDetails.tsx:140-164 | following a chain of records that have parents appends each of them in discovery order, at one query each, and continues from the last one's parent |
| `AncestorWalk.WalkToRoot` | src/pages/gridDetails.tsx:136-164 | a chain of k records ending in a parentless root: k queries, the walk finishes, and the k-1 records other than the root are appended in order |
| `AncestorWalk.WalkToMissing` | src/pages/gridDetails.tsx:139-141 | a parent id the indexer does not know ends the walk like a root, with every record before it appended |
| `AncestorWalk.WalkToRejection` | src/pages/gridDetails.tsx:139-166 | a rejected request ends the walk as failed (the `catch` only logs), with the records found before it |
| `AncestorWalk.WalkSelfLoop` | src/pages/gridDetails.tsx:164 | a collection that is its own parent makes the walk recurse forever: it runs out of every fuel bound |
| `Entities.Unloaded` | src/pages/gridDetails.tsx:13 | the initial `data` state `{}`: every field undefined; the definition is the model, and `GateClosedBeforeLoad` states its effect on the gate |
| `Entities.Loaded` | src/pages/gridDetails.tsx:34-43 | the record `setData` stores, with the dimensions as their `.toString()` decimal strings; the definition is the model, and `GateOpensOnceLoaded` and `LoadedGridSize` state its properties |
| `Entities.MetaUri` | src/pages/gridDetails.tsx:147 | `${base}/${tokenId}.json`; the definition is the model, and `MetaUriInjective` is its partner |
| `Entities.MetaUriInjective` | src/pages/gridDetails.tsx:147 | under one base URI, two tokens with the same metadata URI have the same id |
| `MintMerge.OwnSlot` | src/pages/gridDetails.tsx:144-148 | the entry an own mint gets: the record spread, the connected address as owner, `baseURI/tokenId.json` as meta; the definition is the model, used by `ApplyOwnLastWins` and `OwnMintWins` |
| `MintMerge.AncestorSlot` | src/pages/gridDetails.tsx:153-157 | the entry an ancestor mint gets: the record spread, the ancestor's owner, `baseUrl/tokenId.json` as meta; the definition is the model, used by `FillMintsFirstWins` and `LatestAncestorWins` |
| `MintMerge.Empty` | src/pages/gridDetails.tsx:142 | the fresh array has `size` entries, all undefined |
| `MintMerge.ApplyOwn` | src/pages/gridDetails.tsx:143-149 | the own-mint loop keeps the array length |
| `MintMerge.FillMints` | src/pages/gridDetails.tsx:151-159 | one ancestor's fill-if-empty loop keeps the array length |
| `MintMerge.FillAncestors` | src/pages/gridDetails.tsx:150-160 | the loop over the reversed accumulator keeps the array length |
| `MintMerge.Merged` | src/pages/gridDetails.tsx:142-160 | with all token ids in range, the merged grid has exactly `size` entries |
| `MintMerge.WriteOwnMints` | src/pages/gridDetails.tsx:143-149 | the in-place own-mint loop leaves the array equal to the own-mint fold of its old contents |
| `MintMerge.FillFromAncestor` | src/pages/gridDetails.tsx:151-159 | the in-place loop over one ancestor's mints leaves the array equal to the fill-if-empty fold of its old contents |
| `MintMerge.MergeMints` | src/pages/gridDetails.tsx:142-161 | the in-place merge returns a new array of `N*M` entries equal to the merged grid: own mints in order, then ancestors from the end of the accumulator, fill-if-empty. It requires `N*M` to be a valid array length, as `Array.from` does |
| `MintMerge.ApplyOwnUnclaimed` | src/pages/gridDetails.tsx:143-149 | a slot that no own mint claims keeps its previous value |
| `MintMerge.ApplyOwnLastWins` | src/pages/gridDetails.tsx:143-149 | a slot claimed by several own mints holds the last one, with the connected address and `baseURI/tokenId.json` |
| `MintMerge.ApplyOwnFills` | src/pages/gridDetails.tsx:143-149 | every slot some own mint claims is filled |
| `MintMerge.FillMintsKeepsFilled` | src/pages/gridDetails.tsx:152 | an ancestor's mint never overwrites a filled slot |
| `MintMerge.FillMintsUnclaimed` | src/pages/gridDetails.tsx:151-159 | a slot none of an ancestor's mints claims is unchanged |
| `MintMerge.FillMintsFirstWins` | src/pages/gridDetails.tsx:151-158 | an empty slot gets the first of the ancestor's mints that claims it, with that ancestor's owner and base URL |
| `MintMerge.FillMintsFills` | src/pages/gridDetails.tsx:151-158 | every slot one of the ancestor's mints claims is filled afterwards |
| `MintMerge.FillAncestorsKeepsFilled` | src/pages/gridDetails.tsx:150-160 | no ancestor overwrites a filled slot, so own-mint entries survive all ancestors |
| `MintMerge.FillAncestorsUnclaimed` | src/pages/gridDetails.tsx:150-160 | a slot no ancestor claims is unchanged by the ancestor pass |
| `MintMerge.FillAncestorsLatestWins` | src/pages/gridDetails.tsx:150-157 | an empty slot gets the ancestor latest in the accumulator among those that claim it, with its first mint of that slot |
| `MintMerge.FillAncestorsFills` | src/pages/gridDetails.tsx:150-160 | every slot some ancestor mint claims is filled afterwards |
| `MintMerge.OwnMintWins` | src/pages/gridDetails.tsx:143-160 | in the merged grid, a slot's last own mint decides it (owner = connected address, meta = `baseURI/tokenId.json`), whatever the ancestors hold |
| `MintMerge.LatestAncestorWins` | src/pages/gridDetails.tsx:150-157 | a slot no own mint claims holds the farthest-reached claiming ancestor's first mint, owner and `baseUrl/tokenId.json` |
| `MintMerge.FilledIffClaimed` | src/pages/gridDetails.tsx:142-160 | a merged slot is filled if and only if some own or ancestor mint claims it; otherwise it stays undefined |
| `GridSession.Ready` | src/pages/gridDetails.tsx:211 | the gate opens only when own mints have loaded and both dimensions are defined |
| `GridSession.GateClosedBeforeLoad` | src/pages/gridDetails.tsx:211 | with `data` still `{}`, the gate never opens |
| `GridSession.GateOpensOnceLoaded` | src/pages/gridDetails.tsx:34-43 | once the contract reads are stored, the gate opens exactly when own mints have loaded, even for a zero dimension |
| `GridSession.GridSize` | src/pages/gridDetails.tsx:142 | `Number(data.N) * Number(data.M)`; the definition is the model, and `LoadedGridSize` proves it is the contract's `N*M` |
| `GridSession.LoadedGridSize` | src/pages/gridDetails.tsx:142 | `Number(data.N) * Number(data.M)` of the stored record is the contract's `N*M` |
| `GridSession.Resolve` | src/pages/gridDetails.tsx:136-166 | a grid is published if and only if the gate is open, the walk finishes and `N*M` is at most 2^32 - 1 (a longer `Array.from` throws into the logging `catch`); when published, it is the merge of own mints and the walk's ancestors over `N*M` slots. Token ids need to be in range only when the merge runs: the gate is open, the walk finishes and `N*M` is at most 2^32 - 1 |
| `GridSession.RootResolvesOwnMintsOnly` | src/pages/gridDetails.tsx:136-161 | when the collection's parent is unknown to the indexer, the walk makes one query, finishes with no ancestors, and the whole merged grid (of a length `Array.from` accepts) equals the own-mint fold over an empty array |
| `GridSession.SetupUri` | src/pages/gridDetails.tsx:105 | the URI is the bucket root, then the address, then `/`, then the collection id, each at its own offset |
| `GridSession.SetupUriInjective` | src/pages/gridDetails.tsx:105 | the setup URI determines the address and the collection id (addresses hold no `/`) |
| `GridSession.CompleteSetup` | src/pages/gridDetails.tsx:93-115 | only `baseURI` changes, and only on a successful transaction with a collection id; it becomes the bucket root + address + `/` + collection id |
| `GridSession.EditedSlot` | src/pages/gridDetails.tsx:202-206 | the edited entry: id and token id are the index, meta is the argument, no owner; the definition is the model, used by `SetMintDetails` |
| `GridSession.SetMintDetails` | src/pages/gridDetails.tsx:201-208 | entry `index` becomes `{id: index, tokenId: index, meta}` with no owner; every other entry and the length are unchanged |

## Left out

- React state, effects and re-rendering (the `useState`/`useEffect`/`useCallback` plumbing). Only the gate predicate is modelled. `setMints`, `setParentCollections` and `setData` appear as the values a method returns.
- The `finally` republishing of the accumulator, which `reverse()` has reversed in place. `MergeMints` reads the ancestors from the end instead of reversing a shared list, so this aliasing is not captured.
- Chain-client reads and transactions: the ethers calls for dimensions, owner, parent, minted, baseURI, `complete()` and `setBaseURI`. Their results are parameters. `CompleteSetup` takes the transaction outcome as a boolean.
- `handleCompleteCollection`: it only submits a transaction and catches its error, and changes no page state.
- GraphQL queries and the network. The indexer is a map from lower-cased id to a reply; a missing key is a query with no collection.
- `fetchMints` and the lower-casing of the own-collection id. The own mints are a parameter.
- Asynchronous ordering, concurrent and stale responses, and the three-second error auto-clear. These are concurrency and timers.
- JSX rendering, including the owner-only "Complete Grid"/"Complete Base URI setup" buttons, and the logging.
- `AncestorWalk.WalkFrom`: takes a fuel bound the source does not have. A cyclic parent chain, which the source would follow forever, ends as out of fuel, and no grid is published.
- `MintMerge.MergeMints`: requires every token id to be below `N*M`. A JavaScript array would grow on an out-of-range write, and that growth is not modelled.
- `GridSession.SetMintDetails`: requires `index` below the array length. The page only passes indices of existing entries; growth of the array is not modelled.
- `JsValues.ToLower`: lower-cases ASCII only, not Unicode. Identifiers are hexadecimal addresses.
- The `collection` field spread from own mints is kept as part of the mint record. Token ids are assumed to be in canonical decimal form when rendered into the metadata URI.
