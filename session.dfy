/**
 * The grid page's orchestration around the walk and the merge: the gate
 * that starts a resolution, the resolution itself (walk, then merge when
 * the walk finished), the base-URI setup, and the local edit of one entry.
 */
module GridSession {
  import opened JsValues
  import opened Entities
  import opened AncestorWalk
  import opened MintMerge

  // ----- readiness gate -----

  /** `data.N && data.M && currentMintLoaded` */
  predicate Ready(data: CollectionData, mintsLoaded: bool)
    ensures Ready(data, mintsLoaded) ==> mintsLoaded && data.N.Some? && data.M.Some?
  {
    Truthy(data.N) && Truthy(data.M) && mintsLoaded
  }

  /** Before the contract reads arrive (`data` is `{}`) no resolution starts. */
  lemma GateClosedBeforeLoad(mintsLoaded: bool)
    ensures !Ready(Unloaded, mintsLoaded)
  {
  }

  /**
   * Once the contract reads are stored, the gate opens exactly when the own
   * mints have loaded; the dimensions are decimal strings, never empty, so
   * even a zero dimension ("0") passes.
   */
  lemma GateOpensOnceLoaded(name: string, sym: string, m: nat, n: nat, owner: string,
                            parent: string, minted: nat, baseURI: string, mintsLoaded: bool)
    ensures Ready(Loaded(name, sym, m, n, owner, parent, minted, baseURI), mintsLoaded) <==> mintsLoaded
  {
  }

  /** `Number(data.N) * Number(data.M)` */
  function GridSize(data: CollectionData): nat
    requires data.N.Some? && IsDigits(data.N.value)
    requires data.M.Some? && IsDigits(data.M.value)
  {
    ParseDecimal(data.N.value) * ParseDecimal(data.M.value)
  }

  /** The grid of a loaded record has the contract's N times M entries. */
  lemma LoadedGridSize(name: string, sym: string, m: nat, n: nat, owner: string,
                       parent: string, minted: nat, baseURI: string)
    ensures GridSize(Loaded(name, sym, m, n, owner, parent, minted, baseURI)) == n * m
  {
    ParseDecimalOfDecimal(m);
    ParseDecimalOfDecimal(n);
  }

  // ----- one resolution -----

  /**
   * The largest length `Array.from({length})` accepts; a larger length
   * throws a RangeError, which the `.catch` of the walk only logs.
   * `Number(N) * Number(M)` is a double, but a product below this bound is
   * exact and a product at or above it stays at or above it, so comparing
   * the exact product decides the same way.
   */
  const MaxArrayLength: nat := 0xFFFF_FFFF

  /**
   * The dimensions parse and, when the grid is small enough for `Array.from`
   * to build it, every token id the merge would write indexes the grid.
   */
  predicate Resolvable(data: CollectionData, index: Indexer, fuel: nat, own: seq<Mint>)
  {
    data.N.Some? && IsDigits(data.N.value) && data.M.Some? && IsDigits(data.M.value) &&
    (GridSize(data) <= MaxArrayLength ==>
       InRange(own, GridSize(data)) &&
       AllInRange(WalkFrom(index, data.parent, [], fuel).ancestors, GridSize(data)))
  }

  /**
   * The effect that fires on a change of N, M, parent or the loaded flag:
   * if the gate is open, walk from the collection's parent with an empty
   * accumulator and, when the walk finishes, publish the merged grid. A
   * closed gate, a rejected request, a walk that never ends or a grid too
   * large for a JavaScript array publishes nothing. Token ids need to index
   * the grid only when a merge actually runs: the gate is open, the walk
   * finished and `Array.from` accepted the length.
   */
  method Resolve(data: CollectionData, mintsLoaded: bool, index: Indexer, fuel: nat,
                 address: Option<string>, own: seq<Mint>) returns (published: Option<array<Option<Slot>>>)
    requires Ready(data, mintsLoaded) && WalkFrom(index, data.parent, [], fuel).end == Finished
             ==> Resolvable(data, index, fuel, own)
    ensures published.Some? <==> Ready(data, mintsLoaded) && WalkFrom(index, data.parent, [], fuel).end == Finished
                                 && GridSize(data) <= MaxArrayLength
    ensures published.Some? ==>
              published.value[..] == Merged(GridSize(data), address, data.baseURI, own,
                                            WalkFrom(index, data.parent, [], fuel).ancestors)
  {
    if !Ready(data, mintsLoaded) {
      return None;
    }
    var walk := WalkFrom(index, data.parent, [], fuel);
    if walk.end != Finished || GridSize(data) > MaxArrayLength {
      return None;
    }
    var slots := MergeMints(ParseDecimal(data.N.value), ParseDecimal(data.M.value),
                            address, data.baseURI, own, walk.ancestors);
    published := Some(slots);
  }

  /**
   * A collection whose parent id is unknown to the indexer (a root) makes
   * one query, finds no ancestors, and is resolved from its own mints alone.
   */
  lemma RootResolvesOwnMintsOnly(data: CollectionData, index: Indexer, fuel: nat,
                                 address: Option<string>, own: seq<Mint>)
    requires Resolvable(data, index, fuel, own) && GridSize(data) <= MaxArrayLength && fuel > 0
    requires QueryKey(data.parent) !in index
    ensures WalkFrom(index, data.parent, [], fuel) == Walk([], [QueryKey(data.parent)], Finished)
    ensures Merged(GridSize(data), address, data.baseURI, own, WalkFrom(index, data.parent, [], fuel).ancestors)
              == ApplyOwn(Empty(GridSize(data)), own, address, data.baseURI)
  {
  }

  // ----- base-URI setup -----

  const BucketRoot: string := "https://eth-india.s3.ap-south-1.amazonaws.com/"

  /** The base URI the setup submits for a wallet address and a collection id. */
  function SetupUri(address: string, collectionId: string): (u: string)
    ensures |u| == |BucketRoot| + |address| + 1 + |collectionId|
    ensures u[..|BucketRoot|] == BucketRoot
    ensures u[|BucketRoot|..|BucketRoot| + |address|] == address
    ensures u[|BucketRoot| + |address|] == '/'
    ensures u[|BucketRoot| + |address| + 1..] == collectionId
  {
    BucketRoot + address + "/" + collectionId
  }

  /**
   * Distinct (address, collection) pairs get distinct base URIs, as long as
   * the address holds no '/' (an Ethereum address never does).
   */
  lemma SetupUriInjective(a1: string, c1: string, a2: string, c2: string)
    requires '/' !in a1 && '/' !in a2
    requires SetupUri(a1, c1) == SetupUri(a2, c2)
    ensures a1 == a2 && c1 == c2
  {
  }

  /**
   * `handleCompleteSetup`: with no collection id nothing happens; otherwise
   * the URI is submitted and, only if the transaction succeeds, `data`
   * becomes the old record with its `baseURI` replaced.
   */
  function CompleteSetup(data: CollectionData, address: string, collectionId: string,
                         txSucceeded: bool): (r: CollectionData)
    ensures r.(baseURI := data.baseURI) == data
    ensures collectionId != "" && txSucceeded ==> r.baseURI == Some(BucketRoot + address + "/" + collectionId)
    ensures collectionId == "" || !txSucceeded ==> r == data
  {
    if collectionId == "" || !txSucceeded then data
    else data.(baseURI := Some(SetupUri(address, collectionId)))
  }

  // ----- local edit of one entry -----

  /** `{id: index.toString(), tokenId: index.toString(), meta}`: no owner, no collection. */
  function EditedSlot(index: nat, meta: string): Slot
  {
    Slot(Mint(Decimal(index), index, None), None, meta)
  }

  /**
   * `setMintDetails(index, meta)`: overwrite one entry in place; every other
   * entry and the length stay as they were.
   */
  method SetMintDetails(slots: array<Option<Slot>>, index: nat, meta: string)
    requires index < slots.Length
    modifies slots
    ensures slots[..] == old(slots[..])[index := Some(EditedSlot(index, meta))]
    ensures slots[index] == Some(Slot(Mint(Decimal(index), index, None), None, meta))
    ensures forall i :: 0 <= i < slots.Length && i != index ==> slots[i] == old(slots[i])
  {
    slots[index] := Some(EditedSlot(index, meta));
  }
}
