/**
 * The records the grid page handles, as values.
 */
module Entities {
  import opened JsValues

  /**
   * A mint record from the indexer. Own mints (the `mints` query) carry the
   * id of their collection; an ancestor's mints (the `mint` field of the
   * `collection` query) select only `id` and `tokenId`, so `collection` is None.
   * The token id is kept as the number `Number(tokenId)` the page indexes with.
   */
  datatype Mint = Mint(id: string, tokenId: nat, collection: Option<string>)

  /**
   * One entry of the resolved grid: the mint record spread into it, the
   * owner written beside it and the metadata URI. The owner is None in
   * entries written by a local edit, which carry no owner, and in own-mint
   * entries written while no wallet address is connected.
   */
  datatype Slot = Slot(record: Mint, owner: Option<string>, meta: string)

  /** The `collection` query's answer for one ancestor. */
  datatype Record = Record(
    id: string,
    parent: Option<string>,
    baseUrl: string,
    mint: seq<Mint>,
    name: string,
    owner: string)

  /**
   * The page's `data` state: `{}` before the chain reads arrive, then
   * `{name, sym, M, N, owner, parent, minted, baseURI}`. The dimensions are
   * stored as the decimal strings `.toString()` produced.
   */
  datatype CollectionData = CollectionData(
    name: Option<string>,
    sym: Option<string>,
    M: Option<string>,
    N: Option<string>,
    owner: Option<string>,
    parent: Option<string>,
    minted: Option<nat>,
    baseURI: Option<string>)

  /** `{}`: every field undefined. */
  const Unloaded := CollectionData(None, None, None, None, None, None, None, None)

  /** The record `setData` stores once the contract reads have returned. */
  function Loaded(name: string, sym: string, m: nat, n: nat, owner: string,
                  parent: string, minted: nat, baseURI: string): CollectionData
  {
    CollectionData(Some(name), Some(sym), Some(Decimal(m)), Some(Decimal(n)),
                   Some(owner), Some(parent), Some(minted), Some(baseURI))
  }

  /** `${base}/${tokenId}.json` */
  function MetaUri(base: string, tokenId: nat): string
  {
    base + "/" + Decimal(tokenId) + ".json"
  }

  /** Within one base URI, the metadata URI determines the token id. */
  lemma MetaUriInjective(base: string, t1: nat, t2: nat)
    requires MetaUri(base, t1) == MetaUri(base, t2)
    ensures t1 == t2
  {
    var u, d1, d2 := MetaUri(base, t1), Decimal(t1), Decimal(t2);
    assert |d1| == |u| - |base| - 6 == |d2|;
    assert u == base + "/" + d1 + ".json" == base + "/" + d2 + ".json";
    assert d1 == u[|base| + 1..|u| - 5] == d2;
    ParseDecimalOfDecimal(t1);
    ParseDecimalOfDecimal(t2);
  }

  /** Every token id of `ms` is an offset into an array of `size` entries. */
  predicate InRange(ms: seq<Mint>, size: nat)
  {
    forall j :: 0 <= j < |ms| ==> ms[j].tokenId < size
  }

  predicate AllInRange(ancestors: seq<Record>, size: nat)
  {
    forall a :: 0 <= a < |ancestors| ==> InRange(ancestors[a].mint, size)
  }
}
