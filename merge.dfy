/**
 * The merge at the end of `fetchParent`: allocate `N*M` empty entries, write
 * every own mint, then walk the ancestor accumulator from its end (the
 * `reverse()` before the `map`) and write each ancestor mint only into an
 * entry that is still empty.
 *
 * The write order is specified by three folds (ApplyOwn, FillMints,
 * FillAncestors) that the method MergeMints is proved to compute; the
 * lemmas then characterise each entry of the result independently of that
 * order: the last own mint of a slot wins, ancestors never overwrite, and
 * among ancestors the one latest in the accumulator (the farthest one
 * reached) wins, with its first mint of that slot.
 *
 * Evident reading: the ancestor loop reads `op.mints` while the query
 * selects the field `mint`; the model takes the ancestor's `mint` list.
 */
module MintMerge {
  import opened JsValues
  import opened Entities

  /** The entry an own mint gets: the connected address and the page's own base URI. */
  function OwnSlot(address: Option<string>, baseURI: Option<string>, m: Mint): Slot
  {
    Slot(m, address, MetaUri(Template(baseURI), m.tokenId))
  }

  /** The entry an ancestor mint gets: the ancestor's owner and base URL. */
  function AncestorSlot(rec: Record, m: Mint): Slot
  {
    Slot(m, Some(rec.owner), MetaUri(rec.baseUrl, m.tokenId))
  }

  /** `Array.from({length: size})`: every entry undefined. */
  function Empty(size: nat): (s: seq<Option<Slot>>)
    ensures |s| == size && forall i :: 0 <= i < size ==> s[i] == None
  {
    seq(size, _ => None)
  }

  /** The own-mint loop: each mint, in list order, overwrites its slot. */
  function ApplyOwn(s: seq<Option<Slot>>, own: seq<Mint>, address: Option<string>,
                    baseURI: Option<string>): (r: seq<Option<Slot>>)
    requires InRange(own, |s|)
    ensures |r| == |s|
    decreases |own|
  {
    if own == [] then s
    else ApplyOwn(s[own[0].tokenId := Some(OwnSlot(address, baseURI, own[0]))], own[1..], address, baseURI)
  }

  /** The loop over one ancestor's mints: each mint, in list order, fills its slot if empty. */
  function FillMints(s: seq<Option<Slot>>, rec: Record, ms: seq<Mint>): (r: seq<Option<Slot>>)
    requires InRange(ms, |s|)
    ensures |r| == |s|
    decreases |ms|
  {
    if ms == [] then s
    else
      var t := ms[0].tokenId;
      FillMints(if s[t] == None then s[t := Some(AncestorSlot(rec, ms[0]))] else s, rec, ms[1..])
  }

  /** The ancestor loop: the last ancestor of the accumulator first, the first one last. */
  function FillAncestors(s: seq<Option<Slot>>, ancestors: seq<Record>): (r: seq<Option<Slot>>)
    requires AllInRange(ancestors, |s|)
    ensures |r| == |s|
    decreases |ancestors|
  {
    if ancestors == [] then s
    else
      var last := ancestors[|ancestors| - 1];
      assert InRange(last.mint, |s|);
      FillAncestors(FillMints(s, last, last.mint), ancestors[..|ancestors| - 1])
  }

  /** The whole merge as a value: own mints over an empty grid, then ancestors. */
  function Merged(size: nat, address: Option<string>, baseURI: Option<string>,
                  own: seq<Mint>, ancestors: seq<Record>): (r: seq<Option<Slot>>)
    requires InRange(own, size) && AllInRange(ancestors, size)
    ensures |r| == size
  {
    FillAncestors(ApplyOwn(Empty(size), own, address, baseURI), ancestors)
  }

  /** The own-mint loop, in place. */
  method WriteOwnMints(slots: array<Option<Slot>>, own: seq<Mint>, address: Option<string>,
                       baseURI: Option<string>)
    requires InRange(own, slots.Length)
    modifies slots
    ensures slots[..] == ApplyOwn(old(slots[..]), own, address, baseURI)
  {
    var j := 0;
    while j < |own|
      invariant 0 <= j <= |own|
      invariant ApplyOwn(slots[..], own[j..], address, baseURI) == ApplyOwn(old(slots[..]), own, address, baseURI)
    {
      assert own[j..][1..] == own[j + 1..];
      slots[own[j].tokenId] := Some(OwnSlot(address, baseURI, own[j]));
      j := j + 1;
    }
    assert own[j..] == [];
  }

  /** The loop over one ancestor's mints, in place: fill each claimed slot that is still empty. */
  method FillFromAncestor(slots: array<Option<Slot>>, op: Record)
    requires InRange(op.mint, slots.Length)
    modifies slots
    ensures slots[..] == FillMints(old(slots[..]), op, op.mint)
  {
    var i := 0;
    while i < |op.mint|
      invariant 0 <= i <= |op.mint|
      invariant FillMints(slots[..], op, op.mint[i..]) == FillMints(old(slots[..]), op, op.mint)
    {
      var mint := op.mint[i];
      assert op.mint[i..][1..] == op.mint[i + 1..];
      if slots[mint.tokenId] == None {
        slots[mint.tokenId] := Some(AncestorSlot(op, mint));
      }
      i := i + 1;
    }
    assert op.mint[i..] == [];
  }

  /**
   * The merge block. Token ids must index the grid: the source neither
   * skips nor reports an id out of range (a JavaScript array would grow).
   * The length must be one a JavaScript array can have; a larger one makes
   * `Array.from` throw, which the caller handles (GridSession.Resolve).
   * The result is a new array equal to the merge value above.
   */
  method MergeMints(n: nat, m: nat, address: Option<string>, baseURI: Option<string>,
                    own: seq<Mint>, ancestors: seq<Record>) returns (slots: array<Option<Slot>>)
    requires InRange(own, n * m) && AllInRange(ancestors, n * m)
    requires n * m <= 0xFFFF_FFFF
    ensures fresh(slots)
    ensures slots[..] == Merged(n * m, address, baseURI, own, ancestors)
  {
    var size := n * m;
    slots := new Option<Slot>[size](_ => None);
    assert slots[..] == Empty(size);
    WriteOwnMints(slots, own, address, baseURI);
    assert ancestors[..|ancestors|] == ancestors;
    // `reverse()` also reverses the accumulator in place; only this loop reads it.
    var k := |ancestors|;
    while k > 0
      invariant 0 <= k <= |ancestors|
      invariant slots.Length == size
      invariant FillAncestors(slots[..], ancestors[..k]) == Merged(size, address, baseURI, own, ancestors)
    {
      k := k - 1;
      assert ancestors[..k + 1][..k] == ancestors[..k] && ancestors[..k + 1][k] == ancestors[k];
      assert InRange(ancestors[k].mint, size);
      FillFromAncestor(slots, ancestors[k]);
    }
  }

  // ----- own mints -----

  /** A slot no own mint claims keeps what it had. */
  lemma {:induction false} ApplyOwnUnclaimed(s: seq<Option<Slot>>, own: seq<Mint>, address: Option<string>,
                                             baseURI: Option<string>, i: nat)
    requires InRange(own, |s|) && i < |s|
    requires forall j :: 0 <= j < |own| ==> own[j].tokenId != i
    ensures ApplyOwn(s, own, address, baseURI)[i] == s[i]
    decreases |own|
  {
    if own != [] {
      var s' := s[own[0].tokenId := Some(OwnSlot(address, baseURI, own[0]))];
      ApplyOwnUnclaimed(s', own[1..], address, baseURI, i);
    }
  }

  /** The last own mint of a slot decides it. */
  lemma {:induction false} ApplyOwnLastWins(s: seq<Option<Slot>>, own: seq<Mint>, address: Option<string>,
                                            baseURI: Option<string>, j: nat)
    requires InRange(own, |s|) && j < |own|
    requires forall j' :: j < j' < |own| ==> own[j'].tokenId != own[j].tokenId
    ensures ApplyOwn(s, own, address, baseURI)[own[j].tokenId] == Some(OwnSlot(address, baseURI, own[j]))
    decreases |own|
  {
    var s' := s[own[0].tokenId := Some(OwnSlot(address, baseURI, own[0]))];
    if j == 0 {
      ApplyOwnUnclaimed(s', own[1..], address, baseURI, own[0].tokenId);
    } else {
      ApplyOwnLastWins(s', own[1..], address, baseURI, j - 1);
    }
  }

  /** A slot some own mint claims is filled. */
  lemma {:induction false} ApplyOwnFills(s: seq<Option<Slot>>, own: seq<Mint>, address: Option<string>,
                                         baseURI: Option<string>, j: nat)
    requires InRange(own, |s|) && j < |own|
    ensures ApplyOwn(s, own, address, baseURI)[own[j].tokenId] != None
    decreases |own| - j
  {
    var t := own[j].tokenId;
    if forall j' :: j < j' < |own| ==> own[j'].tokenId != t {
      ApplyOwnLastWins(s, own, address, baseURI, j);
    } else {
      var j' :| j < j' < |own| && own[j'].tokenId == t;
      ApplyOwnFills(s, own, address, baseURI, j');
    }
  }

  // ----- one ancestor's mints -----

  /** Fill-if-empty never changes a filled slot. */
  lemma {:induction false} FillMintsKeepsFilled(s: seq<Option<Slot>>, rec: Record, ms: seq<Mint>, i: nat)
    requires InRange(ms, |s|) && i < |s| && s[i] != None
    ensures FillMints(s, rec, ms)[i] == s[i]
    decreases |ms|
  {
    if ms != [] {
      var t := ms[0].tokenId;
      FillMintsKeepsFilled(if s[t] == None then s[t := Some(AncestorSlot(rec, ms[0]))] else s, rec, ms[1..], i);
    }
  }

  /** A slot none of the mints claims keeps what it had. */
  lemma {:induction false} FillMintsUnclaimed(s: seq<Option<Slot>>, rec: Record, ms: seq<Mint>, i: nat)
    requires InRange(ms, |s|) && i < |s|
    requires forall j :: 0 <= j < |ms| ==> ms[j].tokenId != i
    ensures FillMints(s, rec, ms)[i] == s[i]
    decreases |ms|
  {
    if ms != [] {
      var t := ms[0].tokenId;
      FillMintsUnclaimed(if s[t] == None then s[t := Some(AncestorSlot(rec, ms[0]))] else s, rec, ms[1..], i);
    }
  }

  /** An empty slot goes to the first of the mints that claims it. */
  lemma {:induction false} FillMintsFirstWins(s: seq<Option<Slot>>, rec: Record, ms: seq<Mint>, j: nat)
    requires InRange(ms, |s|) && j < |ms| && s[ms[j].tokenId] == None
    requires forall j' :: 0 <= j' < j ==> ms[j'].tokenId != ms[j].tokenId
    ensures FillMints(s, rec, ms)[ms[j].tokenId] == Some(AncestorSlot(rec, ms[j]))
    decreases |ms|
  {
    var t := ms[0].tokenId;
    var s' := if s[t] == None then s[t := Some(AncestorSlot(rec, ms[0]))] else s;
    if j == 0 {
      FillMintsKeepsFilled(s', rec, ms[1..], t);
    } else {
      FillMintsFirstWins(s', rec, ms[1..], j - 1);
    }
  }

  /** A slot some mint claims is filled afterwards. */
  lemma {:induction false} FillMintsFills(s: seq<Option<Slot>>, rec: Record, ms: seq<Mint>, j: nat)
    requires InRange(ms, |s|) && j < |ms|
    ensures FillMints(s, rec, ms)[ms[j].tokenId] != None
    decreases |ms|
  {
    var t := ms[0].tokenId;
    var s' := if s[t] == None then s[t := Some(AncestorSlot(rec, ms[0]))] else s;
    if j == 0 {
      FillMintsKeepsFilled(s', rec, ms[1..], t);
    } else {
      FillMintsFills(s', rec, ms[1..], j - 1);
    }
  }

  // ----- all ancestors -----

  /** Ancestors never overwrite a filled slot. */
  lemma {:induction false} FillAncestorsKeepsFilled(s: seq<Option<Slot>>, ancestors: seq<Record>, i: nat)
    requires AllInRange(ancestors, |s|) && i < |s| && s[i] != None
    ensures FillAncestors(s, ancestors)[i] == s[i]
    decreases |ancestors|
  {
    if ancestors != [] {
      var last := ancestors[|ancestors| - 1];
      assert InRange(last.mint, |s|);
      FillMintsKeepsFilled(s, last, last.mint, i);
      FillAncestorsKeepsFilled(FillMints(s, last, last.mint), ancestors[..|ancestors| - 1], i);
    }
  }

  /** No ancestor mint claims slot i. */
  predicate NoAncestorClaims(ancestors: seq<Record>, i: nat)
  {
    forall a, j :: 0 <= a < |ancestors| && 0 <= j < |ancestors[a].mint| ==> ancestors[a].mint[j].tokenId != i
  }

  /** A slot no ancestor claims keeps what it had. */
  lemma {:induction false} FillAncestorsUnclaimed(s: seq<Option<Slot>>, ancestors: seq<Record>, i: nat)
    requires AllInRange(ancestors, |s|) && i < |s|
    requires NoAncestorClaims(ancestors, i)
    ensures FillAncestors(s, ancestors)[i] == s[i]
    decreases |ancestors|
  {
    if ancestors != [] {
      var n := |ancestors| - 1;
      var last := ancestors[n];
      assert InRange(last.mint, |s|);
      FillMintsUnclaimed(s, last, last.mint, i);
      FillAncestorsUnclaimed(FillMints(s, last, last.mint), ancestors[..n], i);
    }
  }

  /**
   * An empty slot goes to the ancestor latest in the accumulator among those
   * that claim it, with that ancestor's first mint of the slot.
   */
  lemma {:induction false} FillAncestorsLatestWins(s: seq<Option<Slot>>, ancestors: seq<Record>, a: nat, j: nat)
    requires AllInRange(ancestors, |s|) && a < |ancestors| && j < |ancestors[a].mint|
    requires s[ancestors[a].mint[j].tokenId] == None
    requires forall j' :: 0 <= j' < j ==> ancestors[a].mint[j'].tokenId != ancestors[a].mint[j].tokenId
    requires NoAncestorClaims(ancestors[a + 1..], ancestors[a].mint[j].tokenId)
    ensures FillAncestors(s, ancestors)[ancestors[a].mint[j].tokenId] == Some(AncestorSlot(ancestors[a], ancestors[a].mint[j]))
    decreases |ancestors|
  {
    var n := |ancestors| - 1;
    var last := ancestors[n];
    var t := ancestors[a].mint[j].tokenId;
    assert InRange(last.mint, |s|);
    var s' := FillMints(s, last, last.mint);
    if a == n {
      FillMintsFirstWins(s, last, last.mint, j);
      FillAncestorsKeepsFilled(s', ancestors[..n], t);
    } else {
      assert ancestors[a + 1..][n - a - 1] == last;
      FillMintsUnclaimed(s, last, last.mint, t);
      var prefix := ancestors[..n];
      assert prefix[a] == ancestors[a];
      var tail, farther := prefix[a + 1..], ancestors[a + 1..];
      assert NoAncestorClaims(tail, t) by {
        forall b, k | 0 <= b < |tail| && 0 <= k < |tail[b].mint|
          ensures tail[b].mint[k].tokenId != t
        {
          assert tail[b] == farther[b];
        }
      }
      FillAncestorsLatestWins(s', prefix, a, j);
    }
  }

  /** A slot some ancestor mint claims is filled afterwards. */
  lemma {:induction false} FillAncestorsFills(s: seq<Option<Slot>>, ancestors: seq<Record>, a: nat, j: nat)
    requires AllInRange(ancestors, |s|) && a < |ancestors| && j < |ancestors[a].mint|
    ensures FillAncestors(s, ancestors)[ancestors[a].mint[j].tokenId] != None
    decreases |ancestors|
  {
    var n := |ancestors| - 1;
    var last := ancestors[n];
    var t := ancestors[a].mint[j].tokenId;
    assert InRange(last.mint, |s|);
    var s' := FillMints(s, last, last.mint);
    if a == n {
      FillMintsFills(s, last, last.mint, j);
      FillAncestorsKeepsFilled(s', ancestors[..n], t);
    } else {
      assert ancestors[..n][a] == ancestors[a];
      FillAncestorsFills(s', ancestors[..n], a, j);
    }
  }

  // ----- the merged grid -----

  /**
   * An own mint that is the last own mint of its slot decides that slot,
   * whatever the ancestors hold.
   */
  lemma OwnMintWins(size: nat, address: Option<string>, baseURI: Option<string>,
                    own: seq<Mint>, ancestors: seq<Record>, j: nat)
    requires InRange(own, size) && AllInRange(ancestors, size) && j < |own|
    requires forall j' :: j < j' < |own| ==> own[j'].tokenId != own[j].tokenId
    ensures Merged(size, address, baseURI, own, ancestors)[own[j].tokenId]
              == Some(Slot(own[j], address, MetaUri(Template(baseURI), own[j].tokenId)))
  {
    var s := ApplyOwn(Empty(size), own, address, baseURI);
    ApplyOwnLastWins(Empty(size), own, address, baseURI, j);
    FillAncestorsKeepsFilled(s, ancestors, own[j].tokenId);
  }

  /**
   * A slot no own mint claims goes to the ancestor latest in the accumulator
   * that claims it (the farthest one reached, not the nearest), with that
   * ancestor's owner and base URL.
   */
  lemma LatestAncestorWins(size: nat, address: Option<string>, baseURI: Option<string>,
                           own: seq<Mint>, ancestors: seq<Record>, a: nat, j: nat)
    requires InRange(own, size) && AllInRange(ancestors, size)
    requires a < |ancestors| && j < |ancestors[a].mint|
    requires forall k :: 0 <= k < |own| ==> own[k].tokenId != ancestors[a].mint[j].tokenId
    requires forall j' :: 0 <= j' < j ==> ancestors[a].mint[j'].tokenId != ancestors[a].mint[j].tokenId
    requires NoAncestorClaims(ancestors[a + 1..], ancestors[a].mint[j].tokenId)
    ensures Merged(size, address, baseURI, own, ancestors)[ancestors[a].mint[j].tokenId]
              == Some(Slot(ancestors[a].mint[j], Some(ancestors[a].owner),
                           MetaUri(ancestors[a].baseUrl, ancestors[a].mint[j].tokenId)))
  {
    var t := ancestors[a].mint[j].tokenId;
    assert InRange(ancestors[a].mint, size);
    ApplyOwnUnclaimed(Empty(size), own, address, baseURI, t);
    FillAncestorsLatestWins(ApplyOwn(Empty(size), own, address, baseURI), ancestors, a, j);
  }

  /**
   * A slot is filled exactly when some own mint or some ancestor mint
   * claims it; a slot nobody claims stays undefined.
   */
  lemma FilledIffClaimed(size: nat, address: Option<string>, baseURI: Option<string>,
                         own: seq<Mint>, ancestors: seq<Record>, i: nat)
    requires InRange(own, size) && AllInRange(ancestors, size) && i < size
    ensures Merged(size, address, baseURI, own, ancestors)[i] != None
            <==> (exists j :: 0 <= j < |own| && own[j].tokenId == i) || !NoAncestorClaims(ancestors, i)
  {
    var s := ApplyOwn(Empty(size), own, address, baseURI);
    if j :| 0 <= j < |own| && own[j].tokenId == i {
      ApplyOwnFills(Empty(size), own, address, baseURI, j);
      FillAncestorsKeepsFilled(s, ancestors, i);
    } else if !NoAncestorClaims(ancestors, i) {
      var a, j :| 0 <= a < |ancestors| && 0 <= j < |ancestors[a].mint| && ancestors[a].mint[j].tokenId == i;
      FillAncestorsFills(s, ancestors, a, j);
    } else {
      ApplyOwnUnclaimed(Empty(size), own, address, baseURI, i);
      FillAncestorsUnclaimed(s, ancestors, i);
    }
  }
}
