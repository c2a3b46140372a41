/**
 * The client-side asset store (app/store/AssetsStore.tsx): one array of
 * assets and the mutators that add, remove, resize, move and restack tiles.
 *
 * Each mutator hands the store a new array built from the old one with
 * spread, `map` or `filter`; those array expressions are the functions
 * `AddedAssets`, `RemovedAssets`, `WithSize`, `WithPosition` and `Raised`
 * below, and class `Store` applies them to its `assets` field. The fresh id
 * that `uuid()` returns and the pathname that `new URL(...)` parses are
 * parameters of `AddAsset`.
 */
module AssetsStore {
  import opened Interfaces
  import opened Text
  import opened JsArray

  /** `assets.some(a => a.url === url)` */
  predicate HasUrl(s: seq<Asset>, url: string)
  {
    exists i :: 0 <= i < |s| && s[i].url == url
  }

  /** No two assets share a URL. */
  ghost predicate UniqueUrls(s: seq<Asset>)
  {
    forall i, j :: 0 <= i < j < |s| ==> s[i].url != s[j].url
  }

  /** No two assets share an id. */
  ghost predicate UniqueIds(s: seq<Asset>)
  {
    forall i, j :: 0 <= i < j < |s| ==> s[i].id != s[j].id
  }

  /** No two assets share a `zIndex`. */
  ghost predicate DistinctZ(s: seq<Asset>)
  {
    forall i, j :: 0 <= i < j < |s| ==> s[i].zIndex != s[j].zIndex
  }

  /**
   * The dense z-order: the `zIndex` values of the n assets are a permutation
   * of 0..n-1, that is n distinct values, each in [0, n).
   */
  ghost predicate DenseZ(s: seq<Asset>)
  {
    && (forall i :: 0 <= i < |s| ==> 0 <= s[i].zIndex < |s|)
    && DistinctZ(s)
  }

  /** The URLs on the board. */
  ghost function UrlSet(s: seq<Asset>): set<string>
  {
    set i | 0 <= i < |s| :: s[i].url
  }

  /** The `some` test on URLs is membership in the board's set of URLs. */
  lemma {:induction false} HasUrlIsUrlSetMember(s: seq<Asset>, url: string)
    ensures HasUrl(s, url) <==> url in UrlSet(s)
  {
    if url in UrlSet(s) {
      var i :| 0 <= i < |s| && s[i].url == url;
    }
  }

  // ---------------------------------------------------------------------------
  // Lookups (`find`)
  // ---------------------------------------------------------------------------

  /** Position of the first asset whose id is `id` (`find(a => a.id === id)`). */
  function IndexOfId(s: seq<Asset>, id: string): (r: Option<nat>)
    ensures r.Some? ==> r.value < |s| && s[r.value].id == id
    ensures r.Some? ==> forall j :: 0 <= j < r.value ==> s[j].id != id
    ensures r.None? <==> forall j :: 0 <= j < |s| ==> s[j].id != id
  {
    FindIndex(s, (a: Asset) => a.id == id)
  }

  /** Position of the first asset whose URL is `url` (`find(a => a.url === url)`). */
  function IndexOfUrl(s: seq<Asset>, url: string): (r: Option<nat>)
    ensures r.Some? ==> r.value < |s| && s[r.value].url == url
    ensures r.Some? ==> forall j :: 0 <= j < r.value ==> s[j].url != url
    ensures r.None? <==> !HasUrl(s, url)
  {
    FindIndex(s, (a: Asset) => a.url == url)
  }

  // ---------------------------------------------------------------------------
  // addAsset
  // ---------------------------------------------------------------------------

  /** The object literal `addAsset` appends: a fresh tile of size 0 × 0 at (0, 0). */
  function CreatedAsset(basic: BasicAsset, id: string, pathname: string, zIndex: int): (a: Asset)
    ensures a.url == basic.url && a.assetType == basic.assetType && a.id == id && a.zIndex == zIndex
    ensures a.name == LastSegment(pathname) && '/' !in a.name
    ensures a.size == AssetSize(0.0, 0.0) && a.position == AssetPosition(0.0, 0.0)
    ensures && a.aspectRatio.None? && a.draggable.None? && a.playing.None? && a.progress.None?
            && a.duration.None? && a.borderDisabled.None? && a.frameAspectRatioUnlocked.None?
  {
    Asset(basic.url, basic.assetType, id, LastSegment(pathname), zIndex,
          AssetSize(0.0, 0.0), AssetPosition(0.0, 0.0),
          None, None, None, None, None, None, None)
  }

  /**
   * The array after `addAsset(basic)`, where `id` is what `uuid()` returned
   * and `pathname` is what `new URL(basic.url).pathname` gave (`None` when the
   * URL constructor throws, which aborts the call before `set`).
   */
  function AddedAssets(s: seq<Asset>, basic: BasicAsset, id: string, pathname: Option<string>): (r: seq<Asset>)
    ensures HasUrl(s, basic.url) ==> r == s
    ensures pathname.None? ==> r == s
    ensures !HasUrl(s, basic.url) && pathname.Some? ==>
      && |r| == |s| + 1 && r[..|s|] == s
      && r[|s|].url == basic.url && r[|s|].assetType == basic.assetType
      && r[|s|].id == id && r[|s|].name == LastSegment(pathname.value)
      && r[|s|].zIndex == |s|
      && r[|s|].size == AssetSize(0.0, 0.0) && r[|s|].position == AssetPosition(0.0, 0.0)
      && r[|s|].aspectRatio.None? && r[|s|].draggable.None? && r[|s|].playing.None?
      && r[|s|].progress.None? && r[|s|].duration.None? && r[|s|].borderDisabled.None?
      && r[|s|].frameAspectRatioUnlocked.None?
    ensures HasUrl(r, basic.url) || pathname.None?
  {
    if HasUrl(s, basic.url) || pathname.None? then s
    else
      var r := s + [CreatedAsset(basic, id, pathname.value, |s|)];
      assert r[|s|].url == basic.url;
      r
  }

  /** Adding never introduces a second asset with the same URL. */
  lemma {:induction false} AddKeepsUrlsUnique(s: seq<Asset>, basic: BasicAsset, id: string, pathname: Option<string>)
    requires UniqueUrls(s)
    ensures UniqueUrls(AddedAssets(s, basic, id, pathname))
  {
  }

  /** With a fresh id (what `uuid()` supplies), ids stay unique. */
  lemma {:induction false} AddKeepsIdsUnique(s: seq<Asset>, basic: BasicAsset, id: string, pathname: Option<string>)
    requires UniqueIds(s)
    requires forall i :: 0 <= i < |s| ==> s[i].id != id
    ensures UniqueIds(AddedAssets(s, basic, id, pathname))
  {
  }

  /** On a dense z-order, `zIndex = length` puts the new tile on top and keeps it dense. */
  lemma {:induction false} AddKeepsDenseZ(s: seq<Asset>, basic: BasicAsset, id: string, pathname: Option<string>)
    requires DenseZ(s)
    ensures DenseZ(AddedAssets(s, basic, id, pathname))
  {
  }

  /** The name of an added asset is the slash-free tail of its pathname. */
  lemma {:induction false} AddedNameIsLastPathSegment(s: seq<Asset>, basic: BasicAsset, id: string, pathname: string)
    requires !HasUrl(s, basic.url)
    ensures var r := AddedAssets(s, basic, id, Some(pathname));
      && '/' !in r[|s|].name
      && |r[|s|].name| <= |pathname|
      && r[|s|].name == pathname[|pathname| - |r[|s|].name|..]
      && (r[|s|].name == pathname || pathname[|pathname| - |r[|s|].name| - 1] == '/')
  {
    LastSegmentIsSuffix(pathname);
  }

  // ---------------------------------------------------------------------------
  // removeAssetByUrl
  // ---------------------------------------------------------------------------

  /** The array after `removeAssetByUrl(url)`: `filter(a => a.url !== url.trim())`. */
  function RemovedAssets(s: seq<Asset>, url: string): (r: seq<Asset>)
    ensures |r| <= |s|
    ensures !HasUrl(r, Trim(url))
  {
    Filter(s, (a: Asset) => a.url != Trim(url))
  }

  /**
   * Removal adds nothing and keeps every asset whose URL differs from the
   * trimmed argument.
   */
  lemma {:induction false} RemovedMembers(s: seq<Asset>, url: string)
    ensures forall i :: 0 <= i < |RemovedAssets(s, url)| ==> RemovedAssets(s, url)[i] in s
    ensures forall i :: 0 <= i < |s| && s[i].url != Trim(url) ==> s[i] in RemovedAssets(s, url)
  {
    FilterMembers(s, (a: Asset) => a.url != Trim(url));
  }

  /** Removing a URL that is not on the board leaves the array as it was. */
  lemma {:induction false} RemoveAbsentIsNoop(s: seq<Asset>, url: string)
    requires !HasUrl(s, Trim(url))
    ensures RemovedAssets(s, url) == s
  {
    FilterKeepsAll(s, (a: Asset) => a.url != Trim(url));
  }

  /** Removing the URL every asset carries empties the array. */
  lemma {:induction false} RemoveAllWithUrl(s: seq<Asset>, url: string)
    requires forall i :: 0 <= i < |s| ==> s[i].url == Trim(url)
    ensures RemovedAssets(s, url) == []
  {
    FilterDropsAll(s, (a: Asset) => a.url != Trim(url));
  }

  /** Removal keeps the survivors in their original order. */
  lemma {:induction false} RemoveKeepsOrder(a: seq<Asset>, b: seq<Asset>, url: string)
    ensures RemovedAssets(a + b, url) == RemovedAssets(a, url) + RemovedAssets(b, url)
  {
    FilterConcat(a, b, (x: Asset) => x.url != Trim(url));
  }

  /** Removal keeps URLs, ids and z-indices that were distinct distinct. */
  lemma {:induction false} RemoveKeepsDistinct(s: seq<Asset>, url: string)
    ensures UniqueUrls(s) ==> UniqueUrls(RemovedAssets(s, url))
    ensures UniqueIds(s) ==> UniqueIds(RemovedAssets(s, url))
    ensures DistinctZ(s) ==> DistinctZ(RemovedAssets(s, url))
  {
    var keep := (a: Asset) => a.url != Trim(url);
    if UniqueUrls(s) { FilterKeepsDistinct(s, keep, (a: Asset) => a.url); }
    if UniqueIds(s) { FilterKeepsDistinct(s, keep, (a: Asset) => a.id); }
    if DistinctZ(s) { FilterKeepsDistinct(s, keep, (a: Asset) => a.zIndex); }
  }

  // ---------------------------------------------------------------------------
  // setAssetSize / setAssetPosition
  // ---------------------------------------------------------------------------

  /** The array after `setAssetSize(id, width, height)`. */
  function WithSize(s: seq<Asset>, id: string, size: AssetSize): (r: seq<Asset>)
    ensures |r| == |s|
    ensures forall i :: 0 <= i < |s| ==> r[i] == s[i].(size := r[i].size)
    ensures forall i :: 0 <= i < |s| ==> r[i].size == (if s[i].id == id then size else s[i].size)
    ensures IndexOfId(s, id).None? ==> r == s
  {
    Map(s, (a: Asset) => if a.id == id then a.(size := size) else a)
  }

  /** The array after `setAssetPosition(id, x, y)`. */
  function WithPosition(s: seq<Asset>, id: string, position: AssetPosition): (r: seq<Asset>)
    ensures |r| == |s|
    ensures forall i :: 0 <= i < |s| ==> r[i] == s[i].(position := r[i].position)
    ensures forall i :: 0 <= i < |s| ==> r[i].position == (if s[i].id == id then position else s[i].position)
    ensures IndexOfId(s, id).None? ==> r == s
  {
    Map(s, (a: Asset) => if a.id == id then a.(position := position) else a)
  }

  /**
   * Resizing and moving touch different fields, so their order does not
   * matter (the resize-stop handler moves and then resizes).
   */
  lemma {:induction false} SizeAndPositionCommute(s: seq<Asset>, id: string, size: AssetSize, id': string, position: AssetPosition)
    ensures WithSize(WithPosition(s, id', position), id, size) == WithPosition(WithSize(s, id, size), id', position)
  {
  }

  // ---------------------------------------------------------------------------
  // setAssetZIndexToMaximal
  // ---------------------------------------------------------------------------

  /**
   * The new `zIndex` of an asset when the asset at z-index `current` is
   * brought to the front of `n` assets.
   */
  function ZAfterRaise(z: int, current: int, n: int): (r: int)
    ensures z == current ==> r == n - 1
    ensures z > current ==> r == z - 1
    ensures z < current ==> r == z
    ensures 0 <= z < n && 0 <= current < n ==> 0 <= r < n
  {
    if z > current then z - 1 else if z == current then n - 1 else z
  }

  /** The array after `setAssetZIndexToMaximal(url)`. */
  function Raised(s: seq<Asset>, url: string): (r: seq<Asset>)
    ensures |r| == |s|
    ensures forall i :: 0 <= i < |s| ==> r[i] == s[i].(zIndex := r[i].zIndex)
    ensures !HasUrl(s, Trim(url)) ==> r == s
  {
    match IndexOfUrl(s, Trim(url))
    case None => s
    case Some(t) =>
      var current := s[t].zIndex;
      Map(s, (a: Asset) => a.(zIndex := ZAfterRaise(a.zIndex, current, |s|)))
  }

  /**
   * What bringing the asset at position `t` (the first with the trimmed URL)
   * to the front does to every `zIndex`: it gets n - 1, those above it drop
   * by one and those below it stay.
   */
  lemma {:induction false} RaisedZIndices(s: seq<Asset>, url: string, t: nat)
    requires IndexOfUrl(s, Trim(url)) == Some(t)
    ensures Raised(s, url)[t].zIndex == |s| - 1
    ensures forall i :: 0 <= i < |s| && s[i].zIndex > s[t].zIndex ==>
      Raised(s, url)[i].zIndex == s[i].zIndex - 1
    ensures forall i :: 0 <= i < |s| && s[i].zIndex < s[t].zIndex ==>
      Raised(s, url)[i].zIndex == s[i].zIndex
    ensures forall i :: 0 <= i < |s| && s[i].zIndex == s[t].zIndex ==>
      Raised(s, url)[i].zIndex == |s| - 1
  {
  }

  /** On a dense z-order, bringing to front keeps the z-indices a permutation of 0..n-1. */
  lemma {:induction false} RaiseKeepsDenseZ(s: seq<Asset>, url: string)
    requires DenseZ(s)
    ensures DenseZ(Raised(s, url))
  {
    match IndexOfUrl(s, Trim(url))
    case None =>
    case Some(t) =>
      RenumberedIsDense(s, Raised(s, url), s[t].zIndex);
  }

  /** Renumbering a dense z-order by `ZAfterRaise` around `current` keeps it dense. */
  lemma {:induction false} RenumberedIsDense(s: seq<Asset>, r: seq<Asset>, current: int)
    requires DenseZ(s) && 0 <= current < |s| && |r| == |s|
    requires forall i :: 0 <= i < |s| ==> r[i].zIndex == ZAfterRaise(s[i].zIndex, current, |s|)
    ensures DenseZ(r)
  {
    forall i | 0 <= i < |r| ensures 0 <= r[i].zIndex < |r| {
      if s[i].zIndex != current {
        ZAfterRaiseInjective(s[i].zIndex, current, current, |s|);
      }
    }
    forall i, j | 0 <= i < j < |r| ensures r[i].zIndex != r[j].zIndex {
      ZAfterRaiseInjective(s[i].zIndex, s[j].zIndex, current, |s|);
    }
  }

  /** On [0, n), moving `current` to the top is a one-to-one renumbering within [0, n). */
  lemma {:induction false} ZAfterRaiseInjective(z1: int, z2: int, current: int, n: int)
    requires 0 <= z1 < n && 0 <= z2 < n && 0 <= current < n && z1 != z2
    ensures 0 <= ZAfterRaise(z1, current, n) < n
    ensures ZAfterRaise(z1, current, n) != ZAfterRaise(z2, current, n)
  {
  }

  /** On a dense z-order, the raised asset ends up strictly above every other one. */
  lemma {:induction false} RaiseBringsToFront(s: seq<Asset>, url: string, t: nat)
    requires DenseZ(s)
    requires IndexOfUrl(s, Trim(url)) == Some(t)
    ensures forall i :: 0 <= i < |s| && i != t ==> Raised(s, url)[i].zIndex < Raised(s, url)[t].zIndex
  {
    RaiseKeepsDenseZ(s, url);
    RaisedZIndices(s, url, t);
  }

  // ---------------------------------------------------------------------------
  // What removal does to the z-order
  // ---------------------------------------------------------------------------

  /** An image tile whose URL, id and name are all `url`, at z-index `zIndex`. */
  function Tile(url: string, zIndex: int): Asset
  {
    Asset(url, Image, url, url, zIndex, AssetSize(0.0, 0.0), AssetPosition(0.0, 0.0),
          None, None, None, None, None, None, None)
  }

  /** A dense board of two tiles: `a` at z-index 0 under `b` at z-index 1. */
  function TwoTiles(a: string, b: string): seq<Asset>
  {
    [Tile(a, 0), Tile(b, 1)]
  }

  /** Removing the bottom tile leaves the top one, still at z-index 1. */
  lemma {:induction false} RemoveBottomTile(a: string, b: string)
    requires Trim(a) == a && a != b
    ensures RemovedAssets(TwoTiles(a, b), a) == [Tile(b, 1)]
  {
    RemoveFirstOfPair(Tile(a, 0), Tile(b, 1), a);
  }

  /** Removing a URL that only the first of two assets carries leaves the second. */
  lemma {:induction false} RemoveFirstOfPair(x: Asset, y: Asset, url: string)
    requires x.url == Trim(url) && y.url != Trim(url)
    ensures RemovedAssets([x, y], url) == [y]
  {
    var keep := (a: Asset) => a.url != Trim(url);
    assert [x, y][1..] == [y];
    assert [y][1..] == [];
    assert Filter([y], keep) == [y];
    assert Filter([x, y], keep) == Filter([y], keep);
  }

  /**
   * Removal does not renumber: deleting the bottom tile of a dense board
   * leaves a single tile at z-index 1, so the order is no longer dense.
   */
  lemma {:induction false} RemoveCanBreakDenseZ(a: string, b: string)
    requires Trim(a) == a && a != b
    ensures DenseZ(TwoTiles(a, b))
    ensures !DenseZ(RemovedAssets(TwoTiles(a, b), a))
  {
    DenseZPair(Tile(a, 0), Tile(b, 1));
    RemoveBottomTile(a, b);
    NotDenseAlone(Tile(b, 1));
  }

  /** A lone asset at z-index 1 is not a dense z-order. */
  lemma {:induction false} NotDenseAlone(x: Asset)
    requires x.zIndex == 1
    ensures !DenseZ([x])
  {
    assert [x][0] == x;
  }

  /** Two assets at z-indices 0 and 1 form a dense z-order. */
  lemma {:induction false} DenseZPair(x: Asset, y: Asset)
    requires x.zIndex == 0 && y.zIndex == 1
    ensures DenseZ([x, y])
  {
    var s := [x, y];
    forall i | 0 <= i < |s| ensures 0 <= s[i].zIndex < |s| {
      if i == 0 { assert s[i] == x; } else { assert s[i] == y; }
    }
    forall i, j | 0 <= i < j < |s| ensures s[i].zIndex != s[j].zIndex {
      assert i == 0 && j == 1;
    }
  }

  /**
   * After that removal, `addAsset` puts the new tile at `zIndex = length`,
   * which is 1 again: two tiles now share a z-index.
   */
  lemma {:induction false} AddAfterRemoveCanDuplicateZ(a: string, b: string, c: string, pathname: string)
    requires Trim(a) == a && a != b && c != b
    ensures var r := AddedAssets(RemovedAssets(TwoTiles(a, b), a), BasicAsset(c, Image), c, Some(pathname));
      |r| == 2 && r[0].zIndex == r[1].zIndex == 1
  {
    RemoveBottomTile(a, b);
    AddToSingleTile(Tile(b, 1), BasicAsset(c, Image), c, pathname);
  }

  /** Adding a new URL next to a lone tile appends at z-index 1 and keeps the tile first. */
  lemma {:induction false} AddToSingleTile(x: Asset, basic: BasicAsset, id: string, pathname: string)
    requires x.url != basic.url
    ensures var r := AddedAssets([x], basic, id, Some(pathname));
      |r| == 2 && r[0] == x && r[1].zIndex == 1
  {
    assert !HasUrl([x], basic.url) by { assert [x][0] == x; }
    var r := AddedAssets([x], basic, id, Some(pathname));
    assert r[0] == r[..1][0];
  }

  /**
   * And bringing `b` to the front of that board gives it z-index n - 1 = 1,
   * no higher than the tile it was meant to cover.
   */
  lemma {:induction false} RaiseAfterRemoveCanTie(a: string, b: string, c: string, pathname: string)
    requires Trim(a) == a && Trim(b) == b && a != b && c != b
    ensures var s := AddedAssets(RemovedAssets(TwoTiles(a, b), a), BasicAsset(c, Image), c, Some(pathname));
      var r := Raised(s, b);
      |r| == 2 && r[0].url == b && r[0].zIndex == r[1].zIndex
  {
    RemoveBottomTile(a, b);
    AddToSingleTile(Tile(b, 1), BasicAsset(c, Image), c, pathname);
    var s := AddedAssets([Tile(b, 1)], BasicAsset(c, Image), c, Some(pathname));
    RaiseFirstOfTwo(s, b);
  }

  /** Raising the first of two tiles that share z-index 1 leaves them tied. */
  lemma {:induction false} RaiseFirstOfTwo(s: seq<Asset>, url: string)
    requires |s| == 2 && s[0].url == Trim(url) && s[0].zIndex == s[1].zIndex == 1
    ensures var r := Raised(s, url);
      |r| == 2 && r[0].url == s[0].url && r[0].zIndex == r[1].zIndex
  {
    assert IndexOfUrl(s, Trim(url)) == Some(0);
  }

  // ---------------------------------------------------------------------------
  // The store
  // ---------------------------------------------------------------------------

  /** The count of distinct URLs on a board without duplicate URLs is its length. */
  lemma {:induction false} UniqueUrlsCount(s: seq<Asset>)
    requires UniqueUrls(s)
    ensures |UrlSet(s)| == |s|
  {
    if s != [] {
      UniqueUrlsCount(s[1..]);
      assert UrlSet(s) == {s[0].url} + UrlSet(s[1..]) by {
        forall u | u in UrlSet(s) ensures u in {s[0].url} + UrlSet(s[1..]) {
          var i :| 0 <= i < |s| && s[i].url == u;
          if i > 0 { assert s[1..][i - 1].url == u; }
        }
      }
      assert s[0].url !in UrlSet(s[1..]);
    }
  }

  /** The zustand container: the `assets` array and its actions. */
  class Store {
    var assets: seq<Asset>

    /** Every reachable store has unique URLs and unique ids. */
    ghost predicate Valid()
      reads this
    {
      UniqueUrls(assets) && UniqueIds(assets)
    }

    /** The store starts with no assets. */
    constructor ()
      ensures Valid() && assets == []
    {
      assets := [];
    }

    /**
     * `addAsset`: a URL already on the board is ignored; otherwise the pathname
     * is parsed (`pathname == None` models the URL constructor throwing, so
     * nothing is stored and `threw` is set) and one tile is appended.
     */
    method AddAsset(basic: BasicAsset, id: string, pathname: Option<string>) returns (threw: bool)
      requires Valid()
      requires forall i :: 0 <= i < |assets| ==> assets[i].id != id
      modifies this
      ensures Valid()
      ensures assets == AddedAssets(old(assets), basic, id, pathname)
      ensures threw <==> !HasUrl(old(assets), basic.url) && pathname.None?
    {
      AddKeepsUrlsUnique(assets, basic, id, pathname);
      AddKeepsIdsUnique(assets, basic, id, pathname);
      threw := false;
      if HasUrl(assets, basic.url) {
        return;
      }
      if pathname.None? {
        threw := true;
        return;
      }
      assets := assets + [CreatedAsset(basic, id, pathname.value, |assets|)];
    }

    /** `removeAssetByUrl`: drops every asset whose URL is the trimmed argument. */
    method RemoveAssetByUrl(url: string)
      requires Valid()
      modifies this
      ensures Valid()
      ensures assets == RemovedAssets(old(assets), url)
    {
      RemoveKeepsDistinct(assets, url);
      assets := RemovedAssets(assets, url);
    }

    /** `getAssetsCount`: with URLs unique, the number of distinct URLs on the board. */
    function GetAssetsCount(): (n: nat)
      requires Valid()
      reads this
      ensures n == |assets|
      ensures n == |UrlSet(assets)|
    {
      UniqueUrlsCount(assets);
      |assets|
    }

    /** `getAssetById`: the asset with id `id`, if there is one. */
    function GetAssetById(id: string): (r: Option<Asset>)
      reads this
      ensures r.Some? ==> r.value in assets && r.value.id == id
      ensures r.Some? ==> exists i :: 0 <= i < |assets| && assets[i] == r.value &&
                                 (forall j :: 0 <= j < i ==> assets[j].id != id)
      ensures r.None? <==> forall i :: 0 <= i < |assets| ==> assets[i].id != id
    {
      match IndexOfId(assets, id)
      case None => None
      case Some(i) => Some(assets[i])
    }

    /** `getAssetByUrl`: the asset whose URL is the trimmed argument, if there is one. */
    function GetAssetByUrl(url: string): (r: Option<Asset>)
      reads this
      ensures r.Some? ==> r.value in assets && r.value.url == Trim(url)
      ensures r.Some? ==> exists i :: 0 <= i < |assets| && assets[i] == r.value &&
                                 (forall j :: 0 <= j < i ==> assets[j].url != Trim(url))
      ensures r.None? <==> !HasUrl(assets, Trim(url))
    {
      match IndexOfUrl(assets, Trim(url))
      case None => None
      case Some(i) => Some(assets[i])
    }

    /** `setAssetSize`: the assets with id `id` get the new size; nothing else changes. */
    method SetAssetSize(id: string, width: real, height: real)
      requires Valid()
      modifies this
      ensures Valid()
      ensures assets == WithSize(old(assets), id, AssetSize(width, height))
    {
      assets := WithSize(assets, id, AssetSize(width, height));
    }

    /** `setAssetPosition`: the assets with id `id` move; nothing else changes. */
    method SetAssetPosition(id: string, x: real, y: real)
      requires Valid()
      modifies this
      ensures Valid()
      ensures assets == WithPosition(old(assets), id, AssetPosition(x, y))
    {
      assets := WithPosition(assets, id, AssetPosition(x, y));
    }

    /**
     * `setAssetZIndexToMaximal`: looks the asset up by trimmed URL; if found,
     * it goes to z-index n - 1 and those above it move down one.
     */
    method SetAssetZIndexToMaximal(url: string)
      requires Valid()
      modifies this
      ensures Valid()
      ensures assets == Raised(old(assets), url)
      ensures DenseZ(old(assets)) ==> DenseZ(assets)
    {
      if DenseZ(assets) { RaiseKeepsDenseZ(assets, url); }
      var found := GetAssetByUrl(url);
      if found.None? {
        return;
      }
      var current := found.value.zIndex;
      var n := |assets|;
      assets := Map(assets, (a: Asset) => a.(zIndex := ZAfterRaise(a.zIndex, current, n)));
    }
  }
}
