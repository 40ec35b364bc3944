/**
 * `saveAndApplyWallpaper` of both native preview screens (app/preview.tsx and
 * app/grocery-preview.tsx, identical but for the file name): ask for photo
 * library access, capture the widget, copy the capture into the cache, make a
 * library asset of it, put it into the `Wallify` album (creating the album if
 * there is none) and prune the album to its five newest assets.
 *
 * The platform (media library, file system, view capture) is abstract: a
 * `SavePlatform` value says what each call answers and which call, if any,
 * throws. The album is the only photo library state the flow changes.
 */
module SaveFlow {
  import opened Basics
  import opened ListOps

  /** A photo library asset: its id and its creation time. */
  datatype Asset = Asset(id: string, creationTime: int)

  function AssetId(a: Asset): string { a.id }

  /** The platform calls of the flow, in the order the flow makes them. */
  datatype Step =
    | RequestPermission
    | Capture
    | CopyFile(to: string)
    | CreateAsset
    | GetAlbum
    | CreateAlbum
    | AddToAlbum
    | ListAlbum
    | DeleteAsset(index: nat)

  /**
   * What the platform answers: whether access is granted, whether the captured view is
   * mounted, the cache directory, the asset `createAssetAsync` makes, the `Wallify` album
   * as it stands (`None`: there is none) and the one call that throws, if any.
   */
  datatype SavePlatform = SavePlatform(
    granted: bool,
    hasView: bool,
    cacheDirectory: string,
    newAsset: Asset,
    album: Option<seq<Asset>>,
    failsAt: Option<Step>)

  /** The alert the flow ends with, if any. */
  datatype Alert = NoAlert | PermissionRequired | SaveFailed

  /**
   * How a run ends: the album afterwards, whether `imageSaved` is to be set, the alert
   * shown, and the calls made in order (the call that threw included).
   */
  datatype SaveOutcome = SaveOutcome(album: Option<seq<Asset>>, saved: bool, alert: Alert, calls: seq<Step>)

  /** The album's name. */
  const AlbumName := "Wallify"

  /** How many assets the album keeps. */
  const KeepNewest: nat := 5

  predicate Fails(p: SavePlatform, s: Step) { p.failsAt == Some(s) }

  // ---------------------------------------------------------------------------
  // The album listing: newest first

  predicate NewestFirst(s: seq<Asset>)
  {
    forall i, j | 0 <= i < j < |s| :: s[i].creationTime >= s[j].creationTime
  }

  /** An asset at least as new as every asset of a newest-first listing may go in front of it. */
  lemma NewestFirstCons(y: Asset, s: seq<Asset>)
    requires NewestFirst(s)
    requires forall i | 0 <= i < |s| :: s[i].creationTime <= y.creationTime
    ensures NewestFirst([y] + s)
  {
    var r := [y] + s;
    forall i, j | 0 <= i < j < |r| ensures r[i].creationTime >= r[j].creationTime {
      assert r[j] == s[j - 1];
      if i > 0 {
        assert r[i] == s[i - 1];
      }
    }
  }

  /** `x` put into a newest-first listing behind every asset at least as new. */
  function InsertByTime(x: Asset, s: seq<Asset>): seq<Asset>
  {
    if s == [] then [x]
    else if s[0].creationTime >= x.creationTime then [s[0]] + InsertByTime(x, s[1..])
    else [x] + s
  }

  lemma {:induction false} InsertByTimeContents(x: Asset, s: seq<Asset>)
    ensures multiset(InsertByTime(x, s)) == multiset(s) + multiset{x}
  {
    if s == [] {
      assert InsertByTime(x, s) == [x];
    } else if s[0].creationTime >= x.creationTime {
      var rest := InsertByTime(x, s[1..]);
      InsertByTimeContents(x, s[1..]);
      assert s == [s[0]] + s[1..];
      calc {
        multiset(InsertByTime(x, s));
        multiset([s[0]] + rest);
        multiset{s[0]} + multiset(rest);
        multiset{s[0]} + multiset(s[1..]) + multiset{x};
        multiset(s) + multiset{x};
      }
    } else {
      assert InsertByTime(x, s) == [x] + s;
    }
  }

  lemma {:induction false} InsertByTimeNewestFirst(x: Asset, s: seq<Asset>)
    requires NewestFirst(s)
    ensures NewestFirst(InsertByTime(x, s))
  {
    if s == [] {
    } else if s[0].creationTime >= x.creationTime {
      var rest := InsertByTime(x, s[1..]);
      InsertByTimeNewestFirst(x, s[1..]);
      InsertByTimeContents(x, s[1..]);
      forall i | 0 <= i < |rest| ensures rest[i].creationTime <= s[0].creationTime {
        assert rest[i] in multiset(rest);
        if rest[i] != x {
          assert rest[i] in multiset(s[1..]);
          var j :| 0 <= j < |s[1..]| && s[1..][j] == rest[i];
          assert s[j + 1] == rest[i];
        }
      }
      NewestFirstCons(s[0], rest);
    } else {
      NewestFirstCons(x, s);
    }
  }

  /**
   * `getAssetsAsync({ album, sortBy: [['creationTime', false]] })`: the album's assets
   * sorted by creation time, newest first.
   */
  function Listing(s: seq<Asset>): seq<Asset>
  {
    if s == [] then [] else InsertByTime(s[|s| - 1], Listing(s[..|s| - 1]))
  }

  /** The listing is newest first and holds exactly the album's assets. */
  lemma {:induction false} ListingSpec(s: seq<Asset>)
    ensures NewestFirst(Listing(s))
    ensures multiset(Listing(s)) == multiset(s)
  {
    if s != [] {
      var init := s[..|s| - 1];
      ListingSpec(init);
      InsertByTimeNewestFirst(s[|s| - 1], Listing(init));
      InsertByTimeContents(s[|s| - 1], Listing(init));
      assert s == init + [s[|s| - 1]];
    }
  }

  /** `assetsInAlbum.assets.length > 5 ? assetsInAlbum.assets.slice(5) : []`. */
  function Doomed(listing: seq<Asset>): (d: seq<Asset>)
    ensures |listing| <= KeepNewest ==> d == []
    ensures |listing| > KeepNewest ==> listing == listing[..KeepNewest] + d
  {
    if |listing| > KeepNewest then listing[KeepNewest..] else []
  }

  /** The album after deleting the assets of `d` one after the other. */
  function RemoveAll(s: seq<Asset>, d: seq<Asset>): seq<Asset>
  {
    if d == [] then s
    else RemoveKey(RemoveAll(s, d[..|d| - 1]), AssetId, d[|d| - 1].id)
  }

  /** The calls `DeleteAsset(0)`, …, `DeleteAsset(n - 1)`. */
  function DeleteCalls(n: nat): (r: seq<Step>)
    ensures |r| == n && forall i | 0 <= i < n :: r[i] == DeleteAsset(i)
  {
    if n == 0 then [] else DeleteCalls(n - 1) + [DeleteAsset(n - 1)]
  }

  /** The index of the deletion that throws, or `n` when none of the first `n` does. */
  function FailingDelete(p: SavePlatform, n: nat): (k: nat)
    ensures k <= n
    ensures k < n <==> exists i | 0 <= i < n :: Fails(p, DeleteAsset(i))
    ensures k < n ==> Fails(p, DeleteAsset(k))
    ensures forall i | 0 <= i < k :: !Fails(p, DeleteAsset(i))
  {
    if p.failsAt.Some? && p.failsAt.value.DeleteAsset? && p.failsAt.value.index < n then p.failsAt.value.index
    else n
  }

  // ---------------------------------------------------------------------------
  // The flow as a function

  function Failed(album: Option<seq<Asset>>, calls: seq<Step>): SaveOutcome
  {
    SaveOutcome(album, false, SaveFailed, calls)
  }

  /** `${FileSystem.cacheDirectory}${WALLPAPER_FILENAME}`. */
  function FileUri(p: SavePlatform, fileName: string): string
  {
    p.cacheDirectory + fileName
  }

  /** The calls up to and including the album lookup. */
  function Prelude(p: SavePlatform, fileName: string): seq<Step>
  {
    [RequestPermission, Capture, CopyFile(FileUri(p, fileName)), CreateAsset, GetAlbum]
  }

  /** The run once the album exists: add the asset, list the album, delete all but the newest five. */
  function Prune(p: SavePlatform, fileName: string, a: seq<Asset>): SaveOutcome
  {
    var calls := Prelude(p, fileName);
    var withNew := a + [p.newAsset];
    if Fails(p, AddToAlbum) then Failed(Some(a), calls + [AddToAlbum])
    else if Fails(p, ListAlbum) then Failed(Some(withNew), calls + [AddToAlbum, ListAlbum])
    else
      var doomed := Doomed(Listing(withNew));
      var k := FailingDelete(p, |doomed|);
      var listed := calls + [AddToAlbum, ListAlbum];
      if k < |doomed| then Failed(Some(RemoveAll(withNew, doomed[..k])), listed + DeleteCalls(k + 1))
      else SaveOutcome(Some(RemoveAll(withNew, doomed)), true, NoAlert, listed + DeleteCalls(|doomed|))
  }

  /** The whole run, call by call; the first call that throws ends it with the error alert. */
  function Save(p: SavePlatform, fileName: string): SaveOutcome
  {
    var calls := Prelude(p, fileName);
    if Fails(p, RequestPermission) then Failed(p.album, calls[..1])
    else if !p.granted then SaveOutcome(p.album, false, PermissionRequired, calls[..1])
    else if !p.hasView then SaveOutcome(p.album, false, NoAlert, calls[..1])
    else if Fails(p, Capture) then Failed(p.album, calls[..2])
    else if Fails(p, CopyFile(FileUri(p, fileName))) then Failed(p.album, calls[..3])
    else if Fails(p, CreateAsset) then Failed(p.album, calls[..4])
    else if Fails(p, GetAlbum) then Failed(p.album, calls)
    else
      match p.album
      case None =>
        if Fails(p, CreateAlbum) then Failed(None, calls + [CreateAlbum])
        else SaveOutcome(Some([p.newAsset]), true, NoAlert, calls + [CreateAlbum])
      case Some(a) => Prune(p, fileName, a)
  }

  // ---------------------------------------------------------------------------
  // The flow as the source runs it

  /** `saveAndApplyWallpaper`, one awaited call after the other. */
  method SaveAndApplyWallpaper(p: SavePlatform, fileName: string) returns (out: SaveOutcome)
    ensures out == Save(p, fileName)
  {
    var calls: seq<Step> := [RequestPermission];
    if Fails(p, RequestPermission) {
      return Failed(p.album, calls);
    }
    if !p.granted {
      return SaveOutcome(p.album, false, PermissionRequired, calls);
    }
    if !p.hasView {
      return SaveOutcome(p.album, false, NoAlert, calls);
    }
    calls := calls + [Capture];
    if Fails(p, Capture) {
      return Failed(p.album, calls);
    }
    var fileUri := p.cacheDirectory + fileName;
    calls := calls + [CopyFile(fileUri)];
    if Fails(p, CopyFile(fileUri)) {
      return Failed(p.album, calls);
    }
    calls := calls + [CreateAsset];
    if Fails(p, CreateAsset) {
      return Failed(p.album, calls);
    }
    calls := calls + [GetAlbum];
    if Fails(p, GetAlbum) {
      return Failed(p.album, calls);
    }
    if p.album.None? {
      calls := calls + [CreateAlbum];
      if Fails(p, CreateAlbum) {
        return Failed(None, calls);
      }
      return SaveOutcome(Some([p.newAsset]), true, NoAlert, calls);
    }
    out := AddAndPrune(p, fileName, p.album.value);
  }

  /** The album branch: add the new asset, list the album newest first, delete past the fifth one. */
  method AddAndPrune(p: SavePlatform, fileName: string, existing: seq<Asset>) returns (out: SaveOutcome)
    ensures out == Prune(p, fileName, existing)
  {
    var prelude := Prelude(p, fileName);
    if Fails(p, AddToAlbum) {
      return Failed(Some(existing), prelude + [AddToAlbum]);
    }
    var album := existing + [p.newAsset];
    var listed := prelude + [AddToAlbum, ListAlbum];
    if Fails(p, ListAlbum) {
      return Failed(Some(album), listed);
    }
    var doomed := Doomed(Listing(album));
    var left, deleted := DeleteOneByOne(p, album, doomed);
    if deleted < |doomed| {
      return Failed(Some(left), listed + DeleteCalls(deleted + 1));
    }
    assert doomed[..deleted] == doomed;
    return SaveOutcome(Some(left), true, NoAlert, listed + DeleteCalls(deleted));
  }

  /**
   * `for (const assetToDelete of assetsToDelete) await deleteAssetsAsync([assetToDelete])`:
   * how many deletions went through before one threw, and the album they leave.
   */
  method DeleteOneByOne(p: SavePlatform, album: seq<Asset>, doomed: seq<Asset>) returns (left: seq<Asset>, deleted: nat)
    ensures deleted == FailingDelete(p, |doomed|)
    ensures left == RemoveAll(album, doomed[..deleted])
  {
    left, deleted := album, 0;
    while deleted < |doomed|
      invariant deleted <= |doomed|
      invariant deleted <= FailingDelete(p, |doomed|)
      invariant left == RemoveAll(album, doomed[..deleted])
    {
      if Fails(p, DeleteAsset(deleted)) {
        return;
      }
      assert doomed[..deleted + 1][..deleted] == doomed[..deleted];
      left := RemoveKey(left, AssetId, doomed[deleted].id);
      deleted := deleted + 1;
    }
  }

  // ---------------------------------------------------------------------------
  // What the flow promises

  /** Without access nothing is captured or stored, and the user is asked for permission. */
  lemma PermissionDenied(p: SavePlatform, fileName: string)
    requires !p.granted && !Fails(p, RequestPermission)
    ensures var out := Save(p, fileName);
      out.alert == PermissionRequired && !out.saved && out.album == p.album && out.calls == [RequestPermission]
  {
  }

  /** In the album branch, the error alert comes exactly from a call that threw, and it is the last call. */
  lemma PruneAlerts(p: SavePlatform, fileName: string, a: seq<Asset>)
    requires p.failsAt.Some? ==> p.failsAt.value !in Prelude(p, fileName)
    ensures var out := Prune(p, fileName, a);
      && (out.alert == SaveFailed <==> p.failsAt.Some? && p.failsAt.value in out.calls)
      && (out.alert == SaveFailed ==> out.calls[|out.calls| - 1] == p.failsAt.value)
      && (out.saved <==> out.alert == NoAlert)
      && out.alert != PermissionRequired
  {
    var listed := Prelude(p, fileName) + [AddToAlbum, ListAlbum];
    if !Fails(p, AddToAlbum) && !Fails(p, ListAlbum) {
      var doomed := Doomed(Listing(a + [p.newAsset]));
      assert forall q | q in listed :: q in Prelude(p, fileName) || q == AddToAlbum || q == ListAlbum;
    }
  }

  /** A call that throws ends the run with the error alert and without the saved flag; it is the last call made. */
  lemma FailureAlerts(p: SavePlatform, fileName: string)
    ensures var out := Save(p, fileName);
      out.alert == SaveFailed <==> (p.failsAt.Some? && p.failsAt.value in out.calls)
    ensures var out := Save(p, fileName);
      out.alert == SaveFailed ==> !out.saved && out.calls[|out.calls| - 1] == p.failsAt.value
  {
    var calls := Prelude(p, fileName);
    var out := Save(p, fileName);
    if Fails(p, RequestPermission) || !p.granted || !p.hasView {
      assert out.calls == [RequestPermission];
    } else if Fails(p, Capture) {
      assert out.calls == [RequestPermission, Capture];
    } else if Fails(p, CopyFile(FileUri(p, fileName))) {
      assert out.calls == [RequestPermission, Capture, CopyFile(FileUri(p, fileName))];
    } else if Fails(p, CreateAsset) {
      assert out.calls == [RequestPermission, Capture, CopyFile(FileUri(p, fileName)), CreateAsset];
    } else if Fails(p, GetAlbum) {
      assert out.calls[4] == GetAlbum;
    } else {
      assert p.failsAt.Some? ==> p.failsAt.value !in calls;
      if p.album.Some? {
        PruneAlerts(p, fileName, p.album.value);
      }
    }
  }

  /** The saved flag is set exactly when access was granted to a mounted view and no call threw. */
  lemma SavedIffNoFailure(p: SavePlatform, fileName: string)
    ensures var out := Save(p, fileName);
      out.saved <==> p.granted && p.hasView && out.alert != SaveFailed
  {
    var calls := Prelude(p, fileName);
    if !Fails(p, RequestPermission) && p.granted && p.hasView && !Fails(p, Capture)
      && !Fails(p, CopyFile(FileUri(p, fileName))) && !Fails(p, CreateAsset) && !Fails(p, GetAlbum) && p.album.Some? {
      assert p.failsAt.Some? ==> p.failsAt.value !in calls;
      PruneAlerts(p, fileName, p.album.value);
    }
  }

  /** Every asset of the library has its own id. */
  predicate UniqueIds(s: seq<Asset>)
  {
    forall i, j | 0 <= i < j < |s| :: s[i].id != s[j].id
  }

  /** An asset of an album with unique ids splits it into the assets before and after it, none sharing its id. */
  lemma SplitAtAsset(s: seq<Asset>, x: Asset) returns (pre: seq<Asset>, post: seq<Asset>)
    requires UniqueIds(s) && x in s
    ensures s == pre + [x] + post
    ensures forall y | y in pre :: y.id != x.id
    ensures forall y | y in post :: y.id != x.id
  {
    var n :| 0 <= n < |s| && s[n] == x;
    pre, post := s[..n], s[n + 1..];
    assert s == pre + [x] + post;
    forall y | y in pre ensures y.id != x.id {
      var i :| 0 <= i < |pre| && pre[i] == y;
      assert s[i] == y;
    }
    forall y | y in post ensures y.id != x.id {
      var i :| 0 <= i < |post| && post[i] == y;
      assert s[n + 1 + i] == y;
    }
  }

  /** Taking one asset out keeps the ids unique. */
  lemma UniqueIdsWithout(pre: seq<Asset>, x: Asset, post: seq<Asset>)
    requires UniqueIds(pre + [x] + post)
    ensures UniqueIds(pre + post)
  {
    var s, r := pre + [x] + post, pre + post;
    forall i, j | 0 <= i < j < |r| ensures r[i].id != r[j].id {
      var si := if i < |pre| then i else i + 1;
      var sj := if j < |pre| then j else j + 1;
      assert r[i] == s[si] && r[j] == s[sj];
    }
  }

  /** With unique ids, deleting an asset of the album by its id takes out that asset alone. */
  lemma RemoveOneAsset(s: seq<Asset>, x: Asset)
    requires UniqueIds(s) && x in s
    ensures multiset(RemoveKey(s, AssetId, x.id)) == multiset(s) - multiset{x}
    ensures UniqueIds(RemoveKey(s, AssetId, x.id))
  {
    var pre, post := SplitAtAsset(s, x);
    RemoveUniqueKey(pre, x, post, AssetId);
    UniqueIdsWithout(pre, x, post);
    calc {
      multiset(s);
      multiset(pre) + multiset{x} + multiset(post);
      multiset(pre + post) + multiset{x};
    }
  }

  /** With unique ids, deleting assets that are in the album takes out exactly those assets. */
  lemma {:induction false} RemoveAllContents(s: seq<Asset>, d: seq<Asset>)
    requires UniqueIds(s) && multiset(d) <= multiset(s)
    ensures multiset(RemoveAll(s, d)) == multiset(s) - multiset(d)
    ensures UniqueIds(RemoveAll(s, d))
  {
    if d != [] {
      var init, last := d[..|d| - 1], d[|d| - 1];
      assert d == init + [last];
      RemoveAllContents(s, init);
      var r := RemoveAll(s, init);
      assert last in multiset(r);
      RemoveOneAsset(r, last);
    }
  }

  /** The assets the listing keeps: the first five, or all while there are at most five. */
  function Kept(listing: seq<Asset>): seq<Asset>
  {
    if |listing| > KeepNewest then listing[..KeepNewest] else listing
  }

  /** Deleting the doomed assets leaves exactly the kept ones. */
  lemma PruneLeavesKept(album: seq<Asset>)
    requires UniqueIds(album)
    ensures multiset(RemoveAll(album, Doomed(Listing(album)))) == multiset(Kept(Listing(album)))
    ensures |RemoveAll(album, Doomed(Listing(album)))| == if |album| > KeepNewest then KeepNewest else |album|
  {
    var listing := Listing(album);
    ListingSpec(album);
    var doomed, kept := Doomed(listing), Kept(listing);
    assert listing == kept + doomed;
    assert multiset(listing) == multiset(kept) + multiset(doomed);
    RemoveAllContents(album, doomed);
    var left := RemoveAll(album, doomed);
    assert |left| == |kept| by {
      assert |multiset(left)| == |multiset(kept)|;
    }
    assert |listing| == |album| by {
      assert |multiset(listing)| == |multiset(album)|;
    }
  }

  /** Every kept asset is at least as new as every doomed one. */
  lemma KeptAreNewest(album: seq<Asset>)
    ensures forall x, y | x in Kept(Listing(album)) && y in Doomed(Listing(album)) :: x.creationTime >= y.creationTime
  {
    var listing := Listing(album);
    ListingSpec(album);
    if |listing| > KeepNewest {
      var doomed, kept := Doomed(listing), Kept(listing);
      assert listing == kept + doomed;
      forall x, y | x in kept && y in doomed
        ensures x.creationTime >= y.creationTime
      {
        var i :| 0 <= i < KeepNewest && kept[i] == x;
        var j :| 0 <= j < |doomed| && doomed[j] == y;
        assert listing[i] == x;
        assert listing[KeepNewest + j] == y;
      }
    }
  }

  /**
   * With the album in place and no call throwing, the album ends holding exactly the five
   * newest of its assets, the new one counted, or all of them while there are at most five
   * (`KeptAreNewest` says which ones are the newest).
   */
  lemma PruneKeepsNewest(p: SavePlatform, fileName: string, a: seq<Asset>)
    requires UniqueIds(a + [p.newAsset])
    requires !Fails(p, AddToAlbum) && !Fails(p, ListAlbum) && !(p.failsAt.Some? && p.failsAt.value.DeleteAsset?)
    ensures var out := Prune(p, fileName, a);
      && out.saved && out.album.Some?
      && multiset(out.album.value) == multiset(Kept(Listing(a + [p.newAsset])))
      && |out.album.value| == (if |a| + 1 > KeepNewest then KeepNewest else |a| + 1)
  {
    PruneLeavesKept(a + [p.newAsset]);
  }

  /** When there is no album yet, the album is created holding just the new asset; nothing is deleted. */
  lemma NewAlbum(p: SavePlatform, fileName: string)
    requires p.album.None? && p.granted && p.hasView && p.failsAt.None?
    ensures Save(p, fileName) == SaveOutcome(Some([p.newAsset]), true, NoAlert, Prelude(p, fileName) + [CreateAlbum])
  {
  }
}
