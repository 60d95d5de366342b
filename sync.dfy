/**
 * Construction of a sync item: which changed files of an artifact can be
 * copied into (or deleted from) the running container instead of rebuilding
 * the image. The path library (`filepath.Rel`, `filepath.Match`,
 * `util.HasMeta`, `filepath.Base`, `path.Join`) is a parameter, and the sync
 * map's iteration order, which Go leaves unspecified, is an explicit `order`.
 */
module Sync {
  import opened Errors
  import opened Artifacts
  import Watch

  datatype Item = Item(image: string, copy: map<string, string>, delete: map<string, string>)

  datatype PathLib = PathLib(
    rel: (string, string) -> Result<string>,
    matches: (string, string) -> Result<bool>,
    hasMeta: string -> bool,
    base: string -> string,
    join: (string, string) -> string)

  /** `order` lists every key of a map once: one possible iteration order. */
  ghost predicate IsOrder(order: seq<string>, keys: set<string>)
  {
    (forall p :: p in order <==> p in keys) && (forall i, j :: 0 <= i < j < |order| ==> order[i] != order[j])
  }

  /** Where a file matched by `pattern` goes: into directory `dst` when the pattern has glob characters, else to `dst`. */
  function Destination(lib: PathLib, pattern: string, dst: string, relPath: string): string
  {
    if lib.hasMeta(pattern) then lib.join(dst, lib.base(relPath)) else dst
  }

  function Last(order: seq<string>): string
    requires |order| > 0
  {
    order[|order| - 1]
  }

  /** The inner loop of `intersect` for file `f`: each pattern in turn must match, each match overwrites `ret[f]`. */
  function MatchAll(lib: PathLib, syncMap: map<string, string>, order: seq<string>, f: string, relPath: string,
                    ret: map<string, string>): Result<Option<map<string, string>>>
    requires forall p :: p in order ==> p in syncMap
  {
    if |order| == 0 then Ok(Some(ret))
    else
      var p := order[0];
      match lib.matches(p, relPath)
      case Err(e) => Err(Wrap("pattern error for " + relPath, e))
      case Ok(false) => Ok(None)
      case Ok(true) => MatchAll(lib, syncMap, order[1..], f, relPath, ret[f := Destination(lib, p, syncMap[p], relPath)])
  }

  /**
   * `orders[k]` is the iteration order of the sync map used for the k-th file:
   * Go ranges over the map afresh for each file, so each file has its own.
   */
  ghost predicate Within(orders: seq<seq<string>>, syncMap: map<string, string>)
  {
    forall k, p :: 0 <= k < |orders| && p in orders[k] ==> p in syncMap
  }

  /** Every per-file order lists each key of the sync map exactly once. */
  ghost predicate AreOrders(orders: seq<seq<string>>, keys: set<string>)
  {
    forall k :: 0 <= k < |orders| ==> IsOrder(orders[k], keys)
  }

  /** Dropping the first file's order keeps the rest within the map. */
  lemma WithinTail(orders: seq<seq<string>>, syncMap: map<string, string>)
    requires |orders| > 0 && Within(orders, syncMap)
    ensures forall p :: p in orders[0] ==> p in syncMap
    ensures Within(orders[1..], syncMap)
  {
    forall k, p | 0 <= k < |orders| - 1 && p in orders[1..][k] ensures p in syncMap {
      assert orders[1..][k] == orders[k + 1];
    }
  }

  /** The outer loop of `intersect` over the remaining `files`, each with its own order, starting from the map built so far. */
  function IntersectFrom(lib: PathLib, context: string, syncMap: map<string, string>, orders: seq<seq<string>>,
                         files: seq<string>, ret: map<string, string>): Result<Option<map<string, string>>>
    requires |orders| == |files| && Within(orders, syncMap)
  {
    if |files| == 0 then Ok(Some(ret))
    else
      var f := files[0];
      WithinTail(orders, syncMap);
      match lib.rel(context, f)
      case Err(e) => Err(Wrap("changed file " + f + " can't be found relative to context " + context, e))
      case Ok(relPath) =>
        match MatchAll(lib, syncMap, orders[0], f, relPath, ret)
        case Err(e) => Err(e)
        case Ok(None) => Ok(None)
        case Ok(Some(ret')) => IntersectFrom(lib, context, syncMap, orders[1..], files[1..], ret')
  }

  /**
   * `intersect`: the destination of every file when each file matches every
   * pattern, None as soon as one does not. The inner loop walks `orders[i]`,
   * the map order Go draws for the i-th file.
   */
  method Intersect(lib: PathLib, context: string, syncMap: map<string, string>, orders: seq<seq<string>>, files: seq<string>)
    returns (r: Result<Option<map<string, string>>>)
    requires |orders| == |files| && Within(orders, syncMap)
    ensures r == IntersectFrom(lib, context, syncMap, orders, files, map[])
  {
    var ret: map<string, string> := map[];
    var i := 0;
    while i < |files|
      invariant 0 <= i <= |files|
      invariant Within(orders[i..], syncMap)
      invariant IntersectFrom(lib, context, syncMap, orders[i..], files[i..], ret)
             == IntersectFrom(lib, context, syncMap, orders, files, map[])
    {
      var f := files[i];
      var order := orders[i];
      WithinTail(orders[i..], syncMap);
      assert orders[i..][0] == order && orders[i..][1..] == orders[i + 1..];
      var rel := lib.rel(context, f);
      if rel.Err? {
        return Err(Wrap("changed file " + f + " can't be found relative to context " + context, rel.error));
      }
      var cur := ret;
      var j := 0;
      while j < |order|
        invariant 0 <= j <= |order|
        invariant MatchAll(lib, syncMap, order[j..], f, rel.value, cur) == MatchAll(lib, syncMap, order, f, rel.value, ret)
      {
        var p := order[j];
        var m := lib.matches(p, rel.value);
        if m.Err? {
          return Err(Wrap("pattern error for " + rel.value, m.error));
        }
        if !m.value {
          return Ok(None);
        }
        var dst := syncMap[p];
        if lib.hasMeta(p) {
          dst := lib.join(dst, lib.base(rel.value));
        }
        cur := cur[f := dst];
        assert order[j..][1..] == order[j + 1..];
        j := j + 1;
      }
      assert files[i..][1..] == files[i + 1..];
      ret := cur;
      i := i + 1;
    }
    r := Ok(Some(ret));
  }

  /** A successful match of one file: every pattern matched, and the last pattern in the order decides its destination. */
  lemma {:induction false} MatchAllSome(lib: PathLib, syncMap: map<string, string>, order: seq<string>, f: string, relPath: string,
                                        ret: map<string, string>, m: map<string, string>)
    requires forall p :: p in order ==> p in syncMap
    requires MatchAll(lib, syncMap, order, f, relPath, ret) == Ok(Some(m))
    ensures forall j :: 0 <= j < |order| ==> lib.matches(order[j], relPath) == Ok(true)
    ensures |order| == 0 ==> m == ret
    ensures |order| > 0 ==> m == ret[f := Destination(lib, Last(order), syncMap[Last(order)], relPath)]
    decreases |order|
  {
    if |order| > 0 {
      var p := order[0];
      var ret' := ret[f := Destination(lib, p, syncMap[p], relPath)];
      MatchAllSome(lib, syncMap, order[1..], f, relPath, ret', m);
      if |order| > 1 {
        assert Last(order[1..]) == Last(order);
      }
      forall j | 0 <= j < |order| ensures lib.matches(order[j], relPath) == Ok(true) {
        if j > 0 { assert order[j] == order[1..][j - 1]; }
      }
    }
  }

  /** Without pattern errors, one file's match fails exactly when some pattern does not match it. */
  lemma {:induction false} MatchAllNoneIff(lib: PathLib, syncMap: map<string, string>, order: seq<string>, f: string, relPath: string,
                                           ret: map<string, string>)
    requires forall p :: p in order ==> p in syncMap
    requires forall j :: 0 <= j < |order| ==> lib.matches(order[j], relPath).Ok?
    ensures MatchAll(lib, syncMap, order, f, relPath, ret).Ok?
    ensures MatchAll(lib, syncMap, order, f, relPath, ret) == Ok(None)
        <==> exists j :: 0 <= j < |order| && lib.matches(order[j], relPath) == Ok(false)
    decreases |order|
  {
    if |order| > 0 {
      var p := order[0];
      var ret' := ret[f := Destination(lib, p, syncMap[p], relPath)];
      assert forall j :: 0 <= j < |order| - 1 ==> order[1..][j] == order[j + 1];
      MatchAllNoneIff(lib, syncMap, order[1..], f, relPath, ret');
      if lib.matches(p, relPath) == Ok(true) {
        if exists j :: 0 <= j < |order| && lib.matches(order[j], relPath) == Ok(false) {
          var j :| 0 <= j < |order| && lib.matches(order[j], relPath) == Ok(false);
          assert order[1..][j - 1] == order[j];
        }
      }
    }
  }

  /** Every per-file order is non-empty. */
  ghost predicate NonEmpty(orders: seq<seq<string>>)
  {
    forall k :: 0 <= k < |orders| ==> |orders[k]| > 0
  }

  /**
   * A successful intersection holds every listed file (plus what `ret` held);
   * each file matched every pattern of its own order, and the last occurrence
   * of a file decides its destination: the one the last pattern of that
   * file's order gives it.
   */
  lemma {:induction false} IntersectSome(lib: PathLib, context: string, syncMap: map<string, string>, orders: seq<seq<string>>,
      files: seq<string>, ret: map<string, string>, m: map<string, string>)
    requires |orders| == |files| && Within(orders, syncMap) && NonEmpty(orders)
    requires IntersectFrom(lib, context, syncMap, orders, files, ret) == Ok(Some(m))
    ensures m.Keys == ret.Keys + set f | f in files
    ensures forall k :: 0 <= k < |files| ==>
      lib.rel(context, files[k]).Ok?
      && forall j :: 0 <= j < |orders[k]| ==> lib.matches(orders[k][j], lib.rel(context, files[k]).value) == Ok(true)
    ensures forall k :: 0 <= k < |files| && files[k] !in files[k + 1..] ==>
      m[files[k]] == Destination(lib, Last(orders[k]), syncMap[Last(orders[k])], lib.rel(context, files[k]).value)
    ensures forall x :: x in ret && x !in files ==> m[x] == ret[x]
  {
    IntersectSomeKeys(lib, context, syncMap, orders, files, ret, m);
    IntersectSomeMatched(lib, context, syncMap, orders, files, ret, m);
    IntersectSomeFiles(lib, context, syncMap, orders, files, ret, m);
  }

  /** The keys of a successful intersection: those of `ret` and the files; entries of `ret` for other paths stay. */
  lemma {:induction false} IntersectSomeKeys(lib: PathLib, context: string, syncMap: map<string, string>, orders: seq<seq<string>>,
      files: seq<string>, ret: map<string, string>, m: map<string, string>)
    requires |orders| == |files| && Within(orders, syncMap) && NonEmpty(orders)
    requires IntersectFrom(lib, context, syncMap, orders, files, ret) == Ok(Some(m))
    ensures m.Keys == ret.Keys + set f | f in files
    ensures forall x :: x in ret && x !in files ==> m[x] == ret[x]
    decreases |files|
  {
    if |files| > 0 {
      var f := files[0];
      var relPath, ret' := IntersectFirst(lib, context, syncMap, orders, files, ret, m);
      MatchAllSome(lib, syncMap, orders[0], f, relPath, ret, ret');
      NonEmptyTail(orders);
      IntersectSomeKeys(lib, context, syncMap, orders[1..], files[1..], ret', m);
      assert (set g | g in files) == {f} + set g | g in files[1..];
      forall x | x in ret && x !in files ensures m[x] == ret[x] {
        assert x !in files[1..];
      }
    }
  }

  lemma NonEmptyTail(orders: seq<seq<string>>)
    requires |orders| > 0 && NonEmpty(orders)
    ensures |orders[0]| > 0 && NonEmpty(orders[1..])
  {
    assert forall k :: 0 <= k < |orders| - 1 ==> orders[1..][k] == orders[k + 1];
  }

  /** Each file of a successful intersection has a relative path and matched every pattern of its own order. */
  lemma {:induction false} IntersectSomeMatched(lib: PathLib, context: string, syncMap: map<string, string>, orders: seq<seq<string>>,
      files: seq<string>, ret: map<string, string>, m: map<string, string>)
    requires |orders| == |files| && Within(orders, syncMap)
    requires IntersectFrom(lib, context, syncMap, orders, files, ret) == Ok(Some(m))
    ensures forall k :: 0 <= k < |files| ==>
      lib.rel(context, files[k]).Ok?
      && forall j :: 0 <= j < |orders[k]| ==> lib.matches(orders[k][j], lib.rel(context, files[k]).value) == Ok(true)
    decreases |files|
  {
    if |files| > 0 {
      var relPath, ret' := IntersectFirst(lib, context, syncMap, orders, files, ret, m);
      MatchAllSome(lib, syncMap, orders[0], files[0], relPath, ret, ret');
      IntersectSomeMatched(lib, context, syncMap, orders[1..], files[1..], ret', m);
      forall k | 0 < k < |files|
        ensures files[k] == files[1..][k - 1] && orders[k] == orders[1..][k - 1]
      {
      }
    }
  }

  /** The last occurrence of a file in a successful intersection goes where the last pattern of its order sends it. */
  lemma {:induction false} IntersectSomeFiles(lib: PathLib, context: string, syncMap: map<string, string>, orders: seq<seq<string>>,
      files: seq<string>, ret: map<string, string>, m: map<string, string>)
    requires |orders| == |files| && Within(orders, syncMap) && NonEmpty(orders)
    requires IntersectFrom(lib, context, syncMap, orders, files, ret) == Ok(Some(m))
    ensures forall k :: 0 <= k < |files| && files[k] !in files[k + 1..] ==>
      lib.rel(context, files[k]).Ok? && files[k] in m
      && m[files[k]] == Destination(lib, Last(orders[k]), syncMap[Last(orders[k])], lib.rel(context, files[k]).value)
    decreases |files|
  {
    if |files| > 0 {
      var f := files[0];
      var relPath, ret' := IntersectFirst(lib, context, syncMap, orders, files, ret, m);
      MatchAllSome(lib, syncMap, orders[0], f, relPath, ret, ret');
      NonEmptyTail(orders);
      IntersectSomeFiles(lib, context, syncMap, orders[1..], files[1..], ret', m);
      forall k | 0 <= k < |files| && files[k] !in files[k + 1..]
        ensures lib.rel(context, files[k]).Ok? && files[k] in m
        ensures m[files[k]] == Destination(lib, Last(orders[k]), syncMap[Last(orders[k])], lib.rel(context, files[k]).value)
      {
        if k == 0 {
          assert files[1..] == files[0 + 1..];
          IntersectSomeKeys(lib, context, syncMap, orders[1..], files[1..], ret', m);
          assert m[f] == ret'[f];
        } else {
          assert files[k] == files[1..][k - 1] && orders[k] == orders[1..][k - 1] && files[k + 1..] == files[1..][k - 1 + 1..];
        }
      }
    }
  }

  /** A successful intersection took the first file's relative path and matched it under its order, then went on with the rest. */
  lemma IntersectFirst(lib: PathLib, context: string, syncMap: map<string, string>, orders: seq<seq<string>>,
                       files: seq<string>, ret: map<string, string>, m: map<string, string>)
    returns (relPath: string, ret': map<string, string>)
    requires |files| > 0 && |orders| == |files| && Within(orders, syncMap)
    requires IntersectFrom(lib, context, syncMap, orders, files, ret) == Ok(Some(m))
    ensures (forall p :: p in orders[0] ==> p in syncMap) && Within(orders[1..], syncMap)
    ensures lib.rel(context, files[0]) == Ok(relPath)
    ensures MatchAll(lib, syncMap, orders[0], files[0], relPath, ret) == Ok(Some(ret'))
    ensures IntersectFrom(lib, context, syncMap, orders[1..], files[1..], ret') == Ok(Some(m))
  {
    WithinTail(orders, syncMap);
    relPath := lib.rel(context, files[0]).value;
    ret' := MatchAll(lib, syncMap, orders[0], files[0], relPath, ret).value.value;
  }

  /**
   * With no path or pattern errors, the intersection is None exactly when some
   * file fails to match some pattern of its order; otherwise it is a map.
   */
  lemma {:induction false} IntersectNoneIff(lib: PathLib, context: string, syncMap: map<string, string>, orders: seq<seq<string>>,
                                            files: seq<string>, ret: map<string, string>)
    requires |orders| == |files| && Within(orders, syncMap)
    requires forall k :: 0 <= k < |files| ==> lib.rel(context, files[k]).Ok?
    requires forall k, j :: 0 <= k < |files| && 0 <= j < |orders[k]| ==> lib.matches(orders[k][j], lib.rel(context, files[k]).value).Ok?
    ensures IntersectFrom(lib, context, syncMap, orders, files, ret).Ok?
    ensures IntersectFrom(lib, context, syncMap, orders, files, ret) == Ok(None)
        <==> exists k, j :: 0 <= k < |files| && 0 <= j < |orders[k]| && lib.matches(orders[k][j], lib.rel(context, files[k]).value) == Ok(false)
    decreases |files|
  {
    if |files| > 0 {
      var f := files[0];
      var relPath := lib.rel(context, f).value;
      WithinTail(orders, syncMap);
      MatchAllNoneIff(lib, syncMap, orders[0], f, relPath, ret);
      var one := MatchAll(lib, syncMap, orders[0], f, relPath, ret);
      if one.value.Some? {
        assert forall k :: 0 <= k < |files| - 1 ==> files[1..][k] == files[k + 1] && orders[1..][k] == orders[k + 1];
        IntersectNoneIff(lib, context, syncMap, orders[1..], files[1..], one.value.value);
        if exists k, j :: 0 <= k < |files| && 0 <= j < |orders[k]| && lib.matches(orders[k][j], lib.rel(context, files[k]).value) == Ok(false) {
          var k, j :| 0 <= k < |files| && 0 <= j < |orders[k]| && lib.matches(orders[k][j], lib.rel(context, files[k]).value) == Ok(false);
          if k == 0 {
            assert false;
          }
          assert files[1..][k - 1] == files[k] && orders[1..][k - 1] == orders[k];
        }
      }
    }
  }

  /** `latestTag`: the tag of the first build of `image`, or "" when there is none. */
  function LatestTag(image: string, builds: seq<Built>): (tag: string)
    ensures (forall i :: 0 <= i < |builds| ==> builds[i].imageName != image) ==> tag == ""
    ensures forall i :: (0 <= i < |builds| && builds[i].imageName == image
      && forall j :: 0 <= j < i ==> builds[j].imageName != image) ==> tag == builds[i].tag
  {
    if |builds| == 0 then ""
    else if builds[0].imageName == image then builds[0].tag
    else
      var t := LatestTag(image, builds[1..]);
      assert forall i :: 1 <= i < |builds| ==> builds[i] == builds[1..][i - 1];
      t
  }

  /** Orders that each list every key of a non-empty sync map stay within it and are non-empty. */
  lemma OrdersOfKeys(orders: seq<seq<string>>, syncMap: map<string, string>)
    requires |syncMap| > 0 && AreOrders(orders, syncMap.Keys)
    ensures Within(orders, syncMap) && NonEmpty(orders)
  {
    var p0 :| p0 in syncMap;
    forall k | 0 <= k < |orders| ensures |orders[k]| > 0 {
      assert p0 in orders[k];
    }
  }

  /**
   * `NewItem`: the sync item for an artifact's changes, None to ask for a
   * rebuild, or an error. The two `intersect` calls range over the sync map
   * independently: `copyOrders` has one order per added or modified file,
   * `deleteOrders` one per deleted file.
   */
  function NewItem(lib: PathLib, a: Artifact, copyOrders: seq<seq<string>>, deleteOrders: seq<seq<string>>,
                   e: Watch.Events, builds: seq<Built>): Result<Option<Item>>
    requires |copyOrders| == |e.added + e.modified| && AreOrders(copyOrders, a.sync.Keys)
    requires |deleteOrders| == |e.deleted| && AreOrders(deleteOrders, a.sync.Keys)
  {
    if !e.HasChanged() || |a.sync| == 0 then Ok(None)
    else
      OrdersOfKeys(copyOrders, a.sync);
      OrdersOfKeys(deleteOrders, a.sync);
      var toCopy := IntersectFrom(lib, a.workspace, a.sync, copyOrders, e.added + e.modified, map[]);
      if toCopy.Err? then Err(Wrap("intersecting sync map and added, modified files", toCopy.error))
      else
        var toDelete := IntersectFrom(lib, a.workspace, a.sync, deleteOrders, e.deleted, map[]);
        if toDelete.Err? then Err(Wrap("intersecting sync map and deleted files", toDelete.error))
        else if toCopy.value.None? || toDelete.value.None? then Ok(None)
        else
          var tag := LatestTag(a.imageName, builds);
          if tag == "" then Err("could not find latest tag for image " + a.imageName + " in builds: " + FormatBuilds(builds))
          else Ok(Some(Item(tag, toCopy.value.value, toDelete.value.value)))
  }

  /**
   * A successful intersection from an empty map: exactly the listed files,
   * each matched by every rule of the map whatever order was drawn for it.
   */
  lemma IntersectMatchesEveryRule(lib: PathLib, context: string, syncMap: map<string, string>, orders: seq<seq<string>>,
                                  files: seq<string>, m: map<string, string>)
    requires |syncMap| > 0 && |orders| == |files| && AreOrders(orders, syncMap.Keys)
    requires (OrdersOfKeys(orders, syncMap); IntersectFrom(lib, context, syncMap, orders, files, map[]) == Ok(Some(m)))
    ensures m.Keys == set f | f in files
    ensures forall f, p :: f in m && p in syncMap ==>
      lib.rel(context, f).Ok? && lib.matches(p, lib.rel(context, f).value) == Ok(true)
  {
    OrdersOfKeys(orders, syncMap);
    IntersectSome(lib, context, syncMap, orders, files, map[], m);
    forall f, p | f in m && p in syncMap
      ensures lib.rel(context, f).Ok? && lib.matches(p, lib.rel(context, f).value) == Ok(true)
    {
      var k :| 0 <= k < |files| && files[k] == f;
      assert p in orders[k];
      var j :| 0 <= j < |orders[k]| && orders[k][j] == p;
    }
  }

  /**
   * An item copies exactly the added and modified files and deletes exactly the
   * deleted ones, under the newest tag of the artifact's image; every such file
   * matched every sync pattern.
   */
  lemma NewItemCoversChanges(lib: PathLib, a: Artifact, copyOrders: seq<seq<string>>, deleteOrders: seq<seq<string>>,
                             e: Watch.Events, builds: seq<Built>, item: Item)
    requires |copyOrders| == |e.added + e.modified| && AreOrders(copyOrders, a.sync.Keys)
    requires |deleteOrders| == |e.deleted| && AreOrders(deleteOrders, a.sync.Keys)
    requires NewItem(lib, a, copyOrders, deleteOrders, e, builds) == Ok(Some(item))
    ensures e.HasChanged() && |a.sync| > 0
    ensures item.image == LatestTag(a.imageName, builds) && item.image != ""
    ensures item.copy.Keys == set f | f in e.added + e.modified
    ensures item.delete.Keys == set f | f in e.deleted
    ensures forall f, p :: f in item.copy && p in a.sync ==>
      lib.rel(a.workspace, f).Ok? && lib.matches(p, lib.rel(a.workspace, f).value) == Ok(true)
    ensures forall f, p :: f in item.delete && p in a.sync ==>
      lib.rel(a.workspace, f).Ok? && lib.matches(p, lib.rel(a.workspace, f).value) == Ok(true)
  {
    assert e.HasChanged() && |a.sync| > 0;
    OrdersOfKeys(copyOrders, a.sync);
    OrdersOfKeys(deleteOrders, a.sync);
    var toCopy := IntersectFrom(lib, a.workspace, a.sync, copyOrders, e.added + e.modified, map[]);
    var toDelete := IntersectFrom(lib, a.workspace, a.sync, deleteOrders, e.deleted, map[]);
    assert toCopy == Ok(Some(item.copy));
    assert toDelete == Ok(Some(item.delete));
    IntersectMatchesEveryRule(lib, a.workspace, a.sync, copyOrders, e.added + e.modified, item.copy);
    IntersectMatchesEveryRule(lib, a.workspace, a.sync, deleteOrders, e.deleted, item.delete);
  }

  /** No change, or no sync rules, never yields an item or an error. */
  lemma NothingToSync(lib: PathLib, a: Artifact, copyOrders: seq<seq<string>>, deleteOrders: seq<seq<string>>,
                      e: Watch.Events, builds: seq<Built>)
    requires |copyOrders| == |e.added + e.modified| && AreOrders(copyOrders, a.sync.Keys)
    requires |deleteOrders| == |e.deleted| && AreOrders(deleteOrders, a.sync.Keys)
    requires !e.HasChanged() || |a.sync| == 0
    ensures NewItem(lib, a, copyOrders, deleteOrders, e, builds) == Ok(None)
  {
  }

  /** A change with no deletions still syncs: an empty file list intersects to an empty map, not to None. */
  lemma EmptyFileListIntersects(lib: PathLib, context: string, syncMap: map<string, string>)
    ensures IntersectFrom(lib, context, syncMap, [], [], map[]) == Ok(Some(map[]))
  {
  }

  /**
   * Two files may end at different rules' destinations: with the rules `p`
   * and `q` both matching, the file ranged over in the order `[q, p]` goes to
   * `p`'s destination and the one ranged over in `[p, q]` to `q`'s.
   */
  lemma {:induction false} PerFileOrdersDiffer(lib: PathLib, context: string, syncMap: map<string, string>,
      p: string, q: string, x: string, y: string, m: map<string, string>)
    requires syncMap.Keys == {p, q} && p != q && x != y
    requires IntersectFrom(lib, context, syncMap, [[q, p], [p, q]], [x, y], map[]) == Ok(Some(m))
    ensures m.Keys == {x, y} && lib.rel(context, x).Ok? && lib.rel(context, y).Ok?
    ensures m[x] == Destination(lib, p, syncMap[p], lib.rel(context, x).value)
    ensures m[y] == Destination(lib, q, syncMap[q], lib.rel(context, y).value)
  {
    var orders := [[q, p], [p, q]];
    assert Within(orders, syncMap) && NonEmpty(orders);
    IntersectSome(lib, context, syncMap, orders, [x, y], map[], m);
    assert [x, y][0 + 1..] == [y] && [x, y][1 + 1..] == [];
    assert (set f | f in [x, y]) == {x, y};
  }
}
