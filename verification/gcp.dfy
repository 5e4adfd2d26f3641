/**
 * The GCP Cloud Asset scanner (gcp/gcp.go, `FilterLabels`): drains the asset search iterator,
 * skips the excluded asset types, and records the assets that fail a label check.
 *
 * The code as written loads the banned list from the `required-labels` key and appends banned-label
 * failures to the required-label bucket; the model reproduces both. The definitions the code
 * evidently intended are given at the end of the module, next to the lemma that shows the
 * difference.
 */
module Gcp {
  import opened Wrappers
  import opened Label
  import opened FileIO

  // ---------------------------------------------------------------------------
  // The abstract asset search
  // ---------------------------------------------------------------------------

  /** One `ResourceSearchResult`: its asset type, its full resource name and its labels. */
  datatype Asset = Asset(assetType: string, name: string, labels: Tags)

  /** How the iterator ends once the assets are used up: `iterator.Done`, or an error. */
  datatype StreamEnd = Done | Failed(error: Error)

  /** What `SearchAllResources` yields: the assets in order, then its end. */
  datatype AssetStream = AssetStream(assets: seq<Asset>, end: StreamEnd)

  /** What one `it.Next()` returns. */
  datatype NextResult = Yielded(asset: Asset) | Finished | Failure(error: Error)

  /** The iterator returned by `SearchAllResources`; `pos` counts the assets already returned. */
  class AssetIterator {
    const assets: seq<Asset>
    const end: StreamEnd
    var pos: nat

    ghost predicate Valid()
      reads this
    {
      pos <= |assets|
    }

    constructor (stream: AssetStream)
      ensures Valid() && assets == stream.assets && end == stream.end && pos == 0
    {
      assets := stream.assets;
      end := stream.end;
      pos := 0;
    }

    /** The next asset; once they are used up, `Done` or the error, as often as it is called. */
    method Next() returns (r: NextResult)
      requires Valid()
      modifies this
      ensures Valid()
      ensures old(pos) < |assets| ==> r == Yielded(assets[old(pos)]) && pos == old(pos) + 1
      ensures old(pos) == |assets| ==> pos == old(pos) && r == (if end.Done? then Finished else Failure(end.error))
    {
      if pos < |assets| {
        r := Yielded(assets[pos]);
        pos := pos + 1;
      } else if end.Done? {
        r := Finished;
      } else {
        r := Failure(end.error);
      }
    }
  }

  // ---------------------------------------------------------------------------
  // The exclusion set
  // ---------------------------------------------------------------------------

  /** Reading `m[t]` from a `map[string]bool` in Go: false when `t` is absent. */
  function IsExcluded(m: map<string, bool>, t: string): bool
  {
    if t in m then m[t] else false
  }

  /** The loop that fills `excludedAssetTypesMap`: a type is excluded exactly when it is listed. */
  method BuildExcludedSet(types: seq<string>) returns (m: map<string, bool>)
    ensures m.Keys == set t | t in types
    ensures forall t :: IsExcluded(m, t) <==> t in types
  {
    m := map[];
    for i := 0 to |types|
      invariant m.Keys == set t | t in types[..i]
      invariant forall t :: t in m ==> m[t]
    {
      assert types[..i + 1] == types[..i] + [types[i]];
      m := m[types[i] := true];
    }
    assert types[..|types|] == types;
  }

  // ---------------------------------------------------------------------------
  // Recording one asset, as written
  // ---------------------------------------------------------------------------

  /**
   * The loop body of `FilterLabels` as written: an excluded asset is skipped; otherwise its name is
   * appended to the required-label bucket of its type once if it misses a required label, and once
   * more if it carries a banned label.
   */
  function Process(requiredLabels: seq<string>, bannedLabels: seq<string>, excluded: seq<string>, acc: Buckets, a: Asset): Buckets {
    if a.assetType in excluded then acc
    else
      var afterRequired := if CheckRequiredLabels(requiredLabels, a.labels) then acc else Record(acc, a.assetType, a.name);
      if CheckBannedLabels(bannedLabels, a.labels) then afterRequired else Record(afterRequired, a.assetType, a.name)
  }

  /** The effect of the assets `as`, in iterator order. */
  function ProcessAll(requiredLabels: seq<string>, bannedLabels: seq<string>, excluded: seq<string>, acc: Buckets, assets: seq<Asset>): Buckets {
    if assets == [] then acc
    else Process(requiredLabels, bannedLabels, excluded, ProcessAll(requiredLabels, bannedLabels, excluded, acc, assets[..|assets| - 1]), assets[|assets| - 1])
  }

  /** The loop body of `FilterLabels`, with the excluded types read from `excludedAssetTypesMap`. */
  method ProcessAsset(requiredLabels: seq<string>, bannedLabels: seq<string>, excludedMap: map<string, bool>, ghost excluded: seq<string>,
    acc: Buckets, asset: Asset) returns (next: Buckets)
    requires forall t :: IsExcluded(excludedMap, t) <==> t in excluded
    ensures next == Process(requiredLabels, bannedLabels, excluded, acc, asset)
  {
    next := acc;
    if IsExcluded(excludedMap, asset.assetType) {
      return;
    }
    if !CheckRequiredLabels(requiredLabels, asset.labels) {
      next := Record(next, asset.assetType, asset.name);
    }
    assert next == if CheckRequiredLabels(requiredLabels, asset.labels) then acc else Record(acc, asset.assetType, asset.name);
    if !CheckBannedLabels(bannedLabels, asset.labels) {
      next := Record(next, asset.assetType, asset.name);
    }
  }

  /**
   * `FilterLabels` as written: loads the excluded types (returning a lookup error), starts the search,
   * loads the required labels and, again from `required-labels`, the banned labels; then drains the
   * iterator, returning its error if it fails, and otherwise the required-label buckets and an empty
   * banned-label map.
   */
  method FilterLabels(data: ConfigData, stream: AssetStream) returns (out: Outcome<Result>)
    ensures var excluded := GetStringCollection(data, "excluded-resources");
      var required := GetStringCollection(data, "required-labels");
      if excluded.Err? then out == Err(excluded.error)
      else if required.Err? then out == Err(required.error)
      else if stream.end.Failed? then out == Err(stream.end.error)
      else out == Ok(Result(ProcessAll(required.value, required.value, excluded.value, map[], stream.assets), map[]))
    ensures out.Ok? ==> out.value.bannedLabelResources == map[]
  {
    var excludedAssetTypes := GetStringCollection(data, "excluded-resources");
    if excludedAssetTypes.Err? {
      return Err(excludedAssetTypes.error);
    }
    var excludedAssetTypesMap := BuildExcludedSet(excludedAssetTypes.value);
    var it := new AssetIterator(stream);
    var requiredLabels := GetStringCollection(data, "required-labels");
    if requiredLabels.Err? {
      return Err(requiredLabels.error);
    }
    var bannedLabels: seq<string>;
    match GetStringCollection(data, "required-labels") {
      case Err(e) => return Err(e);
      case Ok(labels) => bannedLabels := labels;
    }
    var noRequiredLabelResources := Drain(it, requiredLabels.value, bannedLabels, excludedAssetTypesMap, excludedAssetTypes.value);
    if noRequiredLabelResources.Err? {
      return Err(noRequiredLabelResources.error);
    }
    var bannedLabelResources: Buckets := map[];
    return Ok(Result(noRequiredLabelResources.value, bannedLabelResources));
  }

  /**
   * The loop of `FilterLabels` over `it.Next()`: the required-label buckets once the iterator is
   * done, or the iterator's error.
   */
  method Drain(it: AssetIterator, requiredLabels: seq<string>, bannedLabels: seq<string>, excludedMap: map<string, bool>, ghost excluded: seq<string>)
    returns (out: Outcome<Buckets>)
    requires it.Valid() && it.pos == 0
    requires forall t :: IsExcluded(excludedMap, t) <==> t in excluded
    modifies it
    ensures it.end.Failed? ==> out == Err(it.end.error)
    ensures it.end.Done? ==> out == Ok(ProcessAll(requiredLabels, bannedLabels, excluded, map[], it.assets))
    ensures it.Valid() && it.pos == |it.assets|
  {
    var noRequiredLabelResources: Buckets := map[];
    while true
      invariant it.Valid()
      invariant noRequiredLabelResources == ProcessAll(requiredLabels, bannedLabels, excluded, map[], it.assets[..it.pos])
      decreases |it.assets| - it.pos
    {
      var resp := it.Next();
      match resp {
        case Finished =>
          break;
        case Failure(e) =>
          return Err(e);
        case Yielded(asset) =>
          assert it.assets[..it.pos] == it.assets[..it.pos - 1] + [asset];
          noRequiredLabelResources := ProcessAsset(requiredLabels, bannedLabels, excludedMap, excluded, noRequiredLabelResources, asset);
      }
    }
    assert it.assets[..it.pos] == it.assets;
    return Ok(noRequiredLabelResources);
  }

  // ---------------------------------------------------------------------------
  // What the buckets hold, as written
  // ---------------------------------------------------------------------------

  /** The copies of an asset's name that the loop body appends: one per failed check. */
  function Copies(requiredLabels: seq<string>, bannedLabels: seq<string>, excluded: seq<string>, a: Asset): seq<string> {
    if a.assetType in excluded then []
    else
      (if CheckRequiredLabels(requiredLabels, a.labels) then [] else [a.name]) +
      (if CheckBannedLabels(bannedLabels, a.labels) then [] else [a.name])
  }

  /** The names recorded under type `k` for the assets `as`, in iterator order. */
  function Recorded(requiredLabels: seq<string>, bannedLabels: seq<string>, excluded: seq<string>, assets: seq<Asset>, k: string): seq<string> {
    if assets == [] then []
    else
      var a := assets[|assets| - 1];
      Recorded(requiredLabels, bannedLabels, excluded, assets[..|assets| - 1], k) +
        (if a.assetType == k then Copies(requiredLabels, bannedLabels, excluded, a) else [])
  }

  /**
   * Starting from empty buckets, the bucket of type `k` holds, asset by asset in iterator order, one
   * copy of the name per failed check; every bucket that exists is non-empty.
   */
  lemma {:induction false} BucketsHoldFailures(req: seq<string>, ban: seq<string>, ex: seq<string>, assets: seq<Asset>, k: string)
    ensures Lookup(ProcessAll(req, ban, ex, map[], assets), k) == Recorded(req, ban, ex, assets, k)
    ensures NonEmptyBuckets(ProcessAll(req, ban, ex, map[], assets))
  {
    if assets != [] {
      var init := assets[..|assets| - 1];
      BucketsHoldFailures(req, ban, ex, init, k);
      ProcessStep(req, ban, ex, ProcessAll(req, ban, ex, map[], init), assets[|assets| - 1], k);
      ProcessKeepsNonEmpty(req, ban, ex, ProcessAll(req, ban, ex, map[], init), assets[|assets| - 1]);
    }
  }

  /** One asset adds its copies at the end of its own bucket and changes no other bucket. */
  lemma ProcessStep(req: seq<string>, ban: seq<string>, ex: seq<string>, prev: Buckets, a: Asset, k: string)
    ensures Lookup(Process(req, ban, ex, prev, a), k) == Lookup(prev, k) + (if a.assetType == k then Copies(req, ban, ex, a) else [])
  {
    if a.assetType !in ex {
      var t := a.assetType;
      var mid := if CheckRequiredLabels(req, a.labels) then prev else Record(prev, t, a.name);
      RecordLookup(prev, t, a.name, k);
      RecordLookup(mid, t, a.name, k);
    }
  }

  /** One asset creates no empty bucket. */
  lemma ProcessKeepsNonEmpty(req: seq<string>, ban: seq<string>, ex: seq<string>, prev: Buckets, a: Asset)
    requires NonEmptyBuckets(prev)
    ensures NonEmptyBuckets(Process(req, ban, ex, prev, a))
  {
    if a.assetType !in ex {
      var mid := if CheckRequiredLabels(req, a.labels) then prev else Record(prev, a.assetType, a.name);
      RecordExtends(prev, a.assetType, a.name);
      RecordExtends(mid, a.assetType, a.name);
    }
  }

  /** An asset whose type is excluded is recorded nowhere. */
  lemma ExcludedAssetIgnored(req: seq<string>, ban: seq<string>, ex: seq<string>, acc: Buckets, a: Asset)
    requires a.assetType in ex
    ensures Process(req, ban, ex, acc, a) == acc
  {
  }

  /** An asset failing both checks is appended twice in a row under its type. */
  lemma BothFailuresAppendTwice(req: seq<string>, ban: seq<string>, ex: seq<string>, acc: Buckets, a: Asset)
    requires a.assetType !in ex
    requires !CheckRequiredLabels(req, a.labels) && !CheckBannedLabels(ban, a.labels)
    ensures Process(req, ban, ex, acc, a) == acc[a.assetType := Lookup(acc, a.assetType) + [a.name, a.name]]
  {
    var once := Record(acc, a.assetType, a.name);
    assert Lookup(once, a.assetType) + [a.name] == Lookup(acc, a.assetType) + [a.name, a.name];
  }

  /** Processing more assets only appends: every existing bucket keeps its entries as a prefix. */
  lemma {:induction false} ProcessAllAppendsOnly(req: seq<string>, ban: seq<string>, ex: seq<string>, acc: Buckets, assets: seq<Asset>)
    ensures Extends(acc, ProcessAll(req, ban, ex, acc, assets))
  {
    if assets != [] {
      var init := assets[..|assets| - 1];
      ProcessAllAppendsOnly(req, ban, ex, acc, init);
      var prev := ProcessAll(req, ban, ex, acc, init);
      var a := assets[|assets| - 1];
      if a.assetType !in ex {
        var mid := if CheckRequiredLabels(req, a.labels) then prev else Record(prev, a.assetType, a.name);
        RecordExtends(prev, a.assetType, a.name);
        RecordExtends(mid, a.assetType, a.name);
        ExtendsTransitive(acc, prev, mid);
        ExtendsTransitive(acc, mid, Process(req, ban, ex, prev, a));
      }
    }
  }

  // ---------------------------------------------------------------------------
  // The banned list read from `required-labels`
  // ---------------------------------------------------------------------------

  /**
   * With the banned list equal to a non-empty required list, every asset that is not excluded is
   * recorded at least once: either it misses a required label, or it carries all of them and so
   * carries a "banned" one.
   */
  lemma EveryAssetRecorded(req: seq<string>, ex: seq<string>, a: Asset)
    requires |req| > 0 && a.assetType !in ex
    ensures |Copies(req, req, ex, a)| >= 1
  {
    if CheckRequiredLabels(req, a.labels) {
      assert req[0] in a.labels;
    }
  }

  /** A fully compliant asset, tagged `env` under the policy `required = ["env"]`, is still reported. */
  lemma CompliantAssetReported()
    ensures var a := Asset("compute.googleapis.com/Instance", "vm-1", map["env" := "prod"]);
      ProcessAll(["env"], ["env"], [], map[], [a]) == map["compute.googleapis.com/Instance" := ["vm-1"]]
  {
    var a := Asset("compute.googleapis.com/Instance", "vm-1", map["env" := "prod"]);
    assert [a][..0] == [];
    assert CheckRequiredLabels(["env"], a.labels);
    assert !CheckBannedLabels(["env"], a.labels);
    var none: Buckets := map[];
    assert Lookup(none, a.assetType) + [a.name] == ["vm-1"];
  }

  // ---------------------------------------------------------------------------
  // The intended behaviour
  // ---------------------------------------------------------------------------

  /** The loop body as intended: banned-label failures go to the banned-label bucket. */
  function ProcessIntended(requiredLabels: seq<string>, bannedLabels: seq<string>, excluded: seq<string>, acc: Result, a: Asset): Result {
    if a.assetType in excluded then acc
    else
      Result(
        if CheckRequiredLabels(requiredLabels, a.labels) then acc.noRequiredLabelResources
        else Record(acc.noRequiredLabelResources, a.assetType, a.name),
        if CheckBannedLabels(bannedLabels, a.labels) then acc.bannedLabelResources
        else Record(acc.bannedLabelResources, a.assetType, a.name))
  }

  function ProcessAllIntended(requiredLabels: seq<string>, bannedLabels: seq<string>, excluded: seq<string>, acc: Result, assets: seq<Asset>): Result {
    if assets == [] then acc
    else ProcessIntended(requiredLabels, bannedLabels, excluded,
      ProcessAllIntended(requiredLabels, bannedLabels, excluded, acc, assets[..|assets| - 1]), assets[|assets| - 1])
  }

  /**
   * The result `FilterLabels` evidently means to return: the banned list read from `banned-labels`,
   * banned-label failures in their own buckets.
   */
  function FilterLabelsIntended(data: ConfigData, stream: AssetStream): Outcome<Result> {
    var excluded := GetStringCollection(data, "excluded-resources");
    var required := GetStringCollection(data, "required-labels");
    var banned := GetStringCollection(data, "banned-labels");
    if excluded.Err? then Err(excluded.error)
    else if required.Err? then Err(required.error)
    else if banned.Err? then Err(banned.error)
    else if stream.end.Failed? then Err(stream.end.error)
    else Ok(ProcessAllIntended(required.value, banned.value, excluded.value, EmptyResult, stream.assets))
  }

  /** The names of the non-excluded assets of type `k` that miss a required label, in order. */
  function MissingRequired(requiredLabels: seq<string>, excluded: seq<string>, assets: seq<Asset>, k: string): seq<string> {
    if assets == [] then []
    else
      var a := assets[|assets| - 1];
      MissingRequired(requiredLabels, excluded, assets[..|assets| - 1], k) +
        (if a.assetType == k && a.assetType !in excluded && !CheckRequiredLabels(requiredLabels, a.labels) then [a.name] else [])
  }

  /** The names of the non-excluded assets of type `k` that carry a banned label, in order. */
  function CarryingBanned(bannedLabels: seq<string>, excluded: seq<string>, assets: seq<Asset>, k: string): seq<string> {
    if assets == [] then []
    else
      var a := assets[|assets| - 1];
      CarryingBanned(bannedLabels, excluded, assets[..|assets| - 1], k) +
        (if a.assetType == k && a.assetType !in excluded && !CheckBannedLabels(bannedLabels, a.labels) then [a.name] else [])
  }

  /**
   * Under the intended definition each bucket of type `k` holds exactly the names of the
   * non-excluded assets of that type failing its own check, once each, in iterator order.
   */
  lemma {:induction false} IntendedBucketsHoldFailures(req: seq<string>, ban: seq<string>, ex: seq<string>, assets: seq<Asset>, k: string)
    ensures var res := ProcessAllIntended(req, ban, ex, EmptyResult, assets);
      && Lookup(res.noRequiredLabelResources, k) == MissingRequired(req, ex, assets, k)
      && Lookup(res.bannedLabelResources, k) == CarryingBanned(ban, ex, assets, k)
  {
    if assets != [] {
      IntendedBucketsHoldFailures(req, ban, ex, assets[..|assets| - 1], k);
    }
  }

  /** Under the intended definition a compliant asset is recorded in neither bucket. */
  lemma IntendedCompliantUnreported(req: seq<string>, ban: seq<string>, ex: seq<string>, acc: Result, a: Asset)
    requires CheckRequiredLabels(req, a.labels) && CheckBannedLabels(ban, a.labels)
    ensures ProcessIntended(req, ban, ex, acc, a) == acc
  {
  }

  /** The compliant asset of `CompliantAssetReported` is reported nowhere under the intended definition. */
  lemma IntendedCompliantExample()
    ensures var a := Asset("compute.googleapis.com/Instance", "vm-1", map["env" := "prod"]);
      var data := Parsed(map["excluded-resources" := [], "required-labels" := ["env"], "banned-labels" := []]);
      FilterLabelsIntended(data, AssetStream([a], Done)) == Ok(EmptyResult)
  {
    var a := Asset("compute.googleapis.com/Instance", "vm-1", map["env" := "prod"]);
    assert [a][..0] == [];
    assert CheckRequiredLabels(["env"], a.labels);
  }
}
