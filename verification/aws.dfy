/**
 * The AWS Config scanner (aws/aws.go, `FilterLabels`): pages through the discovered resources of
 * each included type, fetches each resource's configuration, normalises its tags, and records the
 * resources that fail a label check under their listed resource type.
 *
 * The SDK is abstracted: for each resource type the list calls return, in order, a scripted
 * sequence of responses (a failure, or a page with an optional continuation token), and each
 * listed resource carries the outcome of its detail fetch.
 */
module Aws {
  import opened Wrappers
  import opened Label
  import opened FileIO

  // ---------------------------------------------------------------------------
  // The abstract SDK
  // ---------------------------------------------------------------------------

  /** One `{"key": …, "value": …}` dictionary of a configuration's `tags` array. */
  type TagEntry = map<string, string>

  /** What `BatchGetResourceConfig` and the decoding of its first item yield for one resource. */
  datatype DetailOutcome =
    | FetchFailed   // the call returned an error
    | NoItems       // `BaseConfigurationItems` was empty
    | Undecodable   // `json.Unmarshal` of the configuration failed
    | Item(tags: seq<TagEntry>, arn: Option<string>, itemType: Option<string>)

  /** One entry of `ResourceIdentifiers`, with the outcome of fetching its configuration. */
  datatype ResourceIdentifier = ResourceIdentifier(resourceType: string, resourceId: string, detail: DetailOutcome)

  /** A successful `ListDiscoveredResources` output. */
  datatype ListPage = ListPage(resourceIdentifiers: seq<ResourceIdentifier>, nextToken: Option<string>)

  /** The result of one `ListDiscoveredResources` call. */
  datatype ListResponse = ListFailed | Listed(page: ListPage)

  /** The `ListDiscoveredResourcesInput` sent with one call. */
  datatype ListInput = ListInput(resourceType: string, nextToken: Option<string>)

  /** The responses the list endpoint gives, call after call, for each resource type. */
  datatype ConfigService = ConfigService(responses: map<string, seq<ListResponse>>)

  /** A successful page without a continuation token: the last list call for a type. */
  predicate Terminal(response: ListResponse) {
    response.Listed? && response.page.nextToken.None?
  }

  /** The list calls for a type eventually reach a last page (finitely many failures and pages). */
  ghost predicate Terminates(script: seq<ListResponse>) {
    exists i :: 0 <= i < |script| && Terminal(script[i])
  }

  /** The responses for type `t`; a type the service does not know lists one empty last page. */
  function ResponsesFor(service: ConfigService, t: string): seq<ListResponse> {
    if t in service.responses then service.responses[t] else [Listed(ListPage([], None))]
  }

  ghost predicate WellFormed(service: ConfigService) {
    forall t :: t in service.responses ==> Terminates(service.responses[t])
  }

  lemma ResponsesForTerminate(service: ConfigService, t: string)
    requires WellFormed(service)
    ensures Terminates(ResponsesFor(service, t))
  {
    if t !in service.responses {
      assert Terminal(ResponsesFor(service, t)[0]);
    }
  }

  // ---------------------------------------------------------------------------
  // Tag normalisation
  // ---------------------------------------------------------------------------

  /** Reading `tag[name]` in Go: the value, or "" when the dictionary has no such entry. */
  function Field(tag: TagEntry, name: string): string
  {
    if name in tag then tag[name] else ""
  }

  /** An entry whose `"key"` and `"value"` are both present and non-empty. */
  predicate Complete(tag: TagEntry) {
    Field(tag, "key") != "" && Field(tag, "value") != ""
  }

  /** The tag map the normalisation loop builds: complete entries only, later entries overwriting. */
  function NormalizedTags(entries: seq<TagEntry>): Tags {
    if entries == [] then map[]
    else
      var prev := NormalizedTags(entries[..|entries| - 1]);
      var tag := entries[|entries| - 1];
      if Complete(tag) then prev[Field(tag, "key") := Field(tag, "value")] else prev
  }

  /** The inner loop over one dictionary: picks out its `"key"` and `"value"` entries, ignoring the rest. */
  method ReadTagEntry(tag: TagEntry) returns (tagKey: string, tagValue: string)
    ensures tagKey == Field(tag, "key") && tagValue == Field(tag, "value")
  {
    tagKey, tagValue := "", "";
    var rest := tag.Keys;
    while rest != {}
      invariant rest <= tag.Keys
      invariant tagKey == if "key" in tag && "key" !in rest then tag["key"] else ""
      invariant tagValue == if "value" in tag && "value" !in rest then tag["value"] else ""
      decreases rest
    {
      var prefix :| prefix in rest;
      var v := tag[prefix];
      if prefix == "key" {
        tagKey := v;
      } else if prefix == "value" {
        tagValue := v;
      }
      rest := rest - {prefix};
    }
  }

  /** The normalisation loop of `FilterLabels` over `cfg.Tags`. */
  method NormalizeTags(entries: seq<TagEntry>) returns (tags: Tags)
    ensures tags == NormalizedTags(entries)
  {
    tags := map[];
    for i := 0 to |entries|
      invariant tags == NormalizedTags(entries[..i])
    {
      var tagKey, tagValue := ReadTagEntry(entries[i]);
      if tagKey != "" && tagValue != "" {
        tags := tags[tagKey := tagValue];
      }
      assert entries[..i + 1][..i] == entries[..i];
    }
    assert entries[..|entries|] == entries;
  }

  /** A key is in the tag map exactly when some complete entry names it. */
  lemma {:induction false} NormalizedKeys(entries: seq<TagEntry>, k: string)
    ensures k in NormalizedTags(entries) <==>
      exists i :: 0 <= i < |entries| && Complete(entries[i]) && Field(entries[i], "key") == k
  {
    if entries != [] {
      var init := entries[..|entries| - 1];
      NormalizedKeys(init, k);
      if k in NormalizedTags(init) {
        var i :| 0 <= i < |init| && Complete(init[i]) && Field(init[i], "key") == k;
        assert entries[i] == init[i];
      }
      if exists i :: 0 <= i < |entries| && Complete(entries[i]) && Field(entries[i], "key") == k {
        var i :| 0 <= i < |entries| && Complete(entries[i]) && Field(entries[i], "key") == k;
        if i < |entries| - 1 { assert init[i] == entries[i]; }
      }
    }
  }

  /** When several complete entries share a key, the last of them gives the value. */
  lemma {:induction false} LastEntryWins(entries: seq<TagEntry>, i: nat)
    requires i < |entries| && Complete(entries[i])
    requires forall j :: i < j < |entries| && Complete(entries[j]) ==> Field(entries[j], "key") != Field(entries[i], "key")
    ensures Field(entries[i], "key") in NormalizedTags(entries)
    ensures NormalizedTags(entries)[Field(entries[i], "key")] == Field(entries[i], "value")
  {
    if i < |entries| - 1 {
      var init := entries[..|entries| - 1];
      assert init[i] == entries[i];
      LastEntryWins(init, i);
    }
  }

  /** Entries under names other than `"key"` and `"value"` never affect the tag map. */
  lemma {:induction false} OnlyKeyAndValueRead(a: seq<TagEntry>, b: seq<TagEntry>)
    requires |a| == |b|
    requires forall i :: 0 <= i < |a| ==> Field(a[i], "key") == Field(b[i], "key") && Field(a[i], "value") == Field(b[i], "value")
    ensures NormalizedTags(a) == NormalizedTags(b)
  {
    if a != [] {
      OnlyKeyAndValueRead(a[..|a| - 1], b[..|b| - 1]);
    }
  }

  /** `[{key: env, value: prod}, {key: owner}]` normalises to `{env: prod}`. */
  lemma NormalizeExample()
    ensures NormalizedTags([map["key" := "env", "value" := "prod"], map["key" := "owner"]]) == map["env" := "prod"]
  {
    var e1: TagEntry := map["key" := "env", "value" := "prod"];
    var e2: TagEntry := map["key" := "owner"];
    assert [e1, e2][..1] == [e1];
    assert [e1][..0] == [];
    assert !Complete(e2);
  }

  // ---------------------------------------------------------------------------
  // Evaluating and recording one listed resource
  // ---------------------------------------------------------------------------

  /** The resource's configuration was fetched and decoded, and carries an ARN and a type. */
  predicate Evaluated(r: ResourceIdentifier) {
    r.detail.Item? && r.detail.arn.Some? && r.detail.itemType.Some?
  }

  /** The effect of one listed resource on the two buckets, keyed by the listed resource type. */
  function Process(requiredLabels: seq<string>, bannedLabels: seq<string>, acc: Result, r: ResourceIdentifier): Result {
    if !Evaluated(r) then acc
    else
      var tags := NormalizedTags(r.detail.tags);
      var arn := r.detail.arn.value;
      Result(
        if CheckRequiredLabels(requiredLabels, tags) then acc.noRequiredLabelResources
        else Record(acc.noRequiredLabelResources, r.resourceType, arn),
        if CheckBannedLabels(bannedLabels, tags) then acc.bannedLabelResources
        else Record(acc.bannedLabelResources, r.resourceType, arn))
  }

  /** The effect of the resources `rs`, in order. */
  function ProcessAll(requiredLabels: seq<string>, bannedLabels: seq<string>, acc: Result, rs: seq<ResourceIdentifier>): Result {
    if rs == [] then acc
    else Process(requiredLabels, bannedLabels, ProcessAll(requiredLabels, bannedLabels, acc, rs[..|rs| - 1]), rs[|rs| - 1])
  }

  /** The body of the loop over `output.ResourceIdentifiers`. */
  method ProcessResource(requiredLabels: seq<string>, bannedLabels: seq<string>, r: ResourceIdentifier, acc: Result)
    returns (next: Result)
    ensures next == Process(requiredLabels, bannedLabels, acc, r)
  {
    next := acc;
    match r.detail
    case FetchFailed =>
    case NoItems =>
    case Undecodable =>
    case Item(entries, arn, itemType) =>
      var tags := NormalizeTags(entries);
      if arn.None? || itemType.None? {
        return;
      }
      if !CheckRequiredLabels(requiredLabels, tags) {
        next := next.(noRequiredLabelResources := next.noRequiredLabelResources[r.resourceType :=
          Lookup(next.noRequiredLabelResources, r.resourceType) + [arn.value]]);
      }
      if !CheckBannedLabels(bannedLabels, tags) {
        next := next.(bannedLabelResources := next.bannedLabelResources[r.resourceType :=
          Lookup(next.bannedLabelResources, r.resourceType) + [arn.value]]);
      }
  }

  // ---------------------------------------------------------------------------
  // Pagination
  // ---------------------------------------------------------------------------

  /** The resources of every successful page, in order, up to and including the last page. */
  function ListedResources(script: seq<ListResponse>): seq<ResourceIdentifier> {
    if script == [] then []
    else match script[0]
      case ListFailed => ListedResources(script[1..])
      case Listed(page) =>
        page.resourceIdentifiers + (if page.nextToken.None? then [] else ListedResources(script[1..]))
  }

  lemma {:induction false} ProcessAllConcat(req: seq<string>, ban: seq<string>, acc: Result, xs: seq<ResourceIdentifier>, ys: seq<ResourceIdentifier>)
    ensures ProcessAll(req, ban, acc, xs + ys) == ProcessAll(req, ban, ProcessAll(req, ban, acc, xs), ys)
    decreases |ys|
  {
    if ys == [] {
      assert xs + ys == xs;
    } else {
      assert (xs + ys)[..|xs + ys| - 1] == xs + ys[..|ys| - 1];
      ProcessAllConcat(req, ban, acc, xs, ys[..|ys| - 1]);
    }
  }

  /** The loop over `output.ResourceIdentifiers` of one page. */
  method ProcessPage(requiredLabels: seq<string>, bannedLabels: seq<string>, identifiers: seq<ResourceIdentifier>, acc: Result)
    returns (next: Result)
    ensures next == ProcessAll(requiredLabels, bannedLabels, acc, identifiers)
  {
    next := acc;
    for k := 0 to |identifiers|
      invariant next == ProcessAll(requiredLabels, bannedLabels, acc, identifiers[..k])
    {
      next := ProcessResource(requiredLabels, bannedLabels, identifiers[k], next);
      assert identifiers[..k + 1][..k] == identifiers[..k];
    }
    assert identifiers[..|identifiers|] == identifiers;
  }

  /** One step of `ListedResources`: what the responses from position `i` on contribute. */
  lemma ListedResourcesStep(script: seq<ListResponse>, i: nat)
    requires i < |script|
    ensures script[i].ListFailed? ==> ListedResources(script[i..]) == ListedResources(script[i + 1..])
    ensures Terminal(script[i]) ==> ListedResources(script[i..]) == script[i].page.resourceIdentifiers
    ensures script[i].Listed? && !Terminal(script[i]) ==>
      ListedResources(script[i..]) == script[i].page.resourceIdentifiers + ListedResources(script[i + 1..])
  {
    assert script[i..][0] == script[i];
    assert script[i..][1..] == script[i + 1..];
  }

  /** The input of the call after one that got `response`: the same on failure, else with the page's token. */
  function Follow(input: ListInput, response: ListResponse): ListInput {
    if response.ListFailed? then input else input.(nextToken := response.page.nextToken)
  }

  /** `requests` are the inputs of the first calls for type `t`, each following the response to the one before. */
  ghost predicate FollowsScript(t: string, requests: seq<ListInput>, script: seq<ListResponse>) {
    && |requests| <= |script|
    && (|requests| > 0 ==> requests[0] == ListInput(t, None))
    && forall j :: 0 <= j < |requests| - 1 ==> requests[j + 1] == Follow(requests[j], script[j])
  }

  /** The input of the next call after the calls `requests`. */
  function NextInput(t: string, requests: seq<ListInput>, script: seq<ListResponse>): ListInput
    requires |requests| <= |script|
  {
    if requests == [] then ListInput(t, None) else Follow(requests[|requests| - 1], script[|requests| - 1])
  }

  lemma FollowsScriptExtend(t: string, requests: seq<ListInput>, script: seq<ListResponse>)
    requires FollowsScript(t, requests, script) && |requests| < |script|
    ensures FollowsScript(t, requests + [NextInput(t, requests, script)], script)
  {
    var r := requests + [NextInput(t, requests, script)];
    forall j | 0 <= j < |r| - 1
      ensures r[j + 1] == Follow(r[j], script[j])
    {
      assert r[j] == requests[j];
    }
  }

  /** No call before position `i` got the last page, and some call from `i` on does. */
  ghost predicate LastPageAhead(script: seq<ListResponse>, i: nat) {
    && (forall j :: 0 <= j < i && j < |script| ==> !Terminal(script[j]))
    && exists j :: i <= j < |script| && Terminal(script[j])
  }

  /**
   * The state of the paging loop before call `i`: the calls so far followed the script, the last page
   * is still ahead, and processing what remains to be listed completes the whole listing.
   */
  ghost predicate ScanState(req: seq<string>, ban: seq<string>, t: string, script: seq<ListResponse>, acc: Result,
    i: nat, requests: seq<ListInput>, input: ListInput, next: Result)
  {
    && i < |script| && |requests| == i
    && LastPageAhead(script, i)
    && FollowsScript(t, requests, script) && input == NextInput(t, requests, script)
    && ProcessAll(req, ban, next, ListedResources(script[i..])) == ProcessAll(req, ban, acc, ListedResources(script))
  }

  /** A failed call is followed by the same input. */
  lemma ScanFailedStep(req: seq<string>, ban: seq<string>, t: string, script: seq<ListResponse>, acc: Result,
    i: nat, requests: seq<ListInput>, input: ListInput, next: Result)
    requires ScanState(req, ban, t, script, acc, i, requests, input, next) && script[i].ListFailed?
    ensures ScanState(req, ban, t, script, acc, i + 1, requests + [input], input, next)
  {
    FollowsScriptExtend(t, requests, script);
    ListedResourcesStep(script, i);
  }

  /** A page with a token is processed, and its token is sent next. */
  lemma ScanPageStep(req: seq<string>, ban: seq<string>, t: string, script: seq<ListResponse>, acc: Result,
    i: nat, requests: seq<ListInput>, input: ListInput, next: Result)
    requires ScanState(req, ban, t, script, acc, i, requests, input, next)
    requires script[i].Listed? && script[i].page.nextToken.Some?
    ensures ScanState(req, ban, t, script, acc, i + 1, requests + [input], input.(nextToken := script[i].page.nextToken),
      ProcessAll(req, ban, next, script[i].page.resourceIdentifiers))
  {
    FollowsScriptExtend(t, requests, script);
    ListedResourcesStep(script, i);
    ProcessAllConcat(req, ban, next, script[i].page.resourceIdentifiers, ListedResources(script[i + 1..]));
  }

  /** A page without a token is processed, and the listing is complete. */
  lemma ScanLastStep(req: seq<string>, ban: seq<string>, t: string, script: seq<ListResponse>, acc: Result,
    i: nat, requests: seq<ListInput>, input: ListInput, next: Result)
    requires ScanState(req, ban, t, script, acc, i, requests, input, next) && Terminal(script[i])
    ensures var log := requests + [input];
      && ProcessAll(req, ban, next, script[i].page.resourceIdentifiers) == ProcessAll(req, ban, acc, ListedResources(script))
      && 1 <= |log| <= |script|
      && Terminal(script[|log| - 1])
      && (forall j :: 0 <= j < |log| - 1 ==> !Terminal(script[j]))
      && log[0] == ListInput(t, None)
      && forall j :: 0 <= j < |log| - 1 ==> log[j + 1] == Follow(log[j], script[j])
  {
    FollowsScriptExtend(t, requests, script);
    ListedResourcesStep(script, i);
  }

  /**
   * The paging loop for one resource type: a failed call is re-issued with the same input, a
   * successful page is processed and its token followed, and the loop stops at the first page
   * without a token. Returns the buckets and the inputs of the list calls made.
   */
  method ScanType(requiredLabels: seq<string>, bannedLabels: seq<string>, t: string, script: seq<ListResponse>, acc: Result)
    returns (next: Result, requests: seq<ListInput>)
    requires Terminates(script)
    ensures next == ProcessAll(requiredLabels, bannedLabels, acc, ListedResources(script))
    ensures 1 <= |requests| <= |script|
    ensures Terminal(script[|requests| - 1])
    ensures forall j :: 0 <= j < |requests| - 1 ==> !Terminal(script[j])
    ensures requests[0] == ListInput(t, None)
    ensures forall j :: 0 <= j < |requests| - 1 ==> requests[j + 1] == Follow(requests[j], script[j])
  {
    var input := ListInput(t, None);
    next := acc;
    requests := [];
    var i := 0;
    while true
      invariant i < |script|
      invariant ScanState(requiredLabels, bannedLabels, t, script, acc, i, requests, input, next)
      decreases |script| - i
    {
      var response := script[i];
      if response.ListFailed? {
        ScanFailedStep(requiredLabels, bannedLabels, t, script, acc, i, requests, input, next);
        requests := requests + [input];
        i := i + 1;
        continue;
      }
      var processed := ProcessPage(requiredLabels, bannedLabels, response.page.resourceIdentifiers, next);
      if response.page.nextToken.Some? {
        ScanPageStep(requiredLabels, bannedLabels, t, script, acc, i, requests, input, next);
        requests := requests + [input];
        input := input.(nextToken := response.page.nextToken);
        next := processed;
        i := i + 1;
      } else {
        ScanLastStep(requiredLabels, bannedLabels, t, script, acc, i, requests, input, next);
        requests := requests + [input];
        next := processed;
        return;
      }
    }
  }

  // ---------------------------------------------------------------------------
  // FilterLabels
  // ---------------------------------------------------------------------------

  /** Every resource listed for the types `types`, type after type. */
  function AllListed(types: seq<string>, service: ConfigService): seq<ResourceIdentifier> {
    if types == [] then []
    else AllListed(types[..|types| - 1], service) + ListedResources(ResponsesFor(service, types[|types| - 1]))
  }

  /**
   * `FilterLabels`: loads the included types, required labels and banned labels (returning the
   * first lookup error), then scans the included types one after another.
   */
  method FilterLabels(data: ConfigData, service: ConfigService) returns (out: Outcome<Result>)
    requires WellFormed(service)
    ensures var included := GetStringCollection(data, "included-resources");
      var required := GetStringCollection(data, "required-labels");
      var banned := GetStringCollection(data, "banned-labels");
      if included.Err? then out == Err(included.error)
      else if required.Err? then out == Err(required.error)
      else if banned.Err? then out == Err(banned.error)
      else out == Ok(ProcessAll(required.value, banned.value, EmptyResult, AllListed(included.value, service)))
  {
    var includedResourceTypes := GetStringCollection(data, "included-resources");
    if includedResourceTypes.Err? {
      return Err(includedResourceTypes.error);
    }
    var requiredLabels := GetStringCollection(data, "required-labels");
    if requiredLabels.Err? {
      return Err(requiredLabels.error);
    }
    var bannedLabels := GetStringCollection(data, "banned-labels");
    if bannedLabels.Err? {
      return Err(bannedLabels.error);
    }
    var types := includedResourceTypes.value;
    var req, ban := requiredLabels.value, bannedLabels.value;
    var result := EmptyResult;
    for n := 0 to |types|
      invariant result == ProcessAll(req, ban, EmptyResult, AllListed(types[..n], service))
    {
      var script := ResponsesFor(service, types[n]);
      ResponsesForTerminate(service, types[n]);
      ProcessAllConcat(req, ban, EmptyResult, AllListed(types[..n], service), ListedResources(script));
      assert types[..n + 1][..n] == types[..n];
      var requests;
      result, requests := ScanType(req, ban, types[n], script, result);
    }
    assert types[..|types|] == types;
    return Ok(result);
  }

  // ---------------------------------------------------------------------------
  // What the buckets hold
  // ---------------------------------------------------------------------------

  /** The ARNs of the evaluated resources of type `k` that miss a required label, in listing order. */
  function MissingRequired(requiredLabels: seq<string>, rs: seq<ResourceIdentifier>, k: string): seq<string> {
    if rs == [] then []
    else
      var r := rs[|rs| - 1];
      MissingRequired(requiredLabels, rs[..|rs| - 1], k) +
        (if Evaluated(r) && r.resourceType == k && !CheckRequiredLabels(requiredLabels, NormalizedTags(r.detail.tags))
         then [r.detail.arn.value] else [])
  }

  /** The ARNs of the evaluated resources of type `k` that carry a banned label, in listing order. */
  function CarryingBanned(bannedLabels: seq<string>, rs: seq<ResourceIdentifier>, k: string): seq<string> {
    if rs == [] then []
    else
      var r := rs[|rs| - 1];
      CarryingBanned(bannedLabels, rs[..|rs| - 1], k) +
        (if Evaluated(r) && r.resourceType == k && !CheckBannedLabels(bannedLabels, NormalizedTags(r.detail.tags))
         then [r.detail.arn.value] else [])
  }

  /**
   * Starting from empty buckets, the bucket of type `k` holds exactly the ARNs of the evaluated
   * resources listed under `k` that fail the corresponding check, in listing order; every bucket
   * that exists is non-empty.
   */
  lemma {:induction false} BucketsHoldFailures(req: seq<string>, ban: seq<string>, rs: seq<ResourceIdentifier>, k: string)
    ensures var res := ProcessAll(req, ban, EmptyResult, rs);
      && Lookup(res.noRequiredLabelResources, k) == MissingRequired(req, rs, k)
      && Lookup(res.bannedLabelResources, k) == CarryingBanned(ban, rs, k)
      && NonEmptyBuckets(res.noRequiredLabelResources)
      && NonEmptyBuckets(res.bannedLabelResources)
  {
    if rs != [] {
      BucketsHoldFailures(req, ban, rs[..|rs| - 1], k);
      ProcessStep(req, ban, ProcessAll(req, ban, EmptyResult, rs[..|rs| - 1]), rs[|rs| - 1], k);
    }
  }

  /** One resource adds its ARN at the end of its type's bucket for each failed check, and changes nothing else. */
  lemma ProcessStep(req: seq<string>, ban: seq<string>, prev: Result, r: ResourceIdentifier, k: string)
    ensures var next := Process(req, ban, prev, r);
      var fails := Evaluated(r) && r.resourceType == k;
      var tags := if r.detail.Item? then NormalizedTags(r.detail.tags) else map[];
      && Lookup(next.noRequiredLabelResources, k) == Lookup(prev.noRequiredLabelResources, k) +
        (if fails && !CheckRequiredLabels(req, tags) then [r.detail.arn.value] else [])
      && Lookup(next.bannedLabelResources, k) == Lookup(prev.bannedLabelResources, k) +
        (if fails && !CheckBannedLabels(ban, tags) then [r.detail.arn.value] else [])
      && (NonEmptyBuckets(prev.noRequiredLabelResources) ==> NonEmptyBuckets(next.noRequiredLabelResources))
      && (NonEmptyBuckets(prev.bannedLabelResources) ==> NonEmptyBuckets(next.bannedLabelResources))
  {
    if Evaluated(r) {
      var arn := r.detail.arn.value;
      RecordLookup(prev.noRequiredLabelResources, r.resourceType, arn, k);
      RecordLookup(prev.bannedLabelResources, r.resourceType, arn, k);
      RecordExtends(prev.noRequiredLabelResources, r.resourceType, arn);
      RecordExtends(prev.bannedLabelResources, r.resourceType, arn);
    }
  }

  /** Processing more resources only appends: every existing bucket keeps its entries as a prefix. */
  lemma {:induction false} ProcessAllAppendsOnly(req: seq<string>, ban: seq<string>, acc: Result, rs: seq<ResourceIdentifier>)
    ensures Extends(acc.noRequiredLabelResources, ProcessAll(req, ban, acc, rs).noRequiredLabelResources)
    ensures Extends(acc.bannedLabelResources, ProcessAll(req, ban, acc, rs).bannedLabelResources)
  {
    if rs != [] {
      ProcessAllAppendsOnly(req, ban, acc, rs[..|rs| - 1]);
      var prev := ProcessAll(req, ban, acc, rs[..|rs| - 1]);
      var r := rs[|rs| - 1];
      if Evaluated(r) {
        var arn := r.detail.arn.value;
        RecordExtends(prev.noRequiredLabelResources, r.resourceType, arn);
        RecordExtends(prev.bannedLabelResources, r.resourceType, arn);
        ExtendsTransitive(acc.noRequiredLabelResources, prev.noRequiredLabelResources,
          Process(req, ban, prev, r).noRequiredLabelResources);
        ExtendsTransitive(acc.bannedLabelResources, prev.bannedLabelResources,
          Process(req, ban, prev, r).bannedLabelResources);
      }
    }
  }

  /** A resource whose detail fetch failed, returned no items, did not decode, or lacks an ARN or type is recorded nowhere. */
  lemma SkippedResourceIgnored(req: seq<string>, ban: seq<string>, acc: Result, r: ResourceIdentifier)
    requires r.detail.FetchFailed? || r.detail.NoItems? || r.detail.Undecodable?
      || (r.detail.Item? && (r.detail.arn.None? || r.detail.itemType.None?))
    ensures Process(req, ban, acc, r) == acc
  {
  }

  /**
   * Policy `required = ["env"]`, `banned = []`, and two resources of type `T`: `r1` with no tags
   * and `r2` tagged `env`. Only `r1` misses a required label; no resource carries a banned one.
   */
  lemma EndToEndExample()
    ensures var r1 := ResourceIdentifier("T", "id1", Item([], Some("r1"), Some("T")));
      var r2 := ResourceIdentifier("T", "id2", Item([map["key" := "env", "value" := "x"]], Some("r2"), Some("T")));
      ProcessAll(["env"], [], EmptyResult, [r1, r2]) == Result(map["T" := ["r1"]], map[])
  {
    var r1 := ResourceIdentifier("T", "id1", Item([], Some("r1"), Some("T")));
    var e: TagEntry := map["key" := "env", "value" := "x"];
    var r2 := ResourceIdentifier("T", "id2", Item([e], Some("r2"), Some("T")));
    assert [r1, r2][..1] == [r1];
    assert [r1][..0] == [];
    assert [e][..0] == [];
    assert NormalizedTags([e]) == map["env" := "x"];
    assert !CheckRequiredLabels(["env"], NormalizedTags([]));
    assert CheckRequiredLabels(["env"], map["env" := "x"]);
    var after1 := Result(map["T" := ["r1"]], map[]);
    var none: Buckets := map[];
    assert Lookup(none, "T") + ["r1"] == ["r1"];
    assert Record(none, "T", "r1") == map["T" := ["r1"]];
    assert ProcessAll(["env"], [], EmptyResult, [r1]) == after1;
    assert Process(["env"], [], after1, r2) == after1;
  }
}
