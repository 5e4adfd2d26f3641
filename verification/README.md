# resource-label-checker, modelled in Dafny

resource-label-checker scans the resources of a cloud account and finds those that break a label
policy. A resource breaks the policy when it misses a *required* label or carries a *banned* one.
The failing resources are grouped by resource type into a `Result` with two buckets. The result is
rendered into two Slack texts and written to per-type CSV files.

This project models the core of that pipeline:

- `Label` (label.dfy): the two label predicates, the `Result` record, and the Go idioms used on a
  bucket map. A read of an absent key yields the nil slice (`Lookup`), and `append` goes through
  that read (`Record`).
- `Aws` (aws.dfy): the AWS Config scanner. It pages through the listed resources of each included
  type and fetches each resource's configuration. It normalises the `{"key", "value"}` tag
  dictionaries into a tag map, skips the resources it cannot evaluate, and records the failures.
  The SDK is a script: for each type, the responses the list endpoint gives call after call. Each
  listed resource carries the outcome of its detail fetch.
- `Gcp` (gcp.dfy): the Cloud Asset scanner. It builds the exclusion set, then drains the search
  iterator. `AssetIterator` is a class whose `Next` advances through a sequence of assets and then
  returns `Done` or an error. The scanner is modelled as written, including its two defects; see
  Findings.
- `Message` (message.dfy): the main text (date, scope, number of resources missing a required label)
  and the thread text (every resource type, in ascending order, followed by its identifiers).
- `StringOrder` (stringorder.dfy): the order `sort.Strings` uses, and an in-place insertion sort on
  an array that stands for it. Go compares strings by their UTF-8 bytes. That order is the same as
  comparing code points, so `LessEq` compares Dafny `char`s.
- `FileIO` (fileio.dfy): what `GetStringCollection` returns for a key, the CSV file name and path,
  the rows of a CSV file, and the extension filter of the zip step.
- `Wrappers` (wrappers.dfy): `Option`, and `Outcome` with the error kinds.

Each imperative routine is a method proved against a specification function. For example,
`FilterLabels` is proved to return `ProcessAll` of everything listed, and `GetThreadMessageText`
is proved to return `ThreadText`. The lemmas state the promised properties of those functions.

Behaviours of the code worth knowing before reading the model:

- In the AWS scan, a resource whose configuration does not decode is skipped (aws/aws.go:115-118;
  the TODO at aws/aws.go:114 leaves this open).
- In the AWS scan, a detail fetch that fails is not retried; the resource is skipped
  (aws/aws.go:102-106). Only the list call is retried (aws/aws.go:87-91).
- `CheckRequiredLabels` is false for an empty tag map, even when the required list is empty.

## Model

| member | source | states |
|---|---|---|
| Label.Record | aws/aws.go:141-146 | appending creates the bucket if needed and adds the identifier at its end; every other bucket is unchanged |
| Label.RecordExtends | gcp/gcp.go:85-90 | an append keeps every existing bucket as a prefix and creates no empty bucket |
| Label.RecordLookup | aws/aws.go:142 | after an append, the appended identifier is at the end of its own bucket and every other bucket reads as before |
| Label.AllPresent | label/label.go:64-69 | the loop over the required labels finds none missing iff every label is a key of the tag map |
| Label.NonePresent | label/label.go:76-81 | the loop over the banned labels finds none present iff no label is a key of the tag map |
| Label.CheckRequiredLabels | label/label.go:60-70 | false for an empty tag map; otherwise true iff every required label is a key |
| Label.CheckBannedLabels | label/label.go:72-82 | true for an empty banned list; true iff no banned label is a key |
| Label.OnlyKeysMatter | label/label.go:60-82 | two tag maps with the same keys give the same answer to both predicates, whatever their values |
| Label.SameLabelSet | label/label.go:60-82 | reordering or duplicating the label list changes neither predicate |
| Label.MoreTagsMonotone | label/label.go:60-82 | adding keys can only turn the required check from false to true and the banned check from true to false |
| Aws.ReadTagEntry | aws/aws.go:122-129 | the loop over one dictionary, in any map order, yields its "key" and "value" entries |
| Aws.NormalizeTags | aws/aws.go:120-133 | the normalisation loop builds `NormalizedTags` of the entries |
| Aws.NormalizedKeys | aws/aws.go:130-131 | a key is in the tag map iff some entry with a non-empty key and a non-empty value names it |
| Aws.LastEntryWins | aws/aws.go:131 | among complete entries with the same key, the last one gives the value |
| Aws.OnlyKeyAndValueRead | aws/aws.go:123-129 | entries under names other than "key" and "value" never change the tag map |
| Aws.NormalizeExample | aws/aws.go:120-133 | `[{key: env, value: prod}, {key: owner}]` normalises to `{env: prod}` |
| Aws.ProcessResource | aws/aws.go:102-146 | one listed resource is recorded as `Process` says: skipped unless fetched, decoded and carrying an ARN and a type; otherwise its ARN is appended per failed check under the listed type |
| Aws.SkippedResourceIgnored | aws/aws.go:102-139 | a fetch error, no items, a decode error, a missing ARN or a missing type leaves both buckets unchanged |
| Aws.ProcessPage | aws/aws.go:92-148 | the resources of one page are processed once each, in order |
| Aws.ProcessAllConcat | aws/aws.go:92-148 | processing two runs of resources one after the other is processing their concatenation |
| Aws.ListedResourcesStep | aws/aws.go:86-154 | a failed call contributes nothing, a page with a token contributes its resources and then the rest, and a page without a token ends the listing |
| Aws.FollowsScriptExtend | aws/aws.go:87-91 | the log of list inputs stays consistent when the next input is sent |
| Aws.ScanFailedStep | aws/aws.go:87-91 | after a failed list call the same input is sent again and nothing is processed |
| Aws.ScanPageStep | aws/aws.go:92-150 | a page with a token is processed once and its token is sent with the next call |
| Aws.ScanLastStep | aws/aws.go:149-153 | a page without a token is processed and ends the paging loop with the whole listing processed |
| Aws.ScanType | aws/aws.go:82-154 | the paging loop: the first input has no token, a failed call re-sends the same input, a page's token is sent next, the loop stops exactly at the first page without a token, and the buckets are `ProcessAll` of all resources listed up to there |
| Aws.ResponsesForTerminate | aws/aws.go:86-154 | every type has a last page to reach |
| Aws.FilterLabels | aws/aws.go:59-162 | the included-types, required-labels and banned-labels lookup errors are returned in that order; otherwise the result is `ProcessAll` of every type's resources, type after type |
| Aws.BucketsHoldFailures | aws/aws.go:141-146 | from empty buckets, the bucket of type k holds exactly the ARNs of the evaluated type-k resources that fail that bucket's check, in listing order; no bucket is empty |
| Aws.ProcessStep | aws/aws.go:141-146 | one resource appends its ARN at the end of its listed type's bucket for each failed check and creates no empty bucket |
| Aws.ProcessAllAppendsOnly | aws/aws.go:142-145 | processing only appends: earlier entries and their order are never changed |
| Aws.EndToEndExample | aws/aws.go:136-146 | with required `[env]`, an untagged resource is recorded and a resource tagged `env` is not |
| Gcp.AssetIterator.Next | gcp/gcp.go:73-79 | returns the assets in order, then `Done` or the error every time after |
| Gcp.BuildExcludedSet | gcp/gcp.go:50-53 | the map's keys are the listed types, and a type is excluded iff it is listed |
| Gcp.ProcessAsset | gcp/gcp.go:81-90 | the loop body does what `Process` says: skip an excluded type, else append the name under its type once per failed check |
| Gcp.Drain | gcp/gcp.go:72-91 | drains the iterator: its error if it fails, else `ProcessAll` of all its assets; either way the iterator ends with every asset returned |
| Gcp.FilterLabels | gcp/gcp.go:45-98 | the excluded-types and required-labels lookup errors are returned in that order; an iterator error is returned; otherwise the required-label buckets are `ProcessAll` with the required list used as the banned list, and the banned-label map is empty |
| Gcp.BucketsHoldFailures | gcp/gcp.go:72-91 | from empty buckets, the bucket of type k holds, asset by asset in iterator order, one copy of the name per failed check; no bucket is empty |
| Gcp.ProcessStep | gcp/gcp.go:81-90 | one asset appends its name at the end of its type's bucket once per failed check, and nothing else |
| Gcp.ProcessKeepsNonEmpty | gcp/gcp.go:85-90 | one asset creates no empty bucket |
| Gcp.ExcludedAssetIgnored | gcp/gcp.go:81-83 | an asset of an excluded type is recorded nowhere |
| Gcp.BothFailuresAppendTwice | gcp/gcp.go:85-90 | an asset failing both checks is appended twice in a row under its type |
| Gcp.ProcessAllAppendsOnly | gcp/gcp.go:72-91 | processing only appends: earlier entries are never changed |
| Gcp.EveryAssetRecorded | gcp/gcp.go:61-68 | with the banned list equal to a non-empty required list, every asset that is not excluded is recorded at least once |
| Gcp.CompliantAssetReported | gcp/gcp.go:65 | an asset tagged `env` under required `[env]` is still reported in the required-label bucket |
| Gcp.IntendedBucketsHoldFailures | gcp/gcp.go:85-90 | in the corrected definition, each bucket holds exactly the failures of its own check, once each, in order |
| Gcp.IntendedCompliantUnreported | gcp/gcp.go:85-90 | in the corrected definition, an asset passing both checks is recorded nowhere |
| Gcp.IntendedCompliantExample | gcp/gcp.go:65 | the asset of `CompliantAssetReported` gives an empty result in the corrected definition |
| Message.NatToString | label/message.go:23 | `%d` of a count: non-empty, all digits, no leading zero |
| Message.DecimalRoundTrip | label/message.go:23 | the printed count reads back as the count |
| Message.GetMainMessageText | label/message.go:15-27 | the heading with date and scope, then the sum of the required-label bucket lengths, summed in any map order |
| Message.CountInRemove | label/message.go:19-22 | the count does not depend on which bucket is added first |
| Message.SumLengthsAnyOrder | label/message.go:19-22 | summing the bucket lengths over any listing of the types, each once, gives the same total |
| Message.RecordCountsOne | label/message.go:19-22 | each recorded identifier adds exactly one to the count |
| Message.EmptyCountIsZero | label/message.go:19-22 | no buckets count zero |
| Message.CollectKeys | label/message.go:33-36 | the collected keys are the map's types, each once |
| Message.SortedKeysOf | label/message.go:33-37 | the collected keys come out in ascending order, each type once |
| Message.SortedKeys | label/message.go:37 | the ascending listing of a set of types holds each type exactly once |
| Message.SortedKeysOnce | label/message.go:33-39 | each type appears in the thread listing exactly once, and nothing else does |
| Message.ThreadTextFromSorted | label/message.go:37-42 | any ascending listing of the types, each once, yields the same thread text |
| Message.GetThreadMessageText | label/message.go:30-46 | the fixed header, then for each type in ascending order its heading line and its identifiers joined by newlines, in stored order |
| Message.MainTextStartsWithScope | label/message.go:16 | the main message starts with the date, and the scope follows " の *" |
| Message.MessagesIgnoreBanned | label/message.go:18-43 | the banned-label buckets change neither message |
| Message.EmptyResultMessages | label/message.go:19-43 | an empty result gives the bare header as thread text and a count of zero |
| StringOrder.LessEqTotal | label/message.go:37 | any two strings are comparable |
| StringOrder.LessEqTransitive | label/message.go:37 | the order is transitive |
| StringOrder.LessEqAntisymmetric | label/message.go:37 | strings that are each at most the other are equal |
| StringOrder.SortedUnique | label/message.go:37 | two ascending sequences with the same elements are equal, so the sorted listing is unique |
| StringOrder.Insert | label/message.go:37 | inserting one cell keeps the prefix ascending and the contents a permutation |
| StringOrder.SortStrings | label/message.go:37 | `sort.Strings` leaves the array ascending and a permutation of what it held |
| FileIO.GetStringCollection | fileio/fileio.go:18-29 | a parse failure is an error; a missing key is a "no such key" error; otherwise exactly the bound sequence |
| FileIO.SanitizeFileName | fileio/fileio.go:102 | the file name has no `/` and no `::` |
| FileIO.SanitizeAwsExample | fileio/fileio.go:102 | `AWS::EC2::Instance` becomes `AWS-EC2-Instance` |
| FileIO.SanitizeThreeParts | fileio/fileio.go:102 | a type `a::b::c` whose parts hold no `/` or `:` becomes `a-b-c` |
| FileIO.CsvFilePath | fileio/fileio.go:103 | the path is `resultDir/`, then exactly `SanitizeFileName` of the type (a name without `/`), then `.csv` |
| FileIO.CsvRecords | fileio/fileio.go:118-121 | the header `[Type, Name]`, then one `[type, name]` row per resource, in order |
| FileIO.Ext | fileio/fileio.go:51 | `filepath.Ext`: the suffix from the last `.` of the last path element, or empty when that element has none |
| FileIO.IsZipped | fileio/fileio.go:51 | a file is zipped iff the filter is empty or the path's extension equals it |
| FileIO.CsvFilesAreZipped | fileio/fileio.go:51 | every CSV file the report writer names passes the `.csv` filter |

## Left out

- slack/slack.go, aws/main.go and gcp/main.go are not part of this model. They are the Slack network client and the process entry points (environment parsing, `log.Fatal`).
- `SearchLabelAndNotify` is left out. It orchestrates file I/O, the time-zone lookup, `time.Now` and Slack calls.
- The `NewService` constructors, the `Close` methods and the SDK clients are left out. The AWS list endpoint is replaced by scripted responses per type, and the asset search by a sequence of assets with an end marker.
- `yaml.Unmarshal` and `json.Unmarshal` are left out. The policy document is either parsed into a map from keys to string sequences or malformed. A configuration either decodes into its tag dictionaries or does not.
- The file system and concurrency are left out: `CreateZip`, `DeleteAllFiles`, file creation and writing in `WriteResultToCsvFiles`, and the goroutine and `WaitGroup` around each file. Only the name, path, rows and extension test are modelled.
- Aws.ScanType: requires every type's responses to reach a page without a token. The source retries a failing list call forever, and that loop cannot end against an endpoint that always fails.
- FileIO.ReplaceAll: requires a non-empty pattern. The source only calls `strings.Replace` with `/` and `::`.
- Go's map iteration order is not modelled as a particular order: each loop over a map picks an arbitrary remaining key, so the key collection, the count and the tag-dictionary loop are proved for every order.
- The following are left out: logging (`log.Printf`), the unused `ctx` parameters, the GCP request scope (`projects/<id>`), and the nil `*label.Result` that each `FilterLabels` returns beside an error. Errors are returned as `Err`, and a result as `Ok`.
- Aws.ProcessResource: does not model the panic when the first configuration item has a nil `Configuration`, which aws/aws.go:115 dereferences before any check. The model's item always carries a configuration text, which decodes or does not.
- Aws.ProcessResource: does not model the panic when the listed identifier has a nil `ResourceType`, which aws/aws.go:142 and aws/aws.go:145 dereference (the check at aws/aws.go:136 tests the item's type, not the identifier's). The model's `ResourceIdentifier.resourceType` is a plain string.
- `ZipFileTitle` is a display constant and is not modelled.

## Findings

| source | as written | input that shows it | evidently intended | confidence | as-written member | corrected member |
|---|---|---|---|---|---|---|
| gcp/gcp.go:65, gcp/gcp.go:89 | the banned list is read from `required-labels`, and a banned-label failure is appended to the required-label bucket | required `[env]`, one asset labelled `{env: prod}`: it is reported as missing a required label | read `banned-labels`, append banned-label failures to the banned-label bucket, so a compliant asset is reported nowhere | high; not executed | Gcp.CompliantAssetReported | Gcp.IntendedCompliantExample |
