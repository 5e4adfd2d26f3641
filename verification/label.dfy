/** The compliance predicates and the result both scanners fill (label/label.go). */
module Label {

  /** A resource's tags or labels: key to value. */
  type Tags = map<string, string>

  /** Resource identifiers grouped by resource type, in insertion order (`map[string][]string`). */
  type Buckets = map<string, seq<string>>

  /** The `Result` record: resources missing a required label, and resources carrying a banned one. */
  datatype Result = Result(noRequiredLabelResources: Buckets, bannedLabelResources: Buckets)

  /** A fresh result, as both scanners `make` it before the scan. */
  const EmptyResult := Result(map[], map[])

  /** Reading `b[k]` in Go: the stored sequence, or the nil slice when `k` is absent. */
  function Lookup(b: Buckets, k: string): seq<string>
  {
    if k in b then b[k] else []
  }

  /** `b[k] = append(b[k], x)`: appends `x` at the end of the bucket for `k`, creating it if needed. */
  function Record(b: Buckets, k: string, x: string): (r: Buckets)
    ensures r.Keys == b.Keys + {k}
    ensures r[k] == Lookup(b, k) + [x]
    ensures forall j :: j in b && j != k ==> r[j] == b[j]
  {
    b[k := Lookup(b, k) + [x]]
  }

  /** Every bucket that exists holds at least one identifier (buckets are only created by appends). */
  ghost predicate NonEmptyBuckets(b: Buckets) {
    forall k :: k in b ==> b[k] != []
  }

  /** Every bucket of `a` is a prefix of the same bucket of `b`: `b` only appended to `a`. */
  ghost predicate Extends(a: Buckets, b: Buckets) {
    forall k :: k in a ==> k in b && a[k] <= b[k]
  }

  lemma RecordExtends(b: Buckets, k: string, x: string)
    ensures Extends(b, Record(b, k, x))
    ensures NonEmptyBuckets(b) ==> NonEmptyBuckets(Record(b, k, x))
  {
  }

  /** Reading a bucket after an append: the appended identifier at the end of its own bucket only. */
  lemma RecordLookup(b: Buckets, t: string, x: string, k: string)
    ensures Lookup(Record(b, t, x), k) == Lookup(b, k) + (if t == k then [x] else [])
  {
  }

  lemma ExtendsTransitive(a: Buckets, b: Buckets, c: Buckets)
    requires Extends(a, b) && Extends(b, c)
    ensures Extends(a, c)
  {
  }

  /** The loop of `CheckRequiredLabels`: true when no label of `labels` is missing from `got`. */
  function AllPresent(labels: seq<string>, got: Tags): (ok: bool)
    ensures ok <==> forall i :: 0 <= i < |labels| ==> labels[i] in got
  {
    if |labels| == 0 then true
    else if labels[0] !in got then false
    else AllPresent(labels[1..], got)
  }

  /** The loop of `CheckBannedLabels`: true when no label of `labels` is a key of `got`. */
  function NonePresent(labels: seq<string>, got: Tags): (ok: bool)
    ensures ok <==> forall i :: 0 <= i < |labels| ==> labels[i] !in got
  {
    if |labels| == 0 then true
    else if labels[0] in got then false
    else NonePresent(labels[1..], got)
  }

  /** False for an empty tag map; otherwise true iff every required label is a key of `gotLabels`. */
  function CheckRequiredLabels(requiredLabels: seq<string>, gotLabels: Tags): (ok: bool)
    ensures |gotLabels| == 0 ==> !ok
    ensures |gotLabels| != 0 ==> (ok <==> forall i :: 0 <= i < |requiredLabels| ==> requiredLabels[i] in gotLabels)
  {
    if |gotLabels| == 0 then false
    else AllPresent(requiredLabels, gotLabels)
  }

  /** True iff no banned label is a key of `gotLabels` (so true for an empty banned list). */
  function CheckBannedLabels(bannedLabels: seq<string>, gotLabels: Tags): (ok: bool)
    ensures |bannedLabels| == 0 ==> ok
    ensures ok <==> forall i :: 0 <= i < |bannedLabels| ==> bannedLabels[i] !in gotLabels
  {
    if |bannedLabels| == 0 then true
    else NonePresent(bannedLabels, gotLabels)
  }

  /** A map is empty exactly when its key set is. */
  lemma EmptyIffNoKeys(m: Tags)
    ensures |m| == 0 <==> m.Keys == {}
  {
    if m.Keys == {} {
      assert m == map[];
    } else {
      var k :| k in m.Keys;
      assert k in m;
    }
  }

  /** Only the keys of the tag map matter, never its values. */
  lemma {:induction false} OnlyKeysMatter(labels: seq<string>, a: Tags, b: Tags)
    requires a.Keys == b.Keys
    ensures CheckRequiredLabels(labels, a) == CheckRequiredLabels(labels, b)
    ensures CheckBannedLabels(labels, a) == CheckBannedLabels(labels, b)
  {
    EmptyIffNoKeys(a);
    EmptyIffNoKeys(b);
  }

  /** Reordering or duplicating the label list changes neither predicate: only its set of labels matters. */
  lemma {:induction false} SameLabelSet(la: seq<string>, lb: seq<string>, got: Tags)
    requires forall l :: l in la <==> l in lb
    ensures CheckRequiredLabels(la, got) == CheckRequiredLabels(lb, got)
    ensures CheckBannedLabels(la, got) == CheckBannedLabels(lb, got)
  {
    assert (forall i :: 0 <= i < |la| ==> la[i] in got) <==> (forall l :: l in la ==> l in got);
    assert (forall i :: 0 <= i < |lb| ==> lb[i] in got) <==> (forall l :: l in lb ==> l in got);
    assert (forall i :: 0 <= i < |la| ==> la[i] !in got) <==> (forall l :: l in la ==> l !in got);
    assert (forall i :: 0 <= i < |lb| ==> lb[i] !in got) <==> (forall l :: l in lb ==> l !in got);
  }

  /** Adding tags can only make a resource gain required labels and lose the banned-label check. */
  lemma {:induction false} MoreTagsMonotone(labels: seq<string>, a: Tags, b: Tags)
    requires a.Keys <= b.Keys
    ensures CheckRequiredLabels(labels, a) ==> CheckRequiredLabels(labels, b)
    ensures CheckBannedLabels(labels, b) ==> CheckBannedLabels(labels, a)
  {
    EmptyIffNoKeys(a);
    EmptyIffNoKeys(b);
  }
}
