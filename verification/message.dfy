/** The two notification texts built from a scan result (label/message.go). */
module Message {
  import opened Label
  import opened StringOrder

  // ---------------------------------------------------------------------------
  // Decimal rendering, as `%d` prints a non-negative count
  // ---------------------------------------------------------------------------

  function Digit(d: nat): (c: char)
    requires d < 10
    ensures '0' <= c <= '9' && c as int - '0' as int == d
  {
    ('0' as int + d) as char
  }

  /** The decimal digits of `n`, most significant first, without leading zeros. */
  function NatToString(n: nat): (s: string)
    ensures |s| >= 1
    ensures forall i :: 0 <= i < |s| ==> '0' <= s[i] <= '9'
    ensures s[0] == '0' ==> n == 0
    decreases n
  {
    if n < 10 then [Digit(n)] else NatToString(n / 10) + [Digit(n % 10)]
  }

  ghost predicate AllDigits(s: string) {
    forall i :: 0 <= i < |s| ==> '0' <= s[i] <= '9'
  }

  /** The number a string of decimal digits denotes. */
  function DecimalValue(s: string): nat
    requires AllDigits(s)
  {
    if s == [] then 0
    else DecimalValue(s[..|s| - 1]) * 10 + (s[|s| - 1] as int - '0' as int)
  }

  /** The count printed in the main message reads back as the count itself. */
  lemma {:induction false} DecimalRoundTrip(n: nat)
    ensures AllDigits(NatToString(n)) && DecimalValue(NatToString(n)) == n
  {
    var s := NatToString(n);
    if n >= 10 {
      DecimalRoundTrip(n / 10);
      assert s[..|s| - 1] == NatToString(n / 10);
    }
  }

  // ---------------------------------------------------------------------------
  // The count of resources missing required labels
  // ---------------------------------------------------------------------------

  /** Some element of a non-empty set. */
  ghost function Pick(s: set<string>): (x: string)
    requires s != {}
    ensures x in s
  {
    var x :| x in s; x
  }

  /** The number of identifiers in the buckets named by `ks`. */
  ghost function CountIn(b: Buckets, ks: set<string>): nat
    requires ks <= b.Keys
    decreases ks
  {
    if ks == {} then 0 else |b[Pick(ks)]| + CountIn(b, ks - {Pick(ks)})
  }

  /** The number of identifiers across all buckets. */
  ghost function TotalCount(b: Buckets): nat {
    CountIn(b, b.Keys)
  }

  /** Any bucket can be counted first: the count does not depend on the order of the keys. */
  lemma {:induction false} CountInRemove(b: Buckets, ks: set<string>, k: string)
    requires k in ks && ks <= b.Keys
    ensures CountIn(b, ks) == |b[k]| + CountIn(b, ks - {k})
    decreases ks
  {
    var p := Pick(ks);
    if p != k {
      CountInRemove(b, ks - {p}, k);
      CountInRemove(b, ks - {k}, p);
      assert ks - {p} - {k} == ks - {k} - {p};
    }
  }

  /** Two bucket maps that agree on the keys `ks` count the same there. */
  lemma {:induction false} CountInAgree(a: Buckets, b: Buckets, ks: set<string>)
    requires ks <= a.Keys && ks <= b.Keys
    requires forall k :: k in ks ==> |a[k]| == |b[k]|
    ensures CountIn(a, ks) == CountIn(b, ks)
    decreases ks
  {
    if ks != {} {
      CountInAgree(a, b, ks - {Pick(ks)});
    }
  }

  /** Adding the lengths of the buckets in the order `ks` lists them. */
  function SumLengths(b: Buckets, ks: seq<string>): nat
    requires forall i :: 0 <= i < |ks| ==> ks[i] in b
  {
    if ks == [] then 0 else |b[ks[0]]| + SumLengths(b, ks[1..])
  }

  /** Summing the bucket lengths in any order that visits each key once gives the total count. */
  lemma {:induction false} SumLengthsAnyOrder(b: Buckets, ks: seq<string>, s: set<string>)
    requires s <= b.Keys && multiset(ks) == multiset(s)
    ensures forall i :: 0 <= i < |ks| ==> ks[i] in b
    ensures SumLengths(b, ks) == CountIn(b, s)
  {
    ListingMembers(ks, s);
    if ks != [] {
      ListingTail(ks, s);
      SumLengthsAnyOrder(b, ks[1..], s - {ks[0]});
      CountInRemove(b, s, ks[0]);
    }
  }

  /** A listing of a set, each element once, holds only elements of the set. */
  lemma ListingMembers(ks: seq<string>, s: set<string>)
    requires multiset(ks) == multiset(s)
    ensures forall i :: 0 <= i < |ks| ==> ks[i] in s
  {
    forall i | 0 <= i < |ks|
      ensures ks[i] in s
    {
      assert ks[i] in multiset(ks);
    }
  }

  /** Dropping the head of a listing of a set lists the set without that head. */
  lemma ListingTail(ks: seq<string>, s: set<string>)
    requires ks != [] && multiset(ks) == multiset(s)
    ensures ks[0] in s && multiset(ks[1..]) == multiset(s - {ks[0]})
  {
    var k := ks[0];
    assert k in multiset(ks);
    assert ks == [k] + ks[1..];
    assert multiset(ks[1..]) == multiset(ks) - multiset{k};
    assert multiset(s - {k}) == multiset(s) - multiset{k};
  }

  /** Each recorded identifier adds exactly one to the count. */
  lemma RecordCountsOne(b: Buckets, k: string, x: string)
    ensures TotalCount(Record(b, k, x)) == TotalCount(b) + 1
  {
    var r := Record(b, k, x);
    var rest := b.Keys - {k};
    CountInRemove(r, r.Keys, k);
    assert r.Keys - {k} == rest;
    CountInAgree(r, b, rest);
    if k in b {
      CountInRemove(b, b.Keys, k);
    } else {
      assert rest == b.Keys;
    }
  }

  lemma EmptyCountIsZero()
    ensures TotalCount(map[]) == 0
  {
  }

  // ---------------------------------------------------------------------------
  // The resource types in ascending order
  // ---------------------------------------------------------------------------

  lemma {:induction false} LeastExists(s: set<string>)
    requires s != {}
    ensures exists m :: m in s && forall x :: x in s ==> LessEq(m, x)
    decreases s
  {
    var p := Pick(s);
    if s == {p} {
      LessEqReflexive(p);
      assert forall x :: x in s ==> LessEq(p, x);
    } else {
      LeastExists(s - {p});
      var m :| m in s - {p} && forall x :: x in s - {p} ==> LessEq(m, x);
      if LessEq(p, m) {
        forall x | x in s
          ensures LessEq(p, x)
        {
          if x == p { LessEqReflexive(p); } else { LessEqTransitive(p, m, x); }
        }
      } else {
        LessEqTotal(p, m);
        assert forall x :: x in s ==> LessEq(m, x);
      }
    }
  }

  /** The smallest string of a non-empty set. */
  ghost function Least(s: set<string>): (m: string)
    requires s != {}
    ensures m in s && forall x :: x in s ==> LessEq(m, x)
  {
    LeastExists(s);
    var m :| m in s && forall x :: x in s ==> LessEq(m, x); m
  }

  lemma SortedCons(m: string, rest: seq<string>)
    requires Sorted(rest) && forall i :: 0 <= i < |rest| ==> LessEq(m, rest[i])
    ensures Sorted([m] + rest)
  {
  }

  /** The keys of a set in ascending order, each exactly once. */
  ghost function SortedKeys(s: set<string>): (ks: seq<string>)
    ensures Sorted(ks)
    ensures multiset(ks) == multiset(s)
    decreases s
  {
    if s == {} then []
    else
      var m := Least(s);
      var rest := SortedKeys(s - {m});
      assert forall i :: 0 <= i < |rest| ==> LessEq(m, rest[i]) by {
        forall i | 0 <= i < |rest|
          ensures LessEq(m, rest[i])
        {
          assert rest[i] in multiset(rest);
        }
      }
      SortedCons(m, rest);
      assert multiset(s) == multiset{m} + multiset(s - {m});
      [m] + rest
  }

  /** Each key of the set appears exactly once in `SortedKeys`, and nothing else does. */
  lemma SortedKeysOnce(s: set<string>, k: string)
    ensures multiset(SortedKeys(s))[k] == if k in s then 1 else 0
  {
  }

  // ---------------------------------------------------------------------------
  // The message texts
  // ---------------------------------------------------------------------------

  /** `strings.Join(elems, sep)`. */
  function Join(elems: seq<string>, sep: string): string {
    if |elems| == 0 then ""
    else if |elems| == 1 then elems[0]
    else elems[0] + sep + Join(elems[1..], sep)
  }

  /** The line that opens a main message: the date and the project or account id. */
  function MainHeading(projectId: string, date: string): string {
    date + " の *" + projectId + "* の結果 :mag:\n"
  }

  /** The line that reports the count of resources missing a required label. */
  function CountLine(count: nat): string {
    ":label: 必須ラベルが付与されていないリソースは *" + NatToString(count) + "* 件でした"
  }

  /** What `GetMainMessageText` produces. */
  ghost function MainText(result: Result, projectId: string, date: string): string {
    MainHeading(projectId, date) + CountLine(TotalCount(result.noRequiredLabelResources))
  }

  /** The fixed first line of the thread message. */
  const ThreadHeader := "必須ラベルが付与されていないリソース一覧\n"

  /** The heading line of one resource type. */
  function PinLine(k: string): string {
    "\n:pushpin: " + k + " \n"
  }

  /** One resource type's heading followed by its identifiers, one per line, in stored order. */
  function Section(k: string, ids: seq<string>): string {
    PinLine(k) + Join(ids, "\n")
  }

  /** The sections of the resource types `ks`, in that order. */
  function Sections(b: Buckets, ks: seq<string>): string
    requires forall i :: 0 <= i < |ks| ==> ks[i] in b
  {
    if ks == [] then ""
    else Sections(b, ks[..|ks| - 1]) + Section(ks[|ks| - 1], b[ks[|ks| - 1]])
  }

  /** What `GetThreadMessageText` produces: the header, then every type's section in ascending type order. */
  ghost function ThreadText(result: Result): string {
    var b := result.noRequiredLabelResources;
    var ks := SortedKeys(b.Keys);
    assert forall i :: 0 <= i < |ks| ==> ks[i] in b by {
      forall i | 0 <= i < |ks|
        ensures ks[i] in b
      {
        assert ks[i] in multiset(ks);
      }
    }
    ThreadHeader + Sections(b, ks)
  }

  /** `GetMainMessageText`: sums the bucket lengths in whatever order the map yields them. */
  method GetMainMessageText(result: Result, projectId: string, date: string) returns (message: string)
    ensures message == MainText(result, projectId, date)
  {
    var b := result.noRequiredLabelResources;
    message := MainHeading(projectId, date);
    var sum := 0;
    var rest := b.Keys;
    while rest != {}
      invariant rest <= b.Keys
      invariant sum + CountIn(b, rest) == TotalCount(b)
      decreases rest
    {
      var k :| k in rest;
      CountInRemove(b, rest, k);
      sum := sum + |b[k]|;
      rest := rest - {k};
    }
    message := message + CountLine(sum);
  }

  /** The keys of a map, in whatever order the map yields them. */
  method CollectKeys(b: Buckets) returns (keys: seq<string>)
    ensures multiset(keys) == multiset(b.Keys)
  {
    keys := [];
    var rest := b.Keys;
    while rest != {}
      invariant rest <= b.Keys
      invariant multiset(keys) + multiset(rest) == multiset(b.Keys)
      decreases rest
    {
      var k :| k in rest;
      assert multiset(rest) == multiset(rest - {k}) + multiset{k};
      keys := keys + [k];
      rest := rest - {k};
    }
  }

  /** The keys of a map, collected and then sorted with `sort.Strings`. */
  method SortedKeysOf(b: Buckets) returns (keys: seq<string>)
    ensures Sorted(keys) && multiset(keys) == multiset(b.Keys)
  {
    keys := CollectKeys(b);
    var sorted := new string[|keys|](i requires 0 <= i < |keys| => keys[i]);
    assert sorted[..] == keys;
    SortStrings(sorted);
    keys := sorted[..];
  }

  /** Any ascending listing of the keys, each once, yields the thread text. */
  lemma ThreadTextFromSorted(result: Result, ks: seq<string>)
    requires Sorted(ks) && multiset(ks) == multiset(result.noRequiredLabelResources.Keys)
    ensures forall j :: 0 <= j < |ks| ==> ks[j] in result.noRequiredLabelResources
    ensures ThreadText(result) == ThreadHeader + Sections(result.noRequiredLabelResources, ks)
  {
    ListingMembers(ks, result.noRequiredLabelResources.Keys);
    SortedUnique(ks, SortedKeys(result.noRequiredLabelResources.Keys));
  }

  /** The sections of one more key: the previous sections, then that key's section. */
  lemma SectionsStep(b: Buckets, ks: seq<string>, i: nat)
    requires i < |ks| && forall j :: 0 <= j < |ks| ==> ks[j] in b
    ensures Sections(b, ks[..i + 1]) == Sections(b, ks[..i]) + Section(ks[i], b[ks[i]])
  {
    assert ks[..i + 1][..i] == ks[..i];
  }

  /** Appending a heading line and then the joined identifiers appends that section. */
  lemma AppendSection(message: string, k: string, ids: seq<string>)
    ensures message + PinLine(k) + Join(ids, "\n") == message + Section(k, ids)
  {
  }

  lemma AppendAfterPrefix(m: string, prefix: string, body: string, more: string)
    requires m == prefix + body
    ensures m + more == prefix + (body + more)
  {
  }

  /** `GetThreadMessageText`: collects the keys, sorts them, then appends one section per key. */
  method GetThreadMessageText(result: Result) returns (message: string)
    ensures message == ThreadText(result)
  {
    var b := result.noRequiredLabelResources;
    message := ThreadHeader;
    var keys := SortedKeysOf(b);
    ThreadTextFromSorted(result, keys);
    var i := 0;
    while i < |keys|
      invariant 0 <= i <= |keys|
      invariant message == ThreadHeader + Sections(b, keys[..i])
    {
      var k := keys[i];
      SectionsStep(b, keys, i);
      AppendSection(message, k, b[k]);
      AppendAfterPrefix(message, ThreadHeader, Sections(b, keys[..i]), Section(k, b[k]));
      message := message + PinLine(k);
      message := message + Join(b[k], "\n");
      i := i + 1;
    }
    assert keys[..i] == keys;
  }

  // ---------------------------------------------------------------------------
  // Properties of the texts
  // ---------------------------------------------------------------------------

  /** The main message starts with the date, then the project or account id. */
  lemma MainTextStartsWithScope(result: Result, projectId: string, date: string)
    ensures MainText(result, projectId, date)[..|date|] == date
    ensures MainText(result, projectId, date)[|date| + 4..|date| + 4 + |projectId|] == projectId
  {
  }

  /** The banned-label buckets contribute nothing to either message. */
  lemma MessagesIgnoreBanned(r1: Result, r2: Result, projectId: string, date: string)
    requires r1.noRequiredLabelResources == r2.noRequiredLabelResources
    ensures MainText(r1, projectId, date) == MainText(r2, projectId, date)
    ensures ThreadText(r1) == ThreadText(r2)
  {
  }

  /** An empty result gives the bare thread header and a count of zero. */
  lemma EmptyResultMessages(banned: Buckets, projectId: string, date: string)
    ensures ThreadText(Result(map[], banned)) == ThreadHeader
    ensures MainText(Result(map[], banned), projectId, date) == MainHeading(projectId, date) + CountLine(0)
  {
  }
}
