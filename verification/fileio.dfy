/** The configuration lookup and the pure parts of the report-file helpers (fileio/fileio.go). */
module FileIO {
  import opened Wrappers

  // ---------------------------------------------------------------------------
  // GetStringCollection
  // ---------------------------------------------------------------------------

  /** The embedded YAML document, as `yaml.Unmarshal` into `map[string][]string` leaves it. */
  datatype ConfigData =
    | Malformed(reason: string)                  // Unmarshal returned an error
    | Parsed(collections: map<string, seq<string>>)

  /** The sequence bound to `key`; a parse error or a "no such key" error otherwise. */
  function GetStringCollection(data: ConfigData, key: string): (r: Outcome<seq<string>>)
    ensures r.Ok? <==> data.Parsed? && key in data.collections
    ensures r.Ok? ==> r.value == data.collections[key]
    ensures data.Malformed? ==> r == Err(ParseError(data.reason))
    ensures data.Parsed? && key !in data.collections ==> r == Err(NoSuchKey(key))
  {
    match data
    case Malformed(reason) => Err(ParseError(reason))
    case Parsed(m) => if key in m then Ok(m[key]) else Err(NoSuchKey(key))
  }

  // ---------------------------------------------------------------------------
  // File names
  // ---------------------------------------------------------------------------

  /** `strings.Replace(s, pattern, replacement, -1)`: every non-overlapping occurrence, left to right. */
  function ReplaceAll(s: string, pattern: string, replacement: string): string
    requires |pattern| > 0
    decreases |s|
  {
    if |s| == 0 then ""
    else if pattern <= s then replacement + ReplaceAll(s[|pattern|..], pattern, replacement)
    else [s[0]] + ReplaceAll(s[1..], pattern, replacement)
  }

  /** `c` occurs in `s`. */
  predicate HasChar(s: string, c: char) {
    exists i :: 0 <= i < |s| && s[i] == c
  }

  /** `s` holds two consecutive colons. */
  predicate HasDoubleColon(s: string) {
    exists i :: 0 <= i < |s| - 1 && s[i] == ':' && s[i + 1] == ':'
  }

  /** The CSV file name for a resource type: `/` and then `::` replaced by `-`. */
  function SanitizeFileName(resourceType: string): (name: string)
    ensures !HasChar(name, '/') && !HasDoubleColon(name)
  {
    var name := ReplaceAll(ReplaceAll(resourceType, "/", "-"), "::", "-");
    NoSlashAfterSlashReplace(resourceType);
    DoubleColonReplace(ReplaceAll(resourceType, "/", "-"));
    name
  }

  lemma {:induction false} NoSlashAfterSlashReplace(s: string)
    ensures !HasChar(ReplaceAll(s, "/", "-"), '/')
    decreases |s|
  {
    if |s| > 0 {
      NoSlashAfterSlashReplace(s[1..]);
      var r := ReplaceAll(s, "/", "-");
      var tail := ReplaceAll(s[1..], "/", "-");
      assert r == (if "/" <= s then "-" else [s[0]]) + tail;
      assert "/" <= s <==> s[0] == '/';
      forall i | 0 <= i < |r|
        ensures r[i] != '/'
      {
        if i > 0 { assert r[i] == tail[i - 1]; }
      }
    }
  }

  /** Replacing `::` by `-` removes every `::`, and adds no `/` to a string that had none. */
  lemma {:induction false} DoubleColonReplace(s: string)
    ensures var r := ReplaceAll(s, "::", "-");
      && !HasDoubleColon(r)
      && (!HasChar(s, '/') ==> !HasChar(r, '/'))
      && (|r| > 0 && r[0] == ':' ==> |s| > 0 && s[0] == ':' && (|s| == 1 || s[1] != ':'))
    decreases |s|
  {
    var r := ReplaceAll(s, "::", "-");
    if |s| > 0 {
      var skip := if "::" <= s then 2 else 1;
      var head := if "::" <= s then "-" else [s[0]];
      var tail := ReplaceAll(s[skip..], "::", "-");
      DoubleColonReplace(s[skip..]);
      assert r == head + tail;
      assert "::" <= s <==> |s| >= 2 && s[0] == ':' && s[1] == ':';
      assert !HasChar(s, '/') ==> !HasChar(s[skip..], '/') by {
        if HasChar(s[skip..], '/') {
          var i :| 0 <= i < |s[skip..]| && s[skip..][i] == '/';
          assert s[skip + i] == '/';
        }
      }
      forall i | 0 <= i < |r|
        ensures !HasChar(s, '/') ==> r[i] != '/'
      {
        if i > 0 { assert r[i] == tail[i - 1]; }
      }
      forall i | 0 <= i < |r| - 1
        ensures !(r[i] == ':' && r[i + 1] == ':')
      {
        if i > 0 {
          assert r[i] == tail[i - 1] && r[i + 1] == tail[i];
        } else if r[0] == ':' {
          assert s[0] == ':' && skip == 1 && r[1] == tail[0];
        }
      }
    }
  }

  /** `AWS::EC2::Instance` is written to `AWS-EC2-Instance.csv`. */
  lemma SanitizeAwsExample()
    ensures SanitizeFileName("AWS::EC2::Instance") == "AWS-EC2-Instance"
  {
    var a, b, c := "AWS", "EC2", "Instance";
    assert Plain(a) && Plain(b) && Plain(c);
    SanitizeThreeParts(a, b, c);
    assert a + "::" + b + "::" + c == "AWS::EC2::Instance";
    assert a + "-" + b + "-" + c == "AWS-EC2-Instance";
  }

  /** No `/` and no `:` in `s`. */
  ghost predicate Plain(s: string) {
    forall i :: 0 <= i < |s| ==> s[i] != '/' && s[i] != ':'
  }

  /** An AWS type name `a::b::c` whose parts are plain becomes `a-b-c`. */
  lemma SanitizeThreeParts(a: string, b: string, c: string)
    requires Plain(a) && Plain(b) && Plain(c)
    ensures SanitizeFileName(a + "::" + b + "::" + c) == a + "-" + b + "-" + c
  {
    var t := a + "::" + b + "::" + c;
    assert forall i :: 0 <= i < |t| ==> t[i] != '/';
    SkipLeadingPlain(t, "", "/", "-");
    assert t + "" == t;
    DoubleColonThreeParts(a, b, c);
  }

  /** Replacing `::` in `a::b::c` with plain parts gives `a-b-c`. */
  lemma DoubleColonThreeParts(a: string, b: string, c: string)
    requires Plain(a) && Plain(b) && Plain(c)
    ensures ReplaceAll(a + "::" + b + "::" + c, "::", "-") == a + "-" + b + "-" + c
  {
    var bc := b + "::" + c;
    calc {
      ReplaceAll(a + "::" + b + "::" + c, "::", "-");
      { assert a + "::" + b + "::" + c == a + "::" + bc; }
      ReplaceAll(a + "::" + bc, "::", "-");
      { PlainThenSeparator(a, bc); }
      a + "-" + ReplaceAll(bc, "::", "-");
      { PlainThenSeparator(b, c); }
      a + "-" + (b + "-" + ReplaceAll(c, "::", "-"));
      { SkipLeadingPlain(c, "", "::", "-"); assert c + "" == c; }
      a + "-" + (b + "-" + c);
    }
  }

  /** A plain part followed by `::` turns into the part followed by `-`. */
  lemma PlainThenSeparator(a: string, rest: string)
    requires Plain(a)
    ensures ReplaceAll(a + "::" + rest, "::", "-") == a + "-" + ReplaceAll(rest, "::", "-")
  {
    LeadingPattern(rest, "::", "-");
    SkipLeadingPlain(a, "::" + rest, "::", "-");
    assert a + "::" + rest == a + ("::" + rest);
  }

  /** An occurrence of the pattern at the front is replaced. */
  lemma LeadingPattern(b: string, pattern: string, replacement: string)
    requires |pattern| > 0
    ensures ReplaceAll(pattern + b, pattern, replacement) == replacement + ReplaceAll(b, pattern, replacement)
  {
    assert pattern <= pattern + b;
    assert (pattern + b)[|pattern|..] == b;
  }

  /** A prefix that never starts the pattern is copied through unchanged. */
  lemma {:induction false} SkipLeadingPlain(a: string, b: string, pattern: string, replacement: string)
    requires |pattern| > 0
    requires forall i :: 0 <= i < |a| ==> a[i] != pattern[0]
    ensures ReplaceAll(a + b, pattern, replacement) == a + ReplaceAll(b, pattern, replacement)
    decreases |a|
  {
    if |a| > 0 {
      assert (a + b)[1..] == a[1..] + b;
      SkipLeadingPlain(a[1..], b, pattern, replacement);
      assert a == [a[0]] + a[1..];
    } else {
      assert a + b == b;
    }
  }

  /** `resultDir/<sanitised type>.csv`: a file directly inside `resultDir`, named after the type. */
  function CsvFilePath(resultDir: string, resourceType: string): (path: string)
    ensures |path| == |resultDir| + 1 + |SanitizeFileName(resourceType)| + 4
    ensures path[..|resultDir| + 1] == resultDir + "/"
    ensures !HasChar(path[|resultDir| + 1..], '/')
    ensures path[|path| - 4..] == ".csv"
    ensures path[|resultDir| + 1..|path| - 4] == SanitizeFileName(resourceType)
  {
    var name := SanitizeFileName(resourceType);
    var path := resultDir + "/" + name + ".csv";
    assert path[|resultDir| + 1..] == name + ".csv";
    NoSlashInConcat(name, ".csv");
    path
  }

  lemma NoSlashInConcat(x: string, y: string)
    requires !HasChar(x, '/') && !HasChar(y, '/')
    ensures !HasChar(x + y, '/')
  {
    forall i | 0 <= i < |x + y|
      ensures (x + y)[i] != '/'
    {
      if i < |x| {
        assert (x + y)[i] == x[i];
      } else {
        assert (x + y)[i] == y[i - |x|];
      }
    }
  }

  // ---------------------------------------------------------------------------
  // CSV records
  // ---------------------------------------------------------------------------

  /** The rows of one resource type's CSV file: a header, then one row per identifier, in order. */
  method CsvRecords(resourceType: string, resourceList: seq<string>) returns (records: seq<seq<string>>)
    ensures |records| == |resourceList| + 1
    ensures records[0] == ["Type", "Name"]
    ensures forall i :: 0 <= i < |resourceList| ==> records[i + 1] == [resourceType, resourceList[i]]
  {
    records := [["Type", "Name"]];
    for i := 0 to |resourceList|
      invariant |records| == i + 1
      invariant records[0] == ["Type", "Name"]
      invariant forall j :: 0 <= j < i ==> records[j + 1] == [resourceType, resourceList[j]]
    {
      records := records + [[resourceType, resourceList[i]]];
    }
  }

  // ---------------------------------------------------------------------------
  // The extension filter of CreateZip
  // ---------------------------------------------------------------------------

  /** No `.` follows position `i` within the last `/`-separated element of `path`. */
  ghost predicate NoDotInLastElement(path: string) {
    forall i :: 0 <= i < |path| && path[i] == '.' ==> exists j :: i < j < |path| && path[j] == '/'
  }

  /**
   * `filepath.Ext(path)`: the suffix from the final `.` of the last element, or "" when that element
   * has no `.`.
   */
  function Ext(path: string): (e: string)
    ensures |e| <= |path| && e == path[|path| - |e|..]
    ensures e != "" ==> e[0] == '.' && forall i :: 0 < i < |e| ==> e[i] != '.' && e[i] != '/'
    ensures e == "" ==> NoDotInLastElement(path)
  {
    if |path| == 0 || path[|path| - 1] == '/' then ""
    else if path[|path| - 1] == '.' then "."
    else
      var e := Ext(path[..|path| - 1]);
      if e == "" then "" else e + [path[|path| - 1]]
  }

  /** The test `ext == "" || filepath.Ext(path) == ext` that decides whether a file is zipped. */
  function IsZipped(path: string, ext: string): (zipped: bool)
    ensures ext == "" ==> zipped
    ensures ext != "" ==> (zipped <==> |ext| <= |path| && path[|path| - |ext|..] == ext && ext == Ext(path))
  {
    ext == "" || Ext(path) == ext
  }

  /** Every CSV file the report writer names is picked up by the `.csv` filter of the zip step. */
  lemma CsvFilesAreZipped(resultDir: string, resourceType: string)
    ensures Ext(CsvFilePath(resultDir, resourceType)) == ".csv"
    ensures IsZipped(CsvFilePath(resultDir, resourceType), ".csv")
  {
    var p := CsvFilePath(resultDir, resourceType);
    var n := |p|;
    assert p[n - 1] == 'v' && p[n - 2] == 's' && p[n - 3] == 'c' && p[n - 4] == '.';
    assert p[..n - 1][..n - 2] == p[..n - 2];
    assert p[..n - 2][..n - 3] == p[..n - 3];
    assert p[..n - 3][..n - 4] == p[..n - 4];
  }
}
