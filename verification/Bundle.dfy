/** The execution bundle: the jobs of a network and a manifest of their hashes in one archive. */
module Bundle {
  import opened Domain
  import opened Registers
  import opened ZipFormat
  import opened ZipReader
  import opened ZipWriter

  type Hash = string

  /** An approved exception always concerns the one code that may be excepted. */
  datatype Exception = Exception(nodeId: string, approvedBy: string, reason: string, approvedAt: string)

  const EXCEPTED_CODE := "KSQL1306"

  /** The sorted lists of the manifest are determined by what they hold. */
  datatype JobInfo = JobInfo(nodeId: string, jobId: string, codes: set<string>, exceptions: multiset<Exception>)

  datatype File = File(path: Bytes, byteLength: nat, sha256: Hash, job: Option<JobInfo>)

  datatype Manifest = Manifest(files: seq<File>)

  datatype Job = Job(
    path: Bytes,
    sql: Bytes,
    nodeId: string,
    jobId: string,
    inspectedJobId: string,
    codes: seq<string>,
    exceptions: seq<Exception>)

  /** Entry checksums, SHA-256, canonical JSON and its parser. */
  datatype Codec = Codec(sumOf: SumOf, sha: Bytes -> Hash, print_: Manifest -> Bytes, parse: Bytes -> Option<Manifest>)

  /** Parsing undoes printing. */
  ghost predicate Faithful(c: Codec) {
    FourByteSums(c.sumOf) && forall m :: c.parse(c.print_(m)) == Some(m)
  }

  datatype BundleError = InputInvalid | ZipInvalid | HashMismatch | ManifestInvalid | FileMismatch | NotWritten(why: WriteError)

  // ---- Paths --------------------------------------------------------------

  predicate IsAscii(s: string) {
    forall i :: 0 <= i < |s| ==> s[i] as int < 0x80
  }

  function Ascii(s: string): (b: Bytes)
    requires IsAscii(s)
    ensures |b| == |s|
  {
    seq(|s|, i requires 0 <= i < |s| => (s[i] as int) as byte)
  }

  const NETWORK_YAML: Bytes := Ascii("network.yaml")
  const MANIFEST_JSON: Bytes := Ascii("manifest.json")
  const JOBS: Bytes := Ascii("jobs/")
  const SQL: Bytes := Ascii(".sql")

  predicate PathByte(b: byte) {
    || (0x41 <= b <= 0x5a) || (0x61 <= b <= 0x7a) || (0x30 <= b <= 0x39)
    || b == 0x2e || b == 0x5f || b == 0x2d
  }

  /** jobs/NAME.sql with letters, digits, dots, underscores and hyphens in NAME. */
  predicate IsJobPath(path: Bytes) {
    && |path| > 9 && path[..5] == JOBS && path[|path| - 4..] == SQL
    && forall i :: 5 <= i < |path| - 4 ==> PathByte(path[i])
  }

  predicate HasDotDot(path: Bytes) {
    exists i :: 0 <= i < |path| - 1 && path[i] == 0x2e && path[i + 1] == 0x2e
  }

  /** Byte-wise order of paths. */
  predicate Before(a: Bytes, b: Bytes) {
    b != [] && (a == [] || a[0] < b[0] || (a[0] == b[0] && Before(a[1..], b[1..])))
  }

  /** Both begin with the same `k` bytes, and there `a` ends or has the smaller byte. */
  predicate DiffersAt(a: Bytes, b: Bytes, k: nat) {
    k <= |a| && k < |b| && a[..k] == b[..k] && (k == |a| || a[k] < b[k])
  }

  lemma {:induction false} BeforeIff(a: Bytes, b: Bytes)
    ensures Before(a, b) <==> exists k: nat :: DiffersAt(a, b, k)
  {
    if b != [] && a != [] {
      BeforeIff(a[1..], b[1..]);
      if Before(a[1..], b[1..]) && a[0] == b[0] {
        var k: nat :| DiffersAt(a[1..], b[1..], k);
        assert a[..k + 1] == [a[0]] + a[1..][..k] && b[..k + 1] == [b[0]] + b[1..][..k];
        assert DiffersAt(a, b, k + 1);
      }
      if a[0] < b[0] { assert DiffersAt(a, b, 0); }
      forall k: nat | DiffersAt(a, b, k) ensures Before(a, b) {
        if k > 0 {
          assert a[0] == a[..k][0] && b[0] == b[..k][0];
          assert a[1..][..k - 1] == a[..k][1..] && b[1..][..k - 1] == b[..k][1..];
          assert DiffersAt(a[1..], b[1..], k - 1);
        }
      }
    } else if b != [] {
      assert DiffersAt(a, b, 0);
    }
  }

  lemma {:induction false} BeforeTotal(a: Bytes, b: Bytes)
    ensures Before(a, b) || a == b || Before(b, a)
    ensures !(Before(a, b) && Before(b, a)) && !Before(a, a)
  {
    if a != [] && b != [] {
      BeforeTotal(a[1..], b[1..]);
      if a[0] == b[0] && a[1..] == b[1..] { assert a == [a[0]] + a[1..] && b == [b[0]] + b[1..]; }
    }
    if a != [] { BeforeTotal(a[1..], a[1..]); }
  }

  lemma {:induction false} BeforeTransitive(a: Bytes, b: Bytes, c: Bytes)
    requires Before(a, b) && Before(b, c)
    ensures Before(a, c)
  {
    if a != [] && a[0] == b[0] == c[0] { BeforeTransitive(a[1..], b[1..], c[1..]); }
  }

  // ---- Sorting ------------------------------------------------------------

  function Insert(job: Job, sorted: seq<Job>): (r: seq<Job>)
    ensures multiset(r) == multiset(sorted) + multiset{job}
  {
    if sorted == [] then [job]
    else if Before(job.path, sorted[0].path) then [job] + sorted
    else
      assert sorted == [sorted[0]] + sorted[1..];
      [sorted[0]] + Insert(job, sorted[1..])
  }

  function Sorted(jobs: seq<Job>): (r: seq<Job>)
    ensures multiset(r) == multiset(jobs)
  {
    if jobs == [] then []
    else
      assert jobs == jobs[..|jobs| - 1] + [jobs[|jobs| - 1]];
      Insert(jobs[|jobs| - 1], Sorted(jobs[..|jobs| - 1]))
  }

  ghost predicate Ascending(jobs: seq<Job>) {
    forall i, j :: 0 <= i < j < |jobs| ==> !Before(jobs[j].path, jobs[i].path)
  }

  lemma AscendingCons(job: Job, rest: seq<Job>)
    requires Ascending(rest) && forall k :: k in rest ==> !Before(k.path, job.path)
    ensures Ascending([job] + rest)
  {
    var r := [job] + rest;
    forall i, j | 0 <= i < j < |r| ensures !Before(r[j].path, r[i].path) {
      assert r[j] == rest[j - 1] && (i > 0 ==> r[i] == rest[i - 1]);
    }
  }

  lemma {:induction false} InsertAscending(job: Job, sorted: seq<Job>)
    requires Ascending(sorted)
    ensures Ascending(Insert(job, sorted))
  {
    if sorted == [] {
    } else if Before(job.path, sorted[0].path) {
      forall k | k in sorted ensures !Before(k.path, job.path) {
        var j :| 0 <= j < |sorted| && sorted[j] == k;
        BeforeTotal(sorted[0].path, sorted[0].path);
        if Before(k.path, job.path) { BeforeTransitive(k.path, job.path, sorted[0].path); }
      }
      AscendingCons(job, sorted);
    } else {
      var rest := Insert(job, sorted[1..]);
      InsertAscending(job, sorted[1..]);
      forall k | k in rest ensures !Before(k.path, sorted[0].path) {
        assert k in multiset(rest);
        if k != job {
          var j :| 0 <= j < |sorted[1..]| && sorted[1..][j] == k;
          assert sorted[j + 1] == k;
        }
      }
      AscendingCons(sorted[0], rest);
    }
  }

  lemma {:induction false} SortedAscending(jobs: seq<Job>)
    ensures Ascending(Sorted(jobs))
  {
    if jobs != [] {
      SortedAscending(jobs[..|jobs| - 1]);
      InsertAscending(jobs[|jobs| - 1], Sorted(jobs[..|jobs| - 1]));
    }
  }

  ghost predicate DistinctPaths(jobs: seq<Job>) {
    forall i, j :: 0 <= i < j < |jobs| ==> jobs[i].path != jobs[j].path
  }

  /** The first job of an ascending list with distinct paths is known from its contents. */
  lemma FirstIsLeast(a: seq<Job>, job: Job)
    requires Ascending(a) && DistinctPaths(a) && job in a
    ensures job != a[0] ==> Before(a[0].path, job.path)
  {
    var j :| 0 <= j < |a| && a[j] == job;
    BeforeTotal(a[0].path, job.path);
  }

  lemma SameFirst(a: seq<Job>, b: seq<Job>)
    requires Ascending(a) && Ascending(b) && DistinctPaths(a) && DistinctPaths(b)
    requires multiset(a) == multiset(b) && a != [] && b != []
    ensures a[0] == b[0]
  {
    assert a[0] in multiset(b) && b[0] in multiset(a);
    FirstIsLeast(a, b[0]);
    FirstIsLeast(b, a[0]);
    BeforeTotal(a[0].path, b[0].path);
  }

  lemma SameTail(a: seq<Job>, b: seq<Job>)
    requires multiset(a) == multiset(b) && a != [] && b != [] && a[0] == b[0]
    ensures multiset(a[1..]) == multiset(b[1..])
  {
    assert a == [a[0]] + a[1..] && b == [b[0]] + b[1..];
    assert multiset(a[1..]) == multiset(a) - multiset{a[0]} && multiset(b[1..]) == multiset(b) - multiset{b[0]};
  }

  lemma {:induction false} OneAscendingOrder(a: seq<Job>, b: seq<Job>)
    requires Ascending(a) && Ascending(b) && DistinctPaths(a) && DistinctPaths(b) && multiset(a) == multiset(b)
    ensures a == b
  {
    assert |multiset(a)| == |multiset(b)|;
    if a != [] {
      SameFirst(a, b);
      SameTail(a, b);
      OneAscendingOrder(a[1..], b[1..]);
      assert a == [a[0]] + a[1..] && b == [b[0]] + b[1..];
    }
  }

  lemma PathsOfPermutation(a: seq<Job>, b: seq<Job>)
    requires DistinctPaths(a) && multiset(a) == multiset(b)
    ensures DistinctPaths(b)
  {
    forall i, j | 0 <= i < j < |b| ensures b[i].path != b[j].path {
      if b[i].path == b[j].path {
        assert b[i] in multiset(b) && b[j] in multiset(b);
        assert b[i] in multiset(a) && b[j] in multiset(a);
        var k :| 0 <= k < |a| && a[k] == b[i];
        var l :| 0 <= l < |a| && a[l] == b[j];
        assert k == l;
        TwiceCounted(b, i, j);
        OnceCounted(a, k);
      }
    }
  }

  lemma TwiceCounted(b: seq<Job>, i: nat, j: nat)
    requires i < j < |b| && b[i] == b[j]
    ensures multiset(b)[b[i]] >= 2
  {
    assert b == b[..j] + [b[j]] + b[j + 1..];
    assert b[i] in b[..j];
  }

  lemma OnceCounted(a: seq<Job>, k: nat)
    requires DistinctPaths(a) && k < |a|
    ensures multiset(a)[a[k]] == 1
  {
    assert a == a[..k] + [a[k]] + a[k + 1..];
    assert a[k] !in a[..k] && a[k] !in a[k + 1..];
  }
}
