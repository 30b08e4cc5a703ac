/** Building a bundle from inspected jobs, and verifying one before it is used. */
module BundleBuilder {
  import opened Domain
  import opened Registers
  import opened ZipFormat
  import opened ZipLayout
  import opened ZipReader
  import opened ZipWriter
  import opened ZipRoundTrip
  import opened Bundle
  import Invariants

  // ---- Building -----------------------------------------------------------

  predicate Blank(text: string) {
    Invariants.Trim(text) == ""
  }

  predicate ExceptionsMatch(nodeId: string, codes: set<string>, exceptions: multiset<Exception>) {
    forall e :: e in exceptions ==> e.nodeId == nodeId && EXCEPTED_CODE in codes
  }

  function CodesOf(job: Job): set<string> {
    set code | code in job.codes
  }

  /** What an inspected job has to satisfy on its own. */
  predicate JobValid(job: Job) {
    && IsJobPath(job.path) && !HasDotDot(job.path) && !Blank(job.nodeId) && !Blank(job.jobId)
    && job.inspectedJobId == job.jobId
    && ExceptionsMatch(job.nodeId, CodesOf(job), multiset(job.exceptions))
  }

  ghost predicate JobsValid(jobs: seq<Job>) {
    jobs != [] && DistinctPaths(jobs) && forall i :: 0 <= i < |jobs| ==> JobValid(jobs[i])
  }

  function InfoOf(job: Job): JobInfo {
    JobInfo(job.nodeId, job.jobId, CodesOf(job), multiset(job.exceptions))
  }

  function FileOf(c: Codec, path: Bytes, data: Bytes, job: Option<JobInfo>): File {
    File(path, |data|, c.sha(data), job)
  }

  function FilesOf(c: Codec, yaml: Bytes, jobs: seq<Job>): (files: seq<File>)
    ensures |files| == |jobs| + 1 && files[0] == FileOf(c, NETWORK_YAML, yaml, None)
    ensures forall i :: 0 <= i < |jobs| ==> files[i + 1] == FileOf(c, jobs[i].path, jobs[i].sql, Some(InfoOf(jobs[i])))
  {
    [FileOf(c, NETWORK_YAML, yaml, None)] +
    seq(|jobs|, i requires 0 <= i < |jobs| => FileOf(c, jobs[i].path, jobs[i].sql, Some(InfoOf(jobs[i]))))
  }

  /** The data entries in archive order; the manifest follows them. */
  function DataEntries(yaml: Bytes, jobs: seq<Job>): (entries: seq<Input>)
    ensures |entries| == |jobs| + 1 && entries[0] == Input(NETWORK_YAML, yaml)
    ensures forall i :: 0 <= i < |jobs| ==> entries[i + 1] == Input(jobs[i].path, jobs[i].sql)
  {
    [Input(NETWORK_YAML, yaml)] + seq(|jobs|, i requires 0 <= i < |jobs| => Input(jobs[i].path, jobs[i].sql))
  }

  function AllEntries(c: Codec, yaml: Bytes, jobs: seq<Job>): (entries: seq<Input>)
    ensures |entries| == |jobs| + 2
  {
    DataEntries(yaml, jobs) + [Input(MANIFEST_JSON, c.print_(Manifest(FilesOf(c, yaml, jobs))))]
  }

  datatype Built = Built(zip: Bytes, zipSha: Hash, manifest: Manifest, manifestSha: Hash)

  /** The bundle of jobs that are already in path order. */
  ghost function BundleOf(c: Codec, yaml: Bytes, sorted: seq<Job>): Built
    requires Faithful(c) && Writable(c.sumOf, AllEntries(c, yaml, sorted))
  {
    var manifest := Manifest(FilesOf(c, yaml, sorted));
    var zip := Archive(c.sumOf, AllEntries(c, yaml, sorted));
    Built(zip, c.sha(zip), manifest, c.sha(c.print_(manifest)))
  }

  /** Checks every job in path order. */
  method ValidateJobs(jobs: seq<Job>) returns (valid: bool)
    ensures valid <==> DistinctPaths(jobs) && forall i :: 0 <= i < |jobs| ==> JobValid(jobs[i])
  {
    var seen: set<Bytes> := {};
    var i := 0;
    while i < |jobs|
      invariant i <= |jobs| && seen == set k | 0 <= k < i :: jobs[k].path
      invariant forall j, k :: 0 <= j < k < i ==> jobs[j].path != jobs[k].path
      invariant forall k :: 0 <= k < i ==> JobValid(jobs[k])
    {
      if !JobValid(jobs[i]) || jobs[i].path in seen { return false; }
      seen := seen + {jobs[i].path};
      i := i + 1;
    }
    return true;
  }

  lemma ValidInAnyOrder(a: seq<Job>, b: seq<Job>)
    requires multiset(a) == multiset(b)
    ensures JobsValid(a) <==> JobsValid(b)
  {
    assert |multiset(a)| == |multiset(b)|;
    if JobsValid(a) { ValidPermuted(a, b); }
    if JobsValid(b) { ValidPermuted(b, a); }
  }

  lemma ValidPermuted(a: seq<Job>, b: seq<Job>)
    requires JobsValid(a) && multiset(a) == multiset(b)
    ensures JobsValid(b)
  {
    PathsOfPermutation(a, b);
    assert |multiset(a)| == |multiset(b)|;
    forall i | 0 <= i < |b| ensures JobValid(b[i]) {
      assert b[i] in multiset(a);
      var k :| 0 <= k < |a| && a[k] == b[i];
    }
  }

  /** The job was inspected under its own id, and its path stays below jobs/, and an exception is its own and for the one code that may be excepted. */
  predicate Inspected(job: Job) {
    && job.inspectedJobId == job.jobId && IsJobPath(job.path) && !HasDotDot(job.path)
    && forall e :: e in job.exceptions ==> e.nodeId == job.nodeId && "KSQL1306" in job.codes
  }

  lemma ValidIsInspected(jobs: seq<Job>)
    requires JobsValid(jobs)
    ensures forall job :: job in jobs ==> Inspected(job)
  {
    forall job | job in jobs ensures Inspected(job) {
      assert JobValid(job);
      forall e | e in job.exceptions ensures e.nodeId == job.nodeId && "KSQL1306" in job.codes {
        assert e in multiset(job.exceptions);
      }
    }
  }

  method BuildBundle(c: Codec, yaml: Bytes, jobs: seq<Job>) returns (r: Result<Built, BundleError>)
    requires Faithful(c)
    ensures r == Err(InputInvalid) <==> !JobsValid(jobs)
    ensures r.Ok? <==> JobsValid(jobs) && Writable(c.sumOf, AllEntries(c, yaml, Sorted(jobs)))
    ensures r.Ok? ==> r.value == BundleOf(c, yaml, Sorted(jobs))
    ensures r.Ok? ==> forall job :: job in jobs ==> Inspected(job)
  {
    var sorted := Sorted(jobs);
    ValidInAnyOrder(sorted, jobs);
    if JobsValid(jobs) { ValidIsInspected(jobs); }
    if jobs == [] { return Err(InputInvalid); }
    var valid := ValidateJobs(sorted);
    if !valid { return Err(InputInvalid); }
    var manifest := Manifest(FilesOf(c, yaml, sorted));
    var zip := CreateStoreZip(c.sumOf, AllEntries(c, yaml, sorted));
    if zip.Err? { return Err(NotWritten(zip.error)); }
    return Ok(Built(zip.value, c.sha(zip.value), manifest, c.sha(c.print_(manifest))));
  }

  /** Permuting the jobs gives the same bundle, byte for byte, or the same refusal. */
  lemma OrderDoesNotMatter(a: seq<Job>, b: seq<Job>)
    requires multiset(a) == multiset(b) && JobsValid(a)
    ensures JobsValid(b) && Sorted(a) == Sorted(b)
  {
    ValidInAnyOrder(a, b);
    SortedAscending(a);
    SortedAscending(b);
    PathsOfPermutation(a, Sorted(a));
    PathsOfPermutation(b, Sorted(b));
    OneAscendingOrder(Sorted(a), Sorted(b));
  }

  // ---- Verifying ----------------------------------------------------------

  datatype Expected = Expected(zipSha: Option<Hash>, manifestSha: Option<Hash>, manifest: Option<Manifest>)

  datatype Verified = Verified(zipSha: Hash, manifestSha: Hash, manifest: Manifest)

  predicate Meets<T(==)>(expected: Option<T>, actual: T) {
    expected.None? || expected.value == actual
  }

  predicate FileShape(f: File) {
    if f.path == NETWORK_YAML then f.job.None?
    else IsJobPath(f.path) && f.job.Some? && ExceptionsMatch(f.job.value.nodeId, f.job.value.codes, f.job.value.exceptions)
  }

  predicate ManifestShape(m: Manifest) {
    m.files != [] && forall i :: 0 <= i < |m.files| ==> FileShape(m.files[i])
  }

  /** The data of the entry with this name. */
  function DataOf(items: seq<Item>, name: Bytes): Option<Bytes> {
    if items == [] then None
    else if items[0].name == name then Some(items[0].data)
    else DataOf(items[1..], name)
  }

  lemma {:induction false} DataOfEntry(items: seq<Item>, k: nat)
    requires DistinctNames(items) && k < |items|
    ensures DataOf(items, items[k].name) == Some(items[k].data)
  {
    if k > 0 { DataOfEntry(items[1..], k - 1); }
  }

  lemma {:induction false} DataOfNamed(items: seq<Item>, name: Bytes)
    ensures DataOf(items, name).Some? <==> name in NamesOf(items)
  {
    if items != [] {
      DataOfNamed(items[1..], name);
      if name in NamesOf(items) && items[0].name != name {
        var i :| 0 <= i < |items| && items[i].name == name;
        assert items[1..][i - 1].name == name;
      }
      if name in NamesOf(items[1..]) {
        var i :| 0 <= i < |items[1..]| && items[1..][i].name == name;
        assert items[i + 1].name == name;
      }
    }
  }

  predicate FileMatches(c: Codec, items: seq<Item>, f: File) {
    match DataOf(items, f.path)
    case None => false
    case Some(data) => |data| == f.byteLength && c.sha(data) == f.sha256
  }

  function PathsOf(files: seq<File>): set<Bytes> {
    set i | 0 <= i < |files| :: files[i].path
  }

  ghost predicate DistinctFiles(files: seq<File>) {
    forall i, j :: 0 <= i < j < |files| ==> files[i].path != files[j].path
  }

  /**
   * The entries are exactly manifest.json and the manifest's files, one each, and
   * every file has the recorded length and hash.
   */
  ghost predicate Represents(c: Codec, items: seq<Item>, m: Manifest) {
    && DistinctNames(items) && DistinctFiles(m.files) && ManifestShape(m)
    && DataOf(items, MANIFEST_JSON) == Some(c.print_(m)) && NETWORK_YAML in PathsOf(m.files)
    && NamesOf(items) == {MANIFEST_JSON} + PathsOf(m.files) && |items| == |m.files| + 1
    && forall i :: 0 <= i < |m.files| ==> FileMatches(c, items, m.files[i])
  }

  /** The entries represent a manifest that meets the expectations. */
  ghost predicate EntriesAcceptable(c: Codec, zipSha: Hash, items: seq<Item>, expected: Expected, v: Verified) {
    && Represents(c, items, v.manifest) && v.zipSha == zipSha && v.manifestSha == c.sha(c.print_(v.manifest))
    && Meets(expected.zipSha, v.zipSha) && Meets(expected.manifestSha, v.manifestSha)
    && Meets(expected.manifest, v.manifest)
  }

  ghost predicate Acceptable(c: Codec, zip: Bytes, expected: Expected, v: Verified) {
    Read(c.sumOf, zip).Ok? && EntriesAcceptable(c, c.sha(zip), Read(c.sumOf, zip).value, expected, v)
  }

  /** Every file of the manifest is there once, as recorded. */
  method CheckFiles(c: Codec, items: seq<Item>, files: seq<File>) returns (r: Result<set<Bytes>, BundleError>)
    ensures r.Ok? <==> DistinctFiles(files) && forall i :: 0 <= i < |files| ==> FileMatches(c, items, files[i])
    ensures r.Ok? ==> r.value == PathsOf(files)
  {
    var paths: set<Bytes> := {};
    var i := 0;
    while i < |files|
      invariant i <= |files| && paths == set k | 0 <= k < i :: files[k].path
      invariant forall j, k :: 0 <= j < k < i ==> files[j].path != files[k].path
      invariant forall k :: 0 <= k < i ==> FileMatches(c, items, files[k])
    {
      if files[i].path in paths { return Err(ManifestInvalid); }
      paths := paths + {files[i].path};
      if !FileMatches(c, items, files[i]) { return Err(FileMismatch); }
      i := i + 1;
    }
    return Ok(paths);
  }

  lemma PathsAreNames(c: Codec, items: seq<Item>, files: seq<File>)
    requires forall i :: 0 <= i < |files| ==> FileMatches(c, items, files[i])
    ensures PathsOf(files) <= NamesOf(items)
  {
    forall i | 0 <= i < |files| ensures files[i].path in NamesOf(items) { DataOfNamed(items, files[i].path); }
  }

  predicate IsManifest(c: Codec, items: seq<Item>, expected: Expected, m: Manifest) {
    && DataOf(items, MANIFEST_JSON) == Some(c.print_(m)) && ManifestShape(m)
    && Meets(expected.manifestSha, c.sha(c.print_(m))) && Meets(expected.manifest, m)
  }

  /** The manifest of an archive, if its entry is canonical JSON of the right shape. */
  method ReadManifest(c: Codec, items: seq<Item>, expected: Expected) returns (r: Result<Manifest, BundleError>)
    requires Faithful(c)
    ensures r.Ok? <==> exists m :: IsManifest(c, items, expected, m)
    ensures r.Ok? ==> IsManifest(c, items, expected, r.value)
  {
    var bytes := DataOf(items, MANIFEST_JSON);
    if bytes.None? { return Err(ManifestInvalid); }
    if !Meets(expected.manifestSha, c.sha(bytes.value)) { return Err(HashMismatch); }
    var parsed := c.parse(bytes.value);
    if parsed.None? || !ManifestShape(parsed.value) || c.print_(parsed.value) != bytes.value { return Err(ManifestInvalid); }
    if expected.manifest.Some? && c.print_(parsed.value) != c.print_(expected.manifest.value) { return Err(ManifestInvalid); }
    assert expected.manifest.Some? ==> c.parse(c.print_(expected.manifest.value)) == Some(expected.manifest.value);
    assert IsManifest(c, items, expected, parsed.value);
    return Ok(parsed.value);
  }

  /** Accepts exactly the archives that represent their manifest and meet the expectations. */
  method VerifyBundle(c: Codec, zip: Bytes, expected: Expected) returns (r: Result<Verified, BundleError>)
    requires Faithful(c)
    ensures r.Ok? <==> exists v :: Acceptable(c, zip, expected, v)
    ensures r.Ok? ==> Acceptable(c, zip, expected, r.value)
  {
    if !Meets(expected.zipSha, c.sha(zip)) { return Err(HashMismatch); }
    var items := ReadStoreZip(c.sumOf, zip);
    if items.Err? { return Err(ZipInvalid); }
    AcceptedIsIntact(c.sumOf, zip);
    r := VerifyEntries(c, c.sha(zip), items.value, expected);
    AcceptableIs(c, zip, expected, items.value);
  }

  lemma AcceptableIs(c: Codec, zip: Bytes, expected: Expected, items: seq<Item>)
    requires Read(c.sumOf, zip) == Ok(items)
    ensures forall v :: Acceptable(c, zip, expected, v) <==> EntriesAcceptable(c, c.sha(zip), items, expected, v)
  {
  }

  method VerifyEntries(c: Codec, zipSha: Hash, items: seq<Item>, expected: Expected) returns (r: Result<Verified, BundleError>)
    requires Faithful(c) && DistinctNames(items) && Meets(expected.zipSha, zipSha)
    ensures r.Ok? <==> exists v :: EntriesAcceptable(c, zipSha, items, expected, v)
    ensures r.Ok? ==> EntriesAcceptable(c, zipSha, items, expected, r.value)
  {
    var manifest := ReadManifest(c, items, expected);
    if manifest.Err? {
      assert forall v :: EntriesAcceptable(c, zipSha, items, expected, v) ==> IsManifest(c, items, expected, v.manifest);
      return Err(manifest.error);
    }
    var m := manifest.value;
    SameManifest(c, zipSha, expected, items, m);
    var checked := CheckContents(c, items, m);
    if checked.Err? { return Err(checked.error); }
    var v := Verified(zipSha, c.sha(c.print_(m)), m);
    assert EntriesAcceptable(c, zipSha, items, expected, v);
    return Ok(v);
  }

  /** The manifest and the entries name each other exactly. */
  method CheckContents(c: Codec, items: seq<Item>, m: Manifest) returns (r: Result<(), BundleError>)
    requires DistinctNames(items) && DataOf(items, MANIFEST_JSON) == Some(c.print_(m)) && ManifestShape(m)
    ensures r.Ok? <==> Represents(c, items, m)
  {
    var paths := CheckFiles(c, items, m.files);
    if paths.Err? { return Err(paths.error); }
    if NETWORK_YAML !in paths.value { return Err(ManifestInvalid); }
    DataOfNamed(items, MANIFEST_JSON);
    PathsAreNames(c, items, m.files);
    var unexpected := set name | name in NamesOf(items) && name != MANIFEST_JSON && name !in paths.value;
    assert unexpected == {} <==> NamesOf(items) == {MANIFEST_JSON} + PathsOf(m.files);
    if unexpected != {} || |items| != |m.files| + 1 { return Err(FileMismatch); }
    return Ok(());
  }

  /** An archive has one manifest at most. */
  lemma SameManifest(c: Codec, zipSha: Hash, expected: Expected, items: seq<Item>, m: Manifest)
    requires Faithful(c) && DataOf(items, MANIFEST_JSON) == Some(c.print_(m))
    ensures forall v :: EntriesAcceptable(c, zipSha, items, expected, v) ==> v.manifest == m
  {
    assert c.parse(c.print_(m)) == Some(m);
    forall v | EntriesAcceptable(c, zipSha, items, expected, v) ensures v.manifest == m {
      assert c.parse(c.print_(v.manifest)) == Some(v.manifest);
    }
  }

  /** SHA-256 taken for collision-free. */
  ghost predicate CollisionFree(c: Codec) {
    forall x: Bytes, y: Bytes :: c.sha(x) == c.sha(y) ==> x == y
  }

  /** As far as hashes do not collide, a manifest determines the files: two accepted archives with it hold the same data. */
  lemma ManifestDeterminesFiles(c: Codec, x: seq<Item>, y: seq<Item>, m: Manifest, name: Bytes)
    requires CollisionFree(c) && Represents(c, x, m) && Represents(c, y, m)
    ensures DataOf(x, name) == DataOf(y, name)
  {
    DataOfNamed(x, name);
    DataOfNamed(y, name);
    if name in PathsOf(m.files) {
      var i :| 0 <= i < |m.files| && m.files[i].path == name;
      assert FileMatches(c, x, m.files[i]) && FileMatches(c, y, m.files[i]);
    }
  }

  /** In an accepted manifest only network.yaml is no job, and every exception is that of its own node. */
  lemma AcceptedFiles(m: Manifest, f: File)
    requires ManifestShape(m) && f in m.files
    ensures f.job.None? <==> f.path == NETWORK_YAML
    ensures f.job.Some? ==> IsJobPath(f.path)
    ensures f.job.Some? ==> forall e :: e in f.job.value.exceptions ==> e.nodeId == f.job.value.nodeId && "KSQL1306" in f.job.value.codes
  {
    var i :| 0 <= i < |m.files| && m.files[i] == f;
    assert FileShape(m.files[i]);
  }

  // ---- Every built bundle verifies ----------------------------------------

  lemma BuiltShape(c: Codec, yaml: Bytes, jobs: seq<Job>)
    requires JobsValid(jobs)
    ensures ManifestShape(Manifest(FilesOf(c, yaml, jobs)))
  {
    var files := FilesOf(c, yaml, jobs);
    forall i | 0 <= i < |files| ensures FileShape(files[i]) {
      if i > 0 {
        assert JobValid(jobs[i - 1]);
        JobIsNotNetwork(jobs[i - 1].path);
      }
    }
  }

  lemma JobIsNotNetwork(path: Bytes)
    requires IsJobPath(path)
    ensures path != NETWORK_YAML
  {
    assert path[..5] == JOBS && JOBS[0] == 0x6a && NETWORK_YAML[0] == 0x6e;
    assert path[0] == path[..5][0];
  }

  /** What the writer was given is what the entries hold. */
  lemma EntryData(sumOf: SumOf, entries: seq<Input>, k: nat)
    requires DistinctNames(ItemsOf(sumOf, entries)) && k < |entries|
    ensures DataOf(ItemsOf(sumOf, entries), entries[k].name) == Some(entries[k].data)
  {
    DataOfEntry(ItemsOf(sumOf, entries), k);
  }

  lemma BuiltFiles(c: Codec, yaml: Bytes, jobs: seq<Job>, items: seq<Item>)
    requires items == ItemsOf(c.sumOf, AllEntries(c, yaml, jobs)) && DistinctNames(items)
    ensures forall i :: 0 <= i < |FilesOf(c, yaml, jobs)| ==> FileMatches(c, items, FilesOf(c, yaml, jobs)[i])
    ensures DistinctFiles(FilesOf(c, yaml, jobs))
    ensures forall i :: 0 <= i < |FilesOf(c, yaml, jobs)| ==> FilesOf(c, yaml, jobs)[i].path == items[i].name
    ensures items[|jobs| + 1].name == MANIFEST_JSON
    ensures DataOf(items, MANIFEST_JSON) == Some(c.print_(Manifest(FilesOf(c, yaml, jobs))))
  {
    var entries, files := AllEntries(c, yaml, jobs), FilesOf(c, yaml, jobs);
    forall i | 0 <= i < |files| ensures FileMatches(c, items, files[i]) && files[i].path == items[i].name {
      EntryData(c.sumOf, entries, i);
      assert entries[i] == DataEntries(yaml, jobs)[i];
    }
    EntryData(c.sumOf, entries, |jobs| + 1);
  }

  lemma BuiltNames(items: seq<Item>, files: seq<File>)
    requires |items| == |files| + 1 && items[|files|].name == MANIFEST_JSON
    requires forall i :: 0 <= i < |files| ==> files[i].path == items[i].name
    ensures NamesOf(items) == {MANIFEST_JSON} + PathsOf(files)
  {
    forall name | name in NamesOf(items) ensures name in {MANIFEST_JSON} + PathsOf(files) {
      var i :| 0 <= i < |items| && items[i].name == name;
      assert i < |files| ==> files[i].path == name;
    }
    forall name | name in PathsOf(files) ensures name in NamesOf(items) {
      var i :| 0 <= i < |files| && files[i].path == name;
      assert items[i].name == name;
    }
    assert items[|files|].name in NamesOf(items);
  }

  /** Verification accepts every built bundle against its own hashes and manifest. */
  lemma BuiltVerifies(c: Codec, yaml: Bytes, jobs: seq<Job>)
    requires Faithful(c) && JobsValid(jobs) && Writable(c.sumOf, AllEntries(c, yaml, jobs))
    ensures var b := BundleOf(c, yaml, jobs);
      Acceptable(c, b.zip, Expected(Some(b.zipSha), Some(b.manifestSha), Some(b.manifest)),
                 Verified(b.zipSha, b.manifestSha, b.manifest))
  {
    var items, files := ItemsOf(c.sumOf, AllEntries(c, yaml, jobs)), FilesOf(c, yaml, jobs);
    RoundTrip(c.sumOf, AllEntries(c, yaml, jobs));
    BuiltShape(c, yaml, jobs);
    BuiltFiles(c, yaml, jobs, items);
    BuiltNames(items, files);
    assert files[0].path == NETWORK_YAML;
    assert Represents(c, items, Manifest(files));
  }
}
