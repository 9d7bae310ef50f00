/** Where the shuffle writer puts its files: `PathBuf::push` on a Unix-like
    system and the two layouts built from it,
    `work_dir/job_id/stage_id/output_partition/data-{input_partition}.arrow`
    for hash partitioning and
    `work_dir/job_id/stage_id/input_partition/data.arrow` without it. */
module ShufflePaths {
  import opened Text

  predicate IsAbsolute(p: string) {
    |p| > 0 && p[0] == '/'
  }

  predicate EndsWithSeparator(p: string) {
    |p| > 0 && p[|p| - 1] == '/'
  }

  predicate NoSeparator(s: string) {
    forall i :: 0 <= i < |s| ==> s[i] != '/'
  }

  predicate EndsWith(s: string, suffix: string) {
    |suffix| <= |s| && s[|s| - |suffix|..] == suffix
  }

  /** The separator `PathBuf::push` puts between `base` and a relative
      component: none after an empty path or one that already ends in `/`. */
  function Joint(base: string): string {
    if |base| > 0 && !EndsWithSeparator(base) then "/" else ""
  }

  /** `PathBuf::push`: an absolute component replaces the whole path. */
  function Push(base: string, comp: string): string {
    if IsAbsolute(comp) then comp else base + Joint(base) + comp
  }

  /** `work_dir/job_id/stage_id` */
  function StageDir(workDir: string, jobId: string, stageId: nat): string {
    Push(Push(workDir, jobId), NatToString(stageId))
  }

  /** The file one input partition writes for one output partition under
      hash partitioning (shuffle_writer.rs lines 389-399). */
  function HashFilePath(workDir: string, jobId: string, stageId: nat,
                        outputPartition: nat, inputPartition: nat): string
  {
    var dir := Push(StageDir(workDir, jobId, stageId), NatToString(outputPartition));
    Push(dir, "data-" + NatToString(inputPartition) + ".arrow")
  }

  /** The single file of an input partition when there is no shuffle
      partitioning (shuffle_writer.rs lines 216-223). */
  function UnpartitionedPath(workDir: string, jobId: string, stageId: nat,
                             inputPartition: nat): string
  {
    Push(Push(StageDir(workDir, jobId, stageId), NatToString(inputPartition)), "data.arrow")
  }

  lemma DigitsHaveNoSeparator(n: nat)
    ensures NoSeparator(NatToString(n)) && !IsAbsolute(NatToString(n))
    ensures !EndsWithSeparator(NatToString(n))
  {
  }

  /** Pushing a relative component that does not end in `/`, and then a
      relative file name, onto `dir`. */
  lemma PushThenFile(dir: string, comp: string, file: string)
    requires |comp| > 0 && !IsAbsolute(comp) && !EndsWithSeparator(comp) && !IsAbsolute(file)
    ensures Push(Push(dir, comp), file) == (dir + Joint(dir)) + (comp + "/" + file)
  {
    var d := dir + Joint(dir) + comp;
    assert d[|d| - 1] == comp[|comp| - 1];
    assert Push(d, file) == d + "/" + file;
  }

  /** Pushing a number and then a relative file name onto `dir`. */
  lemma PushNumberThenFile(dir: string, n: nat, file: string)
    requires !IsAbsolute(file)
    ensures Push(Push(dir, NatToString(n)), file) == (dir + Joint(dir)) + (NatToString(n) + "/" + file)
  {
    DigitsHaveNoSeparator(n);
    PushThenFile(dir, NatToString(n), file);
  }

  /** In `a/b` with `a` free of separators, the first `/` is at `|a|`. */
  lemma FirstSeparator(a: string, b: string)
    requires NoSeparator(a)
    ensures (a + "/" + b)[|a|] == '/'
    ensures forall k :: 0 <= k < |a| ==> (a + "/" + b)[k] != '/'
  {
    forall k | 0 <= k < |a| ensures (a + "/" + b)[k] != '/' {
      assert (a + "/" + b)[k] == a[k];
    }
  }

  /** If `a` and `c` hold no separator, `a/b == c/d` splits the same way. */
  lemma SplitAtFirstSeparator(a: string, b: string, c: string, d: string)
    requires NoSeparator(a) && NoSeparator(c)
    requires a + "/" + b == c + "/" + d
    ensures a == c && b == d
  {
    FirstSeparator(a, b);
    FirstSeparator(c, d);
    assert |a| == |c|;
    var s := a + "/" + b;
    assert a == s[..|a|];
    assert c == s[..|c|];
    assert b == s[|a| + 1..];
    assert d == s[|c| + 1..];
  }

  lemma StripCommonPrefix(lead: string, t1: string, t2: string)
    requires lead + t1 == lead + t2
    ensures t1 == t2
  {
    assert t1 == (lead + t1)[|lead|..];
    assert t2 == (lead + t2)[|lead|..];
  }

  /** Under hash partitioning no two (output partition, input partition)
      pairs of one stage share a file. */
  lemma HashFilePathsDistinct(workDir: string, jobId: string, stageId: nat,
                              o1: nat, i1: nat, o2: nat, i2: nat)
    requires HashFilePath(workDir, jobId, stageId, o1, i1) == HashFilePath(workDir, jobId, stageId, o2, i2)
    ensures o1 == o2 && i1 == i2
  {
    var dir := StageDir(workDir, jobId, stageId);
    var n1, n2 := NatToString(o1), NatToString(o2);
    var m1, m2 := NatToString(i1), NatToString(i2);
    var f1 := "data-" + m1 + ".arrow";
    var f2 := "data-" + m2 + ".arrow";
    PushNumberThenFile(dir, o1, f1);
    PushNumberThenFile(dir, o2, f2);
    StripCommonPrefix(dir + Joint(dir), n1 + "/" + f1, n2 + "/" + f2);
    DigitsHaveNoSeparator(o1);
    DigitsHaveNoSeparator(o2);
    SplitAtFirstSeparator(n1, f1, n2, f2);
    assert m1 == f1[5..|f1| - 6];
    assert m2 == f2[5..|f2| - 6];
    NatToStringInjective(o1, o2);
    NatToStringInjective(i1, i2);
  }

  /** Without shuffle partitioning each input partition has its own file. */
  lemma UnpartitionedPathsDistinct(workDir: string, jobId: string, stageId: nat, i1: nat, i2: nat)
    requires UnpartitionedPath(workDir, jobId, stageId, i1) == UnpartitionedPath(workDir, jobId, stageId, i2)
    ensures i1 == i2
  {
    var dir := StageDir(workDir, jobId, stageId);
    var n1, n2 := NatToString(i1), NatToString(i2);
    PushNumberThenFile(dir, i1, "data.arrow");
    PushNumberThenFile(dir, i2, "data.arrow");
    StripCommonPrefix(dir + Joint(dir), n1 + "/" + "data.arrow", n2 + "/" + "data.arrow");
    DigitsHaveNoSeparator(i1);
    DigitsHaveNoSeparator(i2);
    SplitAtFirstSeparator(n1, "data.arrow", n2, "data.arrow");
    NatToStringInjective(i1, i2);
  }

  /** Pushing a relative component onto a non-empty path that does not end
      in `/` adds exactly one separator. */
  lemma PushWithSeparator(base: string, comp: string)
    requires |base| > 0 && !EndsWithSeparator(base) && !IsAbsolute(comp)
    ensures Push(base, comp) == base + "/" + comp
  {
  }

  lemma LastOfAppend(x: string, y: string)
    requires |y| > 0
    ensures |x + y| > 0 && (x + y)[|x + y| - 1] == y[|y| - 1]
  {
  }

  /** With a plain job id the hash-partitioned file sits at
      `<work_dir pushed with job_id>/stage_id/output_partition/data-{input_partition}.arrow`. */
  lemma HashFilePathLayout(workDir: string, jobId: string, stageId: nat,
                           outputPartition: nat, inputPartition: nat)
    requires |jobId| > 0 && !IsAbsolute(jobId) && !EndsWithSeparator(jobId)
    ensures HashFilePath(workDir, jobId, stageId, outputPartition, inputPartition)
         == Push(workDir, jobId) + "/" + NatToString(stageId) + "/" + NatToString(outputPartition)
            + "/" + ("data-" + NatToString(inputPartition) + ".arrow")
  {
    var job := Push(workDir, jobId);
    LastOfAppend(workDir + Joint(workDir), jobId);
    DigitsHaveNoSeparator(stageId);
    DigitsHaveNoSeparator(outputPartition);
    PushWithSeparator(job, NatToString(stageId));
    var d1 := job + "/" + NatToString(stageId);
    LastOfAppend(job + "/", NatToString(stageId));
    PushWithSeparator(d1, NatToString(outputPartition));
    var d2 := d1 + "/" + NatToString(outputPartition);
    LastOfAppend(d1 + "/", NatToString(outputPartition));
    PushWithSeparator(d2, "data-" + NatToString(inputPartition) + ".arrow");
  }

  /** The same for the unpartitioned file. */
  lemma UnpartitionedPathLayout(workDir: string, jobId: string, stageId: nat, inputPartition: nat)
    requires |jobId| > 0 && !IsAbsolute(jobId) && !EndsWithSeparator(jobId)
    ensures UnpartitionedPath(workDir, jobId, stageId, inputPartition)
         == Push(workDir, jobId) + "/" + NatToString(stageId) + "/" + NatToString(inputPartition)
            + "/" + "data.arrow"
  {
    var job := Push(workDir, jobId);
    LastOfAppend(workDir + Joint(workDir), jobId);
    DigitsHaveNoSeparator(stageId);
    DigitsHaveNoSeparator(inputPartition);
    PushWithSeparator(job, NatToString(stageId));
    var d1 := job + "/" + NatToString(stageId);
    LastOfAppend(job + "/", NatToString(stageId));
    PushWithSeparator(d1, NatToString(inputPartition));
    var d2 := d1 + "/" + NatToString(inputPartition);
    LastOfAppend(d1 + "/", NatToString(inputPartition));
    PushWithSeparator(d2, "data.arrow");
  }

  lemma EndsWithConcat(p: string, t: string)
    ensures EndsWith(p + t, t)
  {
    assert (p + t)[|p + t| - |t|..] == t;
  }

  /** What stays of `work_dir` in front of `/job_id`. */
  function DirPrefix(workDir: string): string {
    if EndsWithSeparator(workDir) then workDir[..|workDir| - 1] else workDir
  }

  lemma PushOntoPrefix(workDir: string, comp: string)
    requires |workDir| > 0 && !IsAbsolute(comp)
    ensures Push(workDir, comp) == DirPrefix(workDir) + "/" + comp
  {
    if EndsWithSeparator(workDir) {
      assert workDir == DirPrefix(workDir) + "/";
    }
  }

  /** Below a non-empty `work_dir`, a path built by pushing `job` and then
      three more components ends in those four components. */
  lemma LayoutSuffix(workDir: string, job: string, stage: string, part: string, file: string)
    requires |workDir| > 0 && !IsAbsolute(job)
    ensures EndsWith(Push(workDir, job) + "/" + stage + "/" + part + "/" + file,
                     "/" + job + "/" + stage + "/" + part + "/" + file)
  {
    PushOntoPrefix(workDir, job);
    var tail := "/" + job + "/" + stage + "/" + part + "/" + file;
    assert Push(workDir, job) + "/" + stage + "/" + part + "/" + file == DirPrefix(workDir) + tail;
    EndsWithConcat(DirPrefix(workDir), tail);
  }

  lemma JobOneFile(workDir: string, outputPartition: nat)
    requires |workDir| > 0
    ensures EndsWith(HashFilePath(workDir, "jobOne", 1, outputPartition, 0),
                     "/jobOne/1/" + NatToString(outputPartition) + "/data-0.arrow")
  {
    HashFilePathLayout(workDir, "jobOne", 1, outputPartition, 0);
    LayoutSuffix(workDir, "jobOne", NatToString(1), NatToString(outputPartition), "data-" + NatToString(0) + ".arrow");
    JobOneSuffix(NatToString(outputPartition));
  }

  lemma JobOneSuffix(o: string)
    ensures "/" + "jobOne" + "/" + NatToString(1) + "/" + o + "/" + ("data-" + NatToString(0) + ".arrow")
         == "/jobOne/1/" + o + "/data-0.arrow"
  {
    SmallNumerals();
    Regroup(NatToString(1), o, "data-" + NatToString(0) + ".arrow");
  }

  lemma SmallNumerals()
    ensures NatToString(0) == "0" && NatToString(1) == "1"
  {
    assert NatToString(0) == "0";
    assert NatToString(1) == "1";
  }

  lemma Regroup(one: string, o: string, file: string)
    requires one == "1" && file == "data-0.arrow"
    ensures "/" + "jobOne" + "/" + one + "/" + o + "/" + file == "/jobOne/1/" + o + "/data-0.arrow"
  {
    var x := "/" + "jobOne" + "/" + one + "/";
    assert x == "/jobOne/1/";
    var y := "/" + file;
    assert y == "/data-0.arrow";
    assert "/" + "jobOne" + "/" + one + "/" + o + "/" + file == x + o + y;
  }
}
