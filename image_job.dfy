/**
 * The distributed image job (`image_processing_v2.py`): discovering the
 * images under a `gs://bucket/prefix`, turning each into a grayscale JPEG
 * written under `processed/<run_id>/` in the output bucket, and the job's
 * driver that checks its arguments and reports each item.
 *
 * The object store, the image codec and the Spark fan-out are external: the
 * listing is the function `list` from (bucket, blob prefix) to blob names, and
 * the download/decode/grayscale/encode/upload chain is the function `convert`
 * from (bucket, blob name) to its outcome.
 */
module ImageJob {
  import opened Wrappers
  import opened Text

  /** The bucket every processed image is written to. */
  const OutputBucket: string := "output-bucket-ecc"

  /** The extensions an object name must end with, ignoring case, to count as an image. */
  const ImageExtensions: seq<string> := [".jpg", ".jpeg", ".png"]

  /** Why a path cannot be taken apart: the failed `assert`, or too few values to unpack. */
  datatype PathError =
    | NotGcsPrefix      // AssertionError "Prefix must start with gs://"
    | MissingSeparator  // ValueError: `split("/", 1)` gave one piece

  /** How the image steps end for one object (the decode and encode results of cv2). */
  datatype Conversion =
    | DecodeFailed                    // `cv2.imdecode` returned None
    | EncodeFailed                    // `cv2.imencode` returned ok == False
    | Encoded(jpeg: seq<bv8>)         // the grayscale JPEG that is uploaded

  /** The pair `(gcs_path, output path or None)` that `process_image` returns. */
  datatype ItemResult = ItemResult(orig: string, out: Option<string>)

  /** One line of the job's report: a success with its output, or a failure. */
  datatype ReportLine = Succeeded(orig: string, out: string) | Failed(orig: string)

  /** How the job's main block ends. */
  datatype JobEnd =
    | Usage                 // wrong number of arguments
    | BadPrefix(e: PathError) // the prefix could not be parsed (uncaught exception)
    | NoImages              // nothing to process
    | Completed             // every item was processed and reported

  /** The full location of object `name` in `bucket` (the source's `f"gs://{bucket}/{name}"`). */
  function FullPath(bucket: string, name: string): string
  {
    "gs://" + bucket + "/" + name
  }

  /**
   * Takes a location apart into its bucket and object name, failing when no `/`
   * follows the scheme (the source's `gcs_path[5:].split("/", 1)` and its unpacking).
   */
  function SplitGcs(path: string): (r: Result<(string, string), PathError>)
    ensures r.Ok? <==> '/' in DropPrefix(path, 5)
    ensures r.Ok? ==> '/' !in r.value.0 && DropPrefix(path, 5) == r.value.0 + "/" + r.value.1
    ensures r.Err? ==> r.error == MissingSeparator
  {
    var parts := SplitOnce(DropPrefix(path, 5), '/');
    if |parts| == 2 then Ok((parts[0], parts[1])) else Err(MissingSeparator)
  }

  /** Taking apart a path built by `FullPath` gives its bucket and name back. */
  lemma SplitFullPath(bucket: string, name: string)
    requires '/' !in bucket
    ensures SplitGcs(FullPath(bucket, name)) == Ok((bucket, name))
  {
    assert DropPrefix(FullPath(bucket, name), 5) == bucket + ['/'] + name;
    SplitOnceOfJoin(bucket, '/', name);
  }

  /** Whether an object name has an image extension, ignoring case (`name.lower().endswith((".jpg", ".jpeg", ".png"))`). */
  predicate IsImageName(name: string)
  {
    exists ext :: ext in ImageExtensions && EndsWith(Lower(name), ext)
  }

  /** The extension test ignores the case of the name. */
  lemma ImageNameIgnoresCase(a: string, b: string)
    requires Lower(a) == Lower(b)
    ensures IsImageName(a) <==> IsImageName(b)
  {
  }

  /** The listing comprehension: the full path of each image name, in listing order. */
  function KeepImages(bucket: string, names: seq<string>): (r: seq<string>)
    ensures |r| <= |names|
    ensures forall x :: x in r ==> exists k :: 0 <= k < |names| && IsImageName(names[k]) && x == FullPath(bucket, names[k])
    ensures forall k :: 0 <= k < |names| && IsImageName(names[k]) ==> FullPath(bucket, names[k]) in r
  {
    if names == [] then []
    else
      (if IsImageName(names[0]) then [FullPath(bucket, names[0])] else [])
      + KeepImages(bucket, names[1..])
  }

  /** Filtering a concatenated listing is concatenating the filtered parts, so the order is kept. */
  lemma {:induction false} KeepImagesAppend(bucket: string, xs: seq<string>, ys: seq<string>)
    ensures KeepImages(bucket, xs + ys) == KeepImages(bucket, xs) + KeepImages(bucket, ys)
  {
    if xs == [] {
      assert xs + ys == ys;
    } else {
      assert (xs + ys)[0] == xs[0];
      assert (xs + ys)[1..] == xs[1..] + ys;
      KeepImagesAppend(bucket, xs[1..], ys);
    }
  }

  /** `list_images_in_prefix`: the image paths under `prefix`, given what the store lists. */
  function ListImages(prefix: string, list: (string, string) -> seq<string>): (r: Result<seq<string>, PathError>)
    ensures !StartsWith(prefix, "gs://") ==> r == Err(NotGcsPrefix)
    ensures StartsWith(prefix, "gs://") && '/' !in prefix[5..] ==> r == Err(MissingSeparator)
    ensures r.Ok? <==> StartsWith(prefix, "gs://") && '/' in prefix[5..]
  {
    if !StartsWith(prefix, "gs://") then Err(NotGcsPrefix)
    else
      match SplitGcs(prefix)
      case Err(e) => Err(e)
      case Ok((bucket, blobPrefix)) => Ok(KeepImages(bucket, list(bucket, blobPrefix)))
  }

  /**
   * What the listing returns: for a prefix `gs://bucket/p` with `bucket` free of `/`,
   * exactly the image names the store lists under (bucket, p), as full paths, in order.
   */
  lemma ListImagesOfPrefix(bucket: string, p: string, list: (string, string) -> seq<string>)
    requires '/' !in bucket
    ensures ListImages(FullPath(bucket, p), list) == Ok(KeepImages(bucket, list(bucket, p)))
  {
    SplitFullPath(bucket, p);
    assert FullPath(bucket, p)[..5] == "gs://";
  }

  /** Every listed path splits back into the bucket and an image name from the listing. */
  lemma ListedPathsSplitBack(prefix: string, list: (string, string) -> seq<string>, x: string)
    requires ListImages(prefix, list).Ok? && x in ListImages(prefix, list).value
    ensures SplitGcs(x).Ok?
    ensures SplitGcs(x).value.0 == SplitGcs(prefix).value.0
    ensures IsImageName(SplitGcs(x).value.1)
    ensures SplitGcs(x).value.1 in list(SplitGcs(prefix).value.0, SplitGcs(prefix).value.1)
    ensures x == FullPath(SplitGcs(x).value.0, SplitGcs(x).value.1)
  {
    var (bucket, blobPrefix) := SplitGcs(prefix).value;
    var names := list(bucket, blobPrefix);
    var k :| 0 <= k < |names| && IsImageName(names[k]) && x == FullPath(bucket, names[k]);
    SplitFullPath(bucket, names[k]);
  }

  /** The key a processed image is written under: the run's folder and the object's file name (`f"processed/{run_id}/{blob_name.split('/')[-1]}"`). */
  function OutputKey(runId: string, blobName: string): string
  {
    "processed/" + runId + "/" + LastSegment(blobName, '/')
  }

  /** The location of an output key in the output bucket (`f"gs://{OUTPUT_BUCKET}/{out_blob_name}"`). */
  function OutputPath(key: string): string
  {
    FullPath(OutputBucket, key)
  }

  /** The output location's bucket and key are recovered by the same path split. */
  lemma OutputPathSplits(key: string)
    ensures SplitGcs(OutputPath(key)) == Ok((OutputBucket, key))
  {
    SplitFullPath(OutputBucket, key);
  }

  /** The key holds the run id and the object's file name unchanged, and its file name is that name. */
  lemma OutputKeyShape(runId: string, dir: string, file: string)
    requires '/' !in file
    ensures OutputKey(runId, dir + "/" + file) == "processed/" + runId + "/" + file
    ensures OutputKey(runId, file) == "processed/" + runId + "/" + file
    ensures LastSegment(OutputKey(runId, dir + "/" + file), '/') == file
  {
    LastSegmentOfJoin(dir, '/', file);
    assert Split(file, '/') == [file];
    assert "processed/" + runId + "/" + file == ("processed/" + runId) + ['/'] + file;
    LastSegmentOfJoin("processed/" + runId, '/', file);
  }

  /**
   * Keys determine the run id and the file name: two keys are equal only for the
   * same run and the same last path segment. Runs with different ids never collide.
   */
  lemma OutputKeyInjective(r1: string, n1: string, r2: string, n2: string)
    requires OutputKey(r1, n1) == OutputKey(r2, n2)
    ensures r1 == r2
    ensures LastSegment(n1, '/') == LastSegment(n2, '/')
  {
    var b1, b2 := LastSegment(n1, '/'), LastSegment(n2, '/');
    LastSegmentIsMaximalSuffix(n1, '/');
    LastSegmentIsMaximalSuffix(n2, '/');
    var p := "processed/";
    assert OutputKey(r1, n1) == (p + r1) + ['/'] + b1;
    assert OutputKey(r2, n2) == (p + r2) + ['/'] + b2;
    JoinAtLastInjective(p + r1, b1, p + r2, b2, '/');
    assert r1 == (p + r1)[|p|..];
    assert r2 == (p + r2)[|p|..];
  }

  /** Outputs of runs with different ids never land on the same location. */
  lemma DistinctRunsDistinctOutputs(r1: string, n1: string, r2: string, n2: string)
    requires r1 != r2
    ensures OutputPath(OutputKey(r1, n1)) != OutputPath(OutputKey(r2, n2))
  {
    if OutputPath(OutputKey(r1, n1)) == OutputPath(OutputKey(r2, n2)) {
      OutputPathSplits(OutputKey(r1, n1));
      OutputPathSplits(OutputKey(r2, n2));
      OutputKeyInjective(r1, n1, r2, n2);
    }
  }

  /** Within one run, objects with the same file name in different folders share a key. */
  lemma SameFileNameSameKey(runId: string, dir1: string, dir2: string, file: string)
    requires '/' !in file
    ensures OutputKey(runId, dir1 + "/" + file) == OutputKey(runId, dir2 + "/" + file)
  {
    OutputKeyShape(runId, dir1, file);
    OutputKeyShape(runId, dir2, file);
  }

  /** `process_image(gcs_path, run_id)`: the path and where its grayscale copy went, if anywhere. */
  function ProcessImage(path: string, runId: string, convert: (string, string) -> Conversion): (r: Result<ItemResult, PathError>)
    ensures r.Ok? <==> SplitGcs(path).Ok?
    ensures r.Ok? ==> r.value.orig == path
  {
    match SplitGcs(path)
    case Err(e) => Err(e)
    case Ok((bucket, blobName)) =>
      match convert(bucket, blobName)
      case DecodeFailed => Ok(ItemResult(path, None))
      case EncodeFailed => Ok(ItemResult(path, None))
      case Encoded(_) => Ok(ItemResult(path, Some(OutputPath(OutputKey(runId, blobName)))))
  }

  /**
   * An item's outcome: no output when decoding or encoding fails, otherwise the
   * output location for its run id and file name, which is never empty.
   */
  lemma ProcessImageOutcome(bucket: string, name: string, runId: string, convert: (string, string) -> Conversion)
    requires '/' !in bucket
    ensures ProcessImage(FullPath(bucket, name), runId, convert).Ok?
    ensures ProcessImage(FullPath(bucket, name), runId, convert).value.out.None? <==> !convert(bucket, name).Encoded?
    ensures ProcessImage(FullPath(bucket, name), runId, convert).value.out.Some? ==>
      ProcessImage(FullPath(bucket, name), runId, convert).value.out.value == OutputPath(OutputKey(runId, name))
    ensures Truthy(ProcessImage(FullPath(bucket, name), runId, convert).value.out) <==> convert(bucket, name).Encoded?
  {
    SplitFullPath(bucket, name);
    assert |OutputPath(OutputKey(runId, name))| > 0;
  }

  /**
   * `collect()` of a map over the items: every task's result, in order, or the
   * error of the first task that raised.
   */
  function CollectAll<A, B, E>(items: seq<A>, task: A -> Result<B, E>): (r: Result<seq<B>, E>)
    ensures r.Ok? ==> |r.value| == |items|
  {
    if items == [] then Ok([])
    else
      var first := task(items[0]);
      var rest := CollectAll(items[1..], task);
      if first.Err? then Err(first.error)
      else if rest.Err? then Err(rest.error)
      else Ok([first.value] + rest.value)
  }

  /**
   * The collection succeeds exactly when every task does, and then holds each
   * item's own result at that item's position.
   */
  lemma {:induction false} CollectAllSpec<A, B, E>(items: seq<A>, task: A -> Result<B, E>)
    ensures CollectAll(items, task).Ok? <==> forall i :: 0 <= i < |items| ==> task(items[i]).Ok?
    ensures CollectAll(items, task).Ok? ==>
      forall i :: 0 <= i < |items| ==> task(items[i]) == Ok(CollectAll(items, task).value[i])
  {
    if items != [] {
      var tail := items[1..];
      CollectAllSpec(tail, task);
      var r := CollectAll(items, task);
      var rest := CollectAll(tail, task);
      var first := task(items[0]);
      if r.Ok? {
        assert first.Ok? && rest.Ok? && r.value == [first.value] + rest.value;
        forall i | 0 <= i < |items|
          ensures task(items[i]) == Ok(r.value[i])
        {
          if i > 0 {
            assert items[i] == tail[i - 1];
            assert r.value[i] == rest.value[i - 1];
          }
        }
      } else if first.Ok? {
        var j :| 0 <= j < |tail| && task(tail[j]).Err?;
        assert items[j + 1] == tail[j];
      }
    }
  }

  /** Processes every listed path in order, failing with the first task that raises (the Spark `parallelize`/`map`/`collect`, run sequentially). */
  function ProcessAll(paths: seq<string>, runId: string, convert: (string, string) -> Conversion): Result<seq<ItemResult>, PathError>
  {
    CollectAll(paths, p => ProcessImage(p, runId, convert))
  }

  /**
   * The job's outcomes: one per path, in order, each that path's own
   * `process_image` result; the job fails exactly when some path fails to split.
   */
  lemma ProcessAllSpec(paths: seq<string>, runId: string, convert: (string, string) -> Conversion)
    ensures ProcessAll(paths, runId, convert).Ok? <==> forall i :: 0 <= i < |paths| ==> ProcessImage(paths[i], runId, convert).Ok?
    ensures ProcessAll(paths, runId, convert).Ok? ==>
      && |ProcessAll(paths, runId, convert).value| == |paths|
      && forall i :: 0 <= i < |paths| ==> ProcessImage(paths[i], runId, convert) == Ok(ProcessAll(paths, runId, convert).value[i])
  {
    CollectAllSpec(paths, p => ProcessImage(p, runId, convert));
  }

  /** A listed path never makes its task raise, and its output, when there is one, is not empty. */
  lemma ListedItemOutcome(prefix: string, list: (string, string) -> seq<string>, runId: string, convert: (string, string) -> Conversion, x: string)
    requires ListImages(prefix, list).Ok? && x in ListImages(prefix, list).value
    ensures ProcessImage(x, runId, convert).Ok?
    ensures Truthy(ProcessImage(x, runId, convert).value.out) <==> ProcessImage(x, runId, convert).value.out.Some?
  {
    ListedPathsSplitBack(prefix, list, x);
    var (bucket, name) := SplitGcs(x).value;
    ProcessImageOutcome(bucket, name, runId, convert);
  }

  /** The paths the listing produces never make a task fail. */
  lemma ListedPathsProcess(prefix: string, list: (string, string) -> seq<string>, runId: string, convert: (string, string) -> Conversion)
    requires ListImages(prefix, list).Ok?
    ensures ProcessAll(ListImages(prefix, list).value, runId, convert).Ok?
  {
    var paths := ListImages(prefix, list).value;
    forall i | 0 <= i < |paths|
      ensures ProcessImage(paths[i], runId, convert).Ok?
    {
      ListedItemOutcome(prefix, list, runId, convert, paths[i]);
    }
    ProcessAllSpec(paths, runId, convert);
  }

  /** Every output the listed paths produce is a non-empty path, so it is reported as a success. */
  lemma ListedOutputsTruthy(prefix: string, list: (string, string) -> seq<string>, runId: string, convert: (string, string) -> Conversion)
    requires ListImages(prefix, list).Ok?
    ensures ProcessAll(ListImages(prefix, list).value, runId, convert).Ok?
    ensures var results := ProcessAll(ListImages(prefix, list).value, runId, convert).value;
      forall i :: 0 <= i < |results| ==> (Truthy(results[i].out) <==> results[i].out.Some?)
  {
    var paths := ListImages(prefix, list).value;
    ListedPathsProcess(prefix, list, runId, convert);
    ProcessAllSpec(paths, runId, convert);
    var results := ProcessAll(paths, runId, convert).value;
    forall i | 0 <= i < |results|
      ensures Truthy(results[i].out) <==> results[i].out.Some?
    {
      ListedItemOutcome(prefix, list, runId, convert, paths[i]);
      assert ProcessImage(paths[i], runId, convert) == Ok(results[i]);
    }
  }

  /** Python truthiness of the output: present and not the empty string. */
  predicate Truthy(out: Option<string>)
  {
    out.Some? && out.value != ""
  }

  /** The reporting loop: one line per outcome, success exactly when its output is truthy. */
  method Report(results: seq<ItemResult>) returns (report: seq<ReportLine>)
    ensures |report| == |results|
    ensures forall i :: 0 <= i < |results| ==> report[i].orig == results[i].orig
    ensures forall i :: 0 <= i < |results| ==> (report[i].Succeeded? <==> Truthy(results[i].out))
    ensures forall i :: 0 <= i < |results| && report[i].Succeeded? ==> results[i].out.Some? && report[i].out == results[i].out.value
  {
    report := [];
    for i := 0 to |results|
      invariant |report| == i
      invariant forall j :: 0 <= j < i ==> report[j].orig == results[j].orig
      invariant forall j :: 0 <= j < i ==> (report[j].Succeeded? <==> Truthy(results[j].out))
      invariant forall j :: 0 <= j < i && report[j].Succeeded? ==> results[j].out.Some? && report[j].out == results[j].out.value
    {
      var ItemResult(orig, out) := results[i];
      if Truthy(out) {
        report := report + [Succeeded(orig, out.value)];
      } else {
        report := report + [Failed(orig)];
      }
    }
  }

  /**
   * The job's main block for `argv` (the script name first): exit code, the
   * collected outcomes and the report.
   */
  method RunJob(argv: seq<string>, list: (string, string) -> seq<string>, convert: (string, string) -> Conversion)
    returns (exitCode: int, end: JobEnd, results: seq<ItemResult>, report: seq<ReportLine>)
    ensures exitCode == 0 <==> end == Completed
    ensures exitCode != 0 ==> exitCode == 1 && results == [] && report == []
    ensures |argv| != 3 ==> end == Usage
    ensures |argv| == 3 && ListImages(argv[1], list).Err? ==> end == BadPrefix(ListImages(argv[1], list).error)
    ensures |argv| == 3 && ListImages(argv[1], list) == Ok([]) ==> end == NoImages
    ensures |argv| == 3 && ListImages(argv[1], list).Ok? && ListImages(argv[1], list).value != [] ==>
      && end == Completed
      && ProcessAll(ListImages(argv[1], list).value, argv[2], convert) == Ok(results)
      && |report| == |results| == |ListImages(argv[1], list).value|
    ensures end == Completed ==> forall i :: 0 <= i < |results| ==>
      && report[i].orig == results[i].orig
      && (report[i].Succeeded? <==> results[i].out.Some?)
  {
    results, report := [], [];
    if |argv| != 3 {
      return 1, Usage, results, report;
    }
    var gcsPrefix, runId := argv[1], argv[2];
    var listed := ListImages(gcsPrefix, list);
    if listed.Err? {
      return 1, BadPrefix(listed.error), results, report;
    }
    var paths := listed.value;
    if paths == [] {
      return 1, NoImages, results, report;
    }
    ListedPathsProcess(gcsPrefix, list, runId, convert);
    ProcessAllSpec(paths, runId, convert);
    results := ProcessAll(paths, runId, convert).value;
    ListedOutputsTruthy(gcsPrefix, list, runId, convert);
    report := Report(results);
    return 0, Completed, results, report;
  }
}
