# Parallel vs. sequential image-processing benchmark: a Dafny model

The system benchmarks one distributed job on a Dataproc cluster in two ways. A Flask page (`app.py`) submits the PySpark job twice on the same dataset and run id, first with `spark.default.parallelism=8` and then with `=1`. For each run it waits for the job, describes it, and measures the time between the job's first RUNNING state and the start of its final state. The job itself (`image_processing_v2.py`) lists the `.jpg`/`.jpeg`/`.png` objects under a `gs://bucket/prefix`. It converts each one to a grayscale JPEG written to `gs://output-bucket-ecc/processed/<run_id>/<file name>`, and reports each item as a success or a failure.

The model has four modules:

- `Wrappers` (`wrappers.dfy`): `Option` and `Result`.
- `Text` (`text.dfy`): the Python string operations the code uses. These are `strip()` (with Python's whitespace set), `lower()`, `startswith`, `endswith`, slicing `s[5:]`, `split(sep)`, `split(sep, 1)` and `split(sep)[-1]`, together with their round-trip and characterisation lemmas.
- `ImageJob` (`image_job.dfy`): `list_images_in_prefix`, `process_image`, the Spark map, the reporting loop and the job's main block.
- `Driver` (`driver.dfy`): `submit_and_wait` and `index`.

Every external call is an input:

- `Driver.Env.run` is the gcloud CLI's answer (return code, stdout, stderr) to a command line.
- `Driver.Env.decodeJson` is `json.loads` of the describe output, giving a typed `Metadata`. A missing `status` is a record whose fields are all absent; a missing `statusHistory` is the empty sequence.
- `Driver.Env.parseTime` is `datetime.fromisoformat` of an RFC 3339 timestamp, as integer microseconds since the epoch.
- `list` in `ImageJob` is the object-store listing for a (bucket, blob prefix).
- `convert` in `ImageJob` is the download / decode / grayscale / encode / upload chain for one object. It ends as `DecodeFailed`, `EncodeFailed` or `Encoded(bytes)`.
- The run id and the HTTP method are parameters of `Driver.Index`.

`submit_and_wait` is the method `Driver.SubmitAndWait`, written with the source's early returns. Its `for rec in history` loop with `break` is `Driver.FindStart`. Both are proved equal to the specification functions `Driver.Drive` and `Driver.StartStamp`, and the lemmas about `Drive` state the promised behaviour. `index` is the method `Driver.Index`, which sets the metrics and the flashes step by step. The job's `__main__` is the method `ImageJob.RunJob` and its reporting loop is `ImageJob.Report`. The pure parts (command lists, timestamp selection, path parsing, filtering, key derivation, outcome tuples) are functions.

The code does not keep output keys distinct within one run. The key is built from the run id and the last path segment only. So `a/x.jpg` and `b/x.jpg` under one prefix are written to the same object, and the later upload wins (`ImageJob.SameFileNameSameKey`). The model follows the code. Keys of runs with different ids never collide (`ImageJob.DistinctRunsDistinctOutputs`).

An unknown dataset label makes `index` raise `KeyError`. The model returns `UnknownDataset` and submits nothing.

## Model

| member | source | states |
|---|---|---|
| `Text.StripSpec` | app.py:52-53 | `strip()` gives the text between the leading and the trailing run of whitespace, so it has no whitespace at either end, and it is empty exactly when the text is all whitespace |
| `Text.SplitOnceOfJoin` | image_processing_v2.py:30 | `split("/", 1)` of `a + "/" + b`, with no `/` in `a`, gives back `[a, b]` |
| `Text.JoinSplit` | image_processing_v2.py:49 | joining the pieces of `split('/')` with `/` gives the original name back |
| `Text.LastSegmentIsLastPiece` | image_processing_v2.py:49 | the text after the last `/` is exactly `split('/')[-1]` |
| `Text.LastSegmentIsMaximalSuffix` | image_processing_v2.py:49 | `split('/')[-1]` is the longest suffix of the name that has no `/` |
| `Text.LastSegmentOfJoin` | image_processing_v2.py:49 | the last segment of `dir + "/" + file` is `file` when `file` has no `/` |
| `ImageJob.SplitGcs` | image_processing_v2.py:30 | `gcs_path[5:].split("/", 1)` unpacks exactly when a `/` follows the first five characters; the bucket has no `/`; bucket, `/` and key rebuild the text |
| `ImageJob.SplitFullPath` | image_processing_v2.py:18-30 | splitting `gs://b/n` after five characters at the first `/` gives `(b, n)` back whenever `b` has no `/` |
| `ImageJob.ImageNameIgnoresCase` | image_processing_v2.py:21 | two names with the same lower-cased form pass or fail the extension test together |
| `ImageJob.KeepImages` | image_processing_v2.py:18-22 | every kept entry is `gs://bucket/name` for an image name of the listing, and every image name of the listing is kept |
| `ImageJob.KeepImagesAppend` | image_processing_v2.py:18-22 | the filter of a concatenated listing is the concatenation of the filters, so listing order is kept |
| `ImageJob.ListImages` | image_processing_v2.py:13-22 | a prefix without `gs://` fails the assert; one with no `/` after the bucket fails to unpack; it succeeds exactly when both hold |
| `ImageJob.ListImagesOfPrefix` | image_processing_v2.py:13-22 | for `gs://bucket/p`, the result is the filtered listing of (bucket, p) |
| `ImageJob.ListedPathsSplitBack` | image_processing_v2.py:18-30 | every listed path splits back into the prefix's bucket and an image name that the store listed |
| `ImageJob.OutputPathSplits` | image_processing_v2.py:52 | the output path splits into the output bucket and the output key |
| `ImageJob.OutputKeyShape` | image_processing_v2.py:48-49 | the key is `processed/<run_id>/<file>` with the run id and the object's file name unchanged |
| `ImageJob.OutputKeyInjective` | image_processing_v2.py:49 | equal keys have equal run ids and equal file names |
| `ImageJob.DistinctRunsDistinctOutputs` | image_processing_v2.py:48-52 | runs with different ids never produce the same output path |
| `ImageJob.SameFileNameSameKey` | image_processing_v2.py:49 | within one run, objects with the same file name in different folders get the same key |
| `ImageJob.ProcessImage` | image_processing_v2.py:24-52 | the item succeeds exactly when its path splits, and its first component is the input path unchanged |
| `ImageJob.ProcessImageOutcome` | image_processing_v2.py:38-52 | a decode or encode failure gives `(path, None)`; success gives the output path for the run id and blob name, which is truthy |
| `ImageJob.CollectAllSpec` | image_processing_v2.py:72-76 | `collect()` of the mapped tasks succeeds exactly when every task does, and then holds each item's own result at that item's position |
| `ImageJob.ProcessAllSpec` | image_processing_v2.py:72-76 | one outcome per path, in order, each that path's `process_image` result; the job fails exactly when some path fails to split |
| `ImageJob.ListedPathsProcess` | image_processing_v2.py:65-76 | the paths the listing produces never make a task raise |
| `ImageJob.ListedItemOutcome` | image_processing_v2.py:18-52 | a listed path never makes its task raise, and its output is truthy exactly when it is present |
| `ImageJob.ListedOutputsTruthy` | image_processing_v2.py:65-82 | every outcome of the listed paths is reported as a success exactly when it has an output path |
| `ImageJob.Report` | image_processing_v2.py:78-82 | one report line per outcome, with the same path; success exactly when the output is truthy, carrying that output |
| `ImageJob.RunJob` | image_processing_v2.py:54-84 | exit 1 with nothing processed for a wrong argument count, a bad prefix or an empty listing; otherwise exit 0 with every listed path processed and reported, success exactly when it has an output |
| `Driver.SubmitCommandLayout` | app.py:41-48 | the submit command is the ten fixed words, then the flags in order, then `--`, then the script arguments in order |
| `Driver.MissingListsAreEmpty` | app.py:37-38 | missing flags or arguments give the same command as empty lists |
| `Driver.FirstRunning` | app.py:84-88 | the position found holds the first RUNNING record; no earlier record is RUNNING |
| `Driver.FindStart` | app.py:84-88 | the loop with `break` yields the start time of the first RUNNING record, or None |
| `Driver.StartIsFirstRunning` | app.py:84-88 | the start is the first RUNNING record's `stateStartTime`, even when that time is missing |
| `Driver.NoRunningNoStart` | app.py:84-88 | with no RUNNING record there is no start time |
| `Driver.LaterRecordsIgnored` | app.py:84-88 | records after the first RUNNING one never change the start time |
| `Driver.SubmitAndWait` | app.py:28-98 | the staged calls, the history scan and the result equal the specification `Drive` |
| `Driver.FailedStepShortCircuits` | app.py:50-74 | a non-zero return code at submit, wait or describe gives `(None, that step's stderr stripped)`, and no later command is issued |
| `Driver.JobIdThreaded` | app.py:53-71 | after a successful submit, the wait and describe commands carry the stripped submit stdout as the job id, with the same region and project |
| `Driver.CompletedJobOutcome` | app.py:76-98 | after three successful steps, a missing or empty start or end time gives exactly the timestamp error; otherwise the time is end minus start, where the end is `status.stateStartTime`, and the log is the stripped wait stdout |
| `Driver.NeverRunningIsTimestampError` | app.py:84-91 | a job whose history never shows RUNNING ends with the timestamp error, whatever the other fields hold |
| `Driver.ErrorFlashes` | app.py:122-125 | a sub-run flashes one `danger` message with its own log exactly when it has no time |
| `Driver.SubRunsDifferOnlyInParallelism` | app.py:110-113 | the two submissions are equal except for `spark.default.parallelism=8` versus `=1`, and both end with `--`, the prefix and the shared run id |
| `Driver.Index` | app.py:101-125 | a GET renders nothing; an unknown label submits nothing; otherwise the parallel run's commands precede the sequential run's, metrics exist exactly when both have a time and carry each run's own time, and each failed run flashes its own error independently |

## Left out

- Flask routing, templates, the rendered Spark UI link and dataset list, `os.urandom` secret keys, the dev server, and a form without a `dataset` field: web plumbing. The two flash conditions are modelled as a list of `Flash` values.
- `subprocess.run` and the gcloud CLI: the answer to each command is the input function `Env.run`. The model therefore gives two identical command lines the same answer, which a real service need not do. A command that cannot be launched at all (for example `FileNotFoundError` when `gcloud.cmd` is not on the `PATH`) raises out of `submit_and_wait` and `index` in the source. The model has no such case: `Env.run` always returns a `CmdResult`.
- `json.loads` and dictionary access on arbitrary JSON: replaced by the typed `Metadata` with optional fields. Malformed JSON and fields of an unexpected JSON type, which raise in the source, are not modelled.
- `datetime.fromisoformat`, the `Z` → `+00:00` rewrite and `total_seconds()`: parsing is the input function `Env.parseTime`, which always gives an instant. A timestamp the parser rejects, which raises in the source, is not modelled.
- Driver.CompletedJobOutcome: the elapsed time is integer microseconds, not floating-point seconds.
- Driver.Index: the metrics carry each run's elapsed time as is; `round(p_time / 60, 2)` is float arithmetic and is not modelled. The `KeyError` of an unknown label is the `UnknownDataset` response rather than a server error.
- `datetime.utcnow()` for the run id: clock-dependent, so the run id is a parameter.
- The GCS listing, download and upload, and the cv2 decode, grayscale and encode steps: foreign libraries. They are the inputs `list` and `convert`. Download or upload errors, which raise in the source, are not modelled. Neither are listing errors: a missing bucket, a denied permission or an invalid bucket name (such as the empty bucket of `gs:///x`) makes the listing raise, which ends the job with exit code 1. In the model `list` always returns names, so `ImageJob.RunJob` ends with `NoImages` or `Completed` for every prefix that passes the `gs://` check and the bucket split. The listing may return any names; the real store returns only names under the prefix.
- The Spark `parallelize/map/collect` fan-out and partitioning: modelled as a sequential map over the path list (`ImageJob.ProcessAll`). When several tasks would raise, the model reports the first; listed paths never raise.
- `print` and `spark.stop()`: I/O. The report is returned as `ReportLine` values.
- `str.lower()` is modelled on ASCII letters only. Python also lower-cases non-ASCII letters, which the model leaves unchanged.
- The `assert` in `list_images_in_prefix` is modelled as always active; running Python with `-O` would skip it.
