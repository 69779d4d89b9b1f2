/**
 * The batch run over an image folder: which directory entries count as
 * images and in what order they are processed, the name and MIME type each
 * one gets, the worker pool, and the tally of written and failed files.
 */
module Batch {
  import opened Wrappers
  import opened JsText

  // ---------------------------------------------------------------------------
  // extname / basename on a directory entry
  // ---------------------------------------------------------------------------

  /** The index of the last occurrence of c in s, if any. */
  function LastIndexOf(s: string, c: char): (r: Option<nat>)
    ensures r.Some? ==> r.value < |s| && s[r.value] == c
    ensures r.Some? ==> forall j :: r.value < j < |s| ==> s[j] != c
    ensures r.None? ==> forall j :: 0 <= j < |s| ==> s[j] != c
  {
    if s == [] then None
    else if s[|s| - 1] == c then Some(|s| - 1)
    else LastIndexOf(s[..|s| - 1], c)
  }

  /**
   * path.extname of a name without separators: from the last dot to the end,
   * except that there is none when the name has no dot, when its only dot
   * leads (".env"), and for "..".
   */
  function Extname(name: string): (ext: string)
    ensures ext != "" ==> |ext| < |name| && ext == name[|name| - |ext|..]
    ensures ext != "" ==> ext[0] == '.' && forall j :: 0 < j < |ext| ==> ext[j] != '.'
    ensures ext == "" ==> name == ".." || forall j :: 0 < j < |name| ==> name[j] != '.'
  {
    match LastIndexOf(name, '.')
    case None => ""
    case Some(d) => if d == 0 || name == ".." then "" else name[d..]
  }

  /**
   * A stem without dots followed by an extension of one leading dot: the
   * extension is exactly that suffix.
   */
  lemma ExtnameOfParts(stem: string, ext: string)
    requires stem != [] && forall j :: 0 <= j < |stem| ==> stem[j] != '.'
    requires ext != [] && ext[0] == '.' && forall j :: 0 < j < |ext| ==> ext[j] != '.'
    ensures Extname(stem + ext) == ext
  {
    var name := stem + ext;
    assert name[|stem|] == '.';
    assert forall j :: 0 <= j < |stem| ==> name[j] == stem[j];
    assert forall j :: |stem| < j < |name| ==> name[j] == ext[j - |stem|];
    assert name[0] == stem[0] != '.';
    assert name[|stem|..] == ext;
  }

  /** `basename(file, extname(file))`: the name with its extension cut off. */
  function Stem(name: string): (s: string)
    ensures |s| <= |name| && s == name[..|s|]
    ensures Extname(name) == "" ==> s == name
  {
    name[..|name| - |Extname(name)|]
  }

  /** Stem and extension put back together give the name. */
  lemma StemExtname(name: string)
    ensures Stem(name) + Extname(name) == name
  {
  }

  /** The stem of a name with an extension still has at least its first character and no trailing dot run of the extension. */
  lemma StemShorter(name: string)
    requires Extname(name) != ""
    ensures 0 < |Stem(name)| < |name|
  {
  }

  // ---------------------------------------------------------------------------
  // Picking the images
  // ---------------------------------------------------------------------------

  const ImageExtensions: set<string> := {".jpg", ".jpeg", ".png", ".webp"}

  /** `IMAGE_EXTENSIONS.has(extname(f).toLowerCase())` */
  predicate IsImage(name: string)
    ensures IsImage(name) ==> Extname(name) != ""
  {
    ToLower(Extname(name)) in ImageExtensions
  }

  /** The image entries of a listing, in listing order. */
  function FilterImages(names: seq<string>): (r: seq<string>)
    ensures forall x :: x in r ==> IsImage(x)
    ensures forall x :: multiset(r)[x] == if IsImage(x) then multiset(names)[x] else 0
  {
    if names == [] then []
    else
      var rest := FilterImages(names[1..]);
      assert names == [names[0]] + names[1..];
      if IsImage(names[0]) then [names[0]] + rest else rest
  }

  /**
   * The files the script processes: the image entries sorted as strings, or
   * the "No images found" error when there are none.
   */
  function SelectImages(folder: string, names: seq<string>): (r: Result<seq<string>, string>)
    ensures r.Failure? <==> forall x :: x in names ==> !IsImage(x)
    ensures r.Failure? ==> r.error == "No images found in: " + folder
    ensures r.Success? ==> SortedStrings(r.value) && |r.value| > 0
    ensures r.Success? ==> forall x :: multiset(r.value)[x] == if IsImage(x) then multiset(names)[x] else 0
  {
    var files := SortStrings(FilterImages(names));
    if |files| == 0 then
      assert forall x :: x in names ==> !IsImage(x) by {
        forall x | x in names ensures !IsImage(x) {
          assert multiset(files)[x] == 0;
        }
      }
      Failure("No images found in: " + folder)
    else
      assert files[0] in multiset(files);
      Success(files)
  }

  /** A name whose only dot leads it (".png", ".env") has no extension. */
  lemma ExtnameLeadingDot(rest: string)
    requires forall j :: 0 <= j < |rest| ==> rest[j] != '.'
    ensures Extname("." + rest) == ""
  {
    var name := "." + rest;
    assert name[0] == '.';
    assert forall j :: 0 < j < |name| ==> name[j] == rest[j - 1];
  }

  /**
   * A stem without dots and an extension of one leading dot: the name is an
   * image exactly when the lower-cased extension is an image extension, and
   * its stem is the given one.
   */
  lemma ImageOfParts(stem: string, ext: string)
    requires stem != [] && forall j :: 0 <= j < |stem| ==> stem[j] != '.'
    requires ext != [] && ext[0] == '.' && forall j :: 0 < j < |ext| ==> ext[j] != '.'
    ensures IsImage(stem + ext) <==> ToLower(ext) in ImageExtensions
    ensures Stem(stem + ext) == stem
  {
    ExtnameOfParts(stem, ext);
    assert (stem + ext)[..|stem|] == stem;
  }

  /** The test is on the lower-cased extension, so "IMG.JPG" is an image. */
  lemma UpperCaseExtensionIsImage()
    ensures IsImage("IMG.JPG")
  {
    ImageOfParts("IMG", ".JPG");
    assert "IMG" + ".JPG" == "IMG.JPG";
    assert ToLower(".JPG") == ".jpg";
  }

  /** A hidden file whose only dot leads it (".png", ".env") is never an image. */
  lemma HiddenFileIsNotImage(rest: string)
    requires forall j :: 0 <= j < |rest| ==> rest[j] != '.'
    ensures !IsImage("." + rest)
  {
    ExtnameLeadingDot(rest);
    assert ToLower("") == "";
  }

  // ---------------------------------------------------------------------------
  // Per-file names
  // ---------------------------------------------------------------------------

  /** `MIME_TYPES[ext] ?? 'image/jpeg'` for a lower-cased extension. */
  function MimeType(ext: string): (m: string)
    ensures ext == ".png" ==> m == "image/png"
    ensures ext == ".webp" ==> m == "image/webp"
    ensures ext != ".png" && ext != ".webp" ==> m == "image/jpeg"
  {
    if ext == ".jpg" || ext == ".jpeg" then "image/jpeg"
    else if ext == ".png" then "image/png"
    else if ext == ".webp" then "image/webp"
    else "image/jpeg"
  }

  /** The name of the JSON file written for an image: its stem plus ".json". */
  function OutputName(file: string): (o: string)
    ensures |o| >= 5 && o[|o| - 5..] == ".json"
    ensures Extname(file) == "" ==> o == file + ".json"
  {
    Stem(file) + ".json"
  }

  /** Two files get the same output name exactly when they have the same stem. */
  lemma OutputNameSameStem(f: string, g: string)
    ensures OutputName(f) == OutputName(g) <==> Stem(f) == Stem(g)
  {
    if OutputName(f) == OutputName(g) {
      assert Stem(f) == OutputName(f)[..|OutputName(f)| - 5];
      assert Stem(g) == OutputName(g)[..|OutputName(g)| - 5];
    }
  }

  /**
   * Two images with the same dot-free stem and different image extensions
   * ("a.jpg", "a.png") are both selected and both write the same output file.
   */
  lemma SameStemImagesCollide(stem: string, ext1: string, ext2: string)
    requires stem != [] && forall j :: 0 <= j < |stem| ==> stem[j] != '.'
    requires ext1 != [] && ext1[0] == '.' && forall j :: 0 < j < |ext1| ==> ext1[j] != '.'
    requires ext2 != [] && ext2[0] == '.' && forall j :: 0 < j < |ext2| ==> ext2[j] != '.'
    requires ToLower(ext1) in ImageExtensions && ToLower(ext2) in ImageExtensions
    ensures IsImage(stem + ext1) && IsImage(stem + ext2)
    ensures OutputName(stem + ext1) == OutputName(stem + ext2) == stem + ".json"
  {
    ImageOfParts(stem, ext1);
    ImageOfParts(stem, ext2);
  }

  // ---------------------------------------------------------------------------
  // runPool
  // ---------------------------------------------------------------------------

  /** `Array.from({ length: Math.min(concurrency, n) })`: a negative length gives no workers. */
  function Workers(concurrency: int, n: nat): (w: nat)
    ensures w <= n
    ensures w > 0 <==> concurrency > 0 && n > 0
    ensures concurrency >= 0 ==> w <= concurrency && (w == concurrency || w == n)
    ensures concurrency < 0 ==> w == 0
  {
    if concurrency < 0 then 0 else if concurrency < n then concurrency else n
  }

  /**
   * runPool with each task's result given. The workers share `nextIndex`;
   * run one after another, the first worker claims every task in index order
   * and the others find the queue empty. Without a worker no task runs and
   * the results stay empty.
   */
  method RunPool<T>(taskResults: seq<T>, concurrency: int) returns (results: seq<Option<T>>, claims: seq<nat>)
    ensures |results| == |taskResults|
    ensures Workers(concurrency, |taskResults|) > 0 ==>
      |claims| == |taskResults| && (forall k :: 0 <= k < |claims| ==> claims[k] == k)
      && forall i :: 0 <= i < |results| ==> results[i] == Some(taskResults[i])
    ensures Workers(concurrency, |taskResults|) == 0 ==>
      claims == [] && forall i :: 0 <= i < |results| ==> results[i].None?
  {
    var n := |taskResults|;
    var slots := new Option<T>[n](_ => None);
    var nextIndex := 0;
    claims := [];
    var workers := Workers(concurrency, n);
    var w := 0;
    while w < workers
      invariant 0 <= w <= workers
      invariant 0 <= nextIndex <= n
      invariant w == 0 ==> nextIndex == 0
      invariant w > 0 ==> nextIndex == n
      invariant |claims| == nextIndex && forall k :: 0 <= k < |claims| ==> claims[k] == k
      invariant forall i :: 0 <= i < nextIndex ==> slots[i] == Some(taskResults[i])
      invariant forall i :: nextIndex <= i < n ==> slots[i].None?
    {
      while nextIndex < n
        invariant 0 <= nextIndex <= n
        invariant |claims| == nextIndex && forall k :: 0 <= k < |claims| ==> claims[k] == k
        invariant forall i :: 0 <= i < nextIndex ==> slots[i] == Some(taskResults[i])
        invariant forall i :: nextIndex <= i < n ==> slots[i].None?
      {
        var i := nextIndex;
        nextIndex := nextIndex + 1;
        slots[i] := Some(taskResults[i]);
        claims := claims + [i];
      }
      w := w + 1;
    }
    results := slots[..];
  }

  // ---------------------------------------------------------------------------
  // The per-file task and the tally
  // ---------------------------------------------------------------------------

  /** How one file's task ended: the JSON written, or the message of what was thrown. */
  datatype TaskOutcome = Wrote(json: string) | Failed(message: string)

  datatype FileError = FileError(file: string, error: string)

  /** The number of tasks among the first n that wrote their file. */
  function CountWritten(outcomes: seq<TaskOutcome>, n: nat): (c: nat)
    requires n <= |outcomes|
    ensures c <= n
    ensures c == n <==> forall j :: 0 <= j < n ==> outcomes[j].Wrote?
  {
    if n == 0 then 0
    else CountWritten(outcomes, n - 1) + (if outcomes[n - 1].Wrote? then 1 else 0)
  }

  /** The `errors` list after the first n tasks: one entry per failed task, in the order the tasks ran. */
  function Failures(files: seq<string>, outcomes: seq<TaskOutcome>, n: nat): (f: seq<FileError>)
    requires |files| == |outcomes| && n <= |outcomes|
    ensures |f| <= n
    ensures forall k :: 0 <= k < |f| ==> f[k].file in files
  {
    if n == 0 then []
    else
      Failures(files, outcomes, n - 1)
        + (if outcomes[n - 1].Failed? then [FileError(files[n - 1], outcomes[n - 1].message)] else [])
  }

  /**
   * The Prompts folder after the first n tasks: the JSON of each written
   * file under its output name, a later file replacing an earlier one.
   */
  function Outputs(files: seq<string>, outcomes: seq<TaskOutcome>, n: nat): map<string, string>
    requires |files| == |outcomes| && n <= |outcomes|
  {
    if n == 0 then map[]
    else
      var before := Outputs(files, outcomes, n - 1);
      if outcomes[n - 1].Wrote? then before[OutputName(files[n - 1]) := outcomes[n - 1].json] else before
  }

  /**
   * The tasks of main run through the pool: each claimed task either counts
   * a success and writes its JSON under the output name, or counts a failure
   * and records the file with its message.
   */
  method RunBatch(files: seq<string>, outcomes: seq<TaskOutcome>, concurrency: int)
    returns (success: nat, failed: nat, errors: seq<FileError>, outputs: map<string, string>)
    requires |outcomes| == |files|
    ensures failed == |errors|
    ensures Workers(concurrency, |files|) > 0 ==>
      && success == CountWritten(outcomes, |files|)
      && errors == Failures(files, outcomes, |files|)
      && outputs == Outputs(files, outcomes, |files|)
      && success + failed == |files|
    ensures Workers(concurrency, |files|) == 0 ==>
      success == 0 && errors == [] && outputs == map[]
  {
    var _, claims := RunPool(outcomes, concurrency);
    success, failed, errors, outputs := RunClaimed(files, outcomes, claims);
    if Workers(concurrency, |files|) > 0 {
      Tally(files, outcomes, |files|);
    }
  }

  /** The body of each claimed task, run in claim order (task k as the k-th claim). */
  method RunClaimed(files: seq<string>, outcomes: seq<TaskOutcome>, claims: seq<nat>)
    returns (success: nat, failed: nat, errors: seq<FileError>, outputs: map<string, string>)
    requires |outcomes| == |files| && |claims| <= |files|
    requires forall k :: 0 <= k < |claims| ==> claims[k] == k
    ensures success == CountWritten(outcomes, |claims|)
    ensures errors == Failures(files, outcomes, |claims|)
    ensures outputs == Outputs(files, outcomes, |claims|)
    ensures failed == |errors|
  {
    success, failed, errors, outputs := 0, 0, [], map[];
    var k := 0;
    while k < |claims|
      invariant 0 <= k <= |claims|
      invariant success == CountWritten(outcomes, k)
      invariant errors == Failures(files, outcomes, k)
      invariant outputs == Outputs(files, outcomes, k)
      invariant failed == |errors|
    {
      var i := claims[k];
      TaskStep(files, outcomes, k);
      if outcomes[i].Wrote? {
        success := success + 1;
        outputs := outputs[OutputName(files[i]) := outcomes[i].json];
      } else {
        failed := failed + 1;
        errors := errors + [FileError(files[i], outcomes[i].message)];
      }
      k := k + 1;
    }
  }

  /** Running task n moves the count, the error list and the folder on by that task's outcome. */
  lemma TaskStep(files: seq<string>, outcomes: seq<TaskOutcome>, n: nat)
    requires |files| == |outcomes| && n < |outcomes|
    ensures outcomes[n].Wrote? ==>
      && CountWritten(outcomes, n + 1) == CountWritten(outcomes, n) + 1
      && Failures(files, outcomes, n + 1) == Failures(files, outcomes, n)
      && Outputs(files, outcomes, n + 1) == Outputs(files, outcomes, n)[OutputName(files[n]) := outcomes[n].json]
    ensures outcomes[n].Failed? ==>
      && CountWritten(outcomes, n + 1) == CountWritten(outcomes, n)
      && Failures(files, outcomes, n + 1) == Failures(files, outcomes, n) + [FileError(files[n], outcomes[n].message)]
      && Outputs(files, outcomes, n + 1) == Outputs(files, outcomes, n)
  {
  }

  /** Every task is counted once: successes and failures add up to the number of tasks run. */
  lemma {:induction false} Tally(files: seq<string>, outcomes: seq<TaskOutcome>, n: nat)
    requires |files| == |outcomes| && n <= |outcomes|
    ensures CountWritten(outcomes, n) + |Failures(files, outcomes, n)| == n
  {
    if n > 0 {
      Tally(files, outcomes, n - 1);
    }
  }

  /**
   * An error entry after n tasks is a file among the first n that failed
   * with the message its task threw, and every such file has one.
   */
  lemma {:induction false} FailuresAreFailedFiles(files: seq<string>, outcomes: seq<TaskOutcome>, n: nat, e: FileError)
    requires |files| == |outcomes| && n <= |outcomes|
    ensures e in Failures(files, outcomes, n) <==>
      exists i :: 0 <= i < n && files[i] == e.file && outcomes[i] == Failed(e.error)
  {
    if n > 0 {
      FailuresAreFailedFiles(files, outcomes, n - 1, e);
    }
  }

  /**
   * The last writer wins: after n tasks, a file among them whose task wrote
   * JSON, and after which no task among the first n wrote to the same output
   * name, finds exactly its JSON under that name.
   */
  lemma {:induction false} OutputsLastWriter(files: seq<string>, outcomes: seq<TaskOutcome>, n: nat, i: nat)
    requires |files| == |outcomes| && i < n <= |files|
    requires outcomes[i].Wrote?
    requires forall j :: i < j < n && outcomes[j].Wrote? ==> OutputName(files[j]) != OutputName(files[i])
    ensures OutputName(files[i]) in Outputs(files, outcomes, n)
    ensures Outputs(files, outcomes, n)[OutputName(files[i])] == outcomes[i].json
  {
    if i == n - 1 {
      OutputsAfterWrite(files, outcomes, n);
    } else {
      OutputsLastWriter(files, outcomes, n - 1, i);
      OutputsCarry(files, outcomes, n, OutputName(files[i]), outcomes[i].json);
    }
  }

  /** An entry survives a task that failed or wrote under another name. */
  lemma OutputsCarry(files: seq<string>, outcomes: seq<TaskOutcome>, n: nat, name: string, json: string)
    requires |files| == |outcomes| && 0 < n <= |files|
    requires outcomes[n - 1].Wrote? ==> OutputName(files[n - 1]) != name
    requires name in Outputs(files, outcomes, n - 1) && Outputs(files, outcomes, n - 1)[name] == json
    ensures name in Outputs(files, outcomes, n) && Outputs(files, outcomes, n)[name] == json
  {
    if outcomes[n - 1].Wrote? {
      OutputsKeepOtherName(files, outcomes, n, name);
    } else {
      OutputsAfterFailure(files, outcomes, n);
    }
  }

  /** A task that wrote its file leaves its JSON under its output name. */
  lemma OutputsAfterWrite(files: seq<string>, outcomes: seq<TaskOutcome>, n: nat)
    requires |files| == |outcomes| && 0 < n <= |files| && outcomes[n - 1].Wrote?
    ensures OutputName(files[n - 1]) in Outputs(files, outcomes, n)
    ensures Outputs(files, outcomes, n)[OutputName(files[n - 1])] == outcomes[n - 1].json
  {
  }

  /** A task that failed writes nothing. */
  lemma OutputsAfterFailure(files: seq<string>, outcomes: seq<TaskOutcome>, n: nat)
    requires |files| == |outcomes| && 0 < n <= |files| && outcomes[n - 1].Failed?
    ensures Outputs(files, outcomes, n) == Outputs(files, outcomes, n - 1)
  {
  }

  /**
   * After n tasks, a file among them whose task wrote JSON, and whose output
   * name no other of them shares, finds exactly that JSON under its output name.
   */
  lemma OutputsOfDistinctNames(files: seq<string>, outcomes: seq<TaskOutcome>, n: nat, i: nat)
    requires |files| == |outcomes| && i < n <= |files|
    requires forall j :: 0 <= j < n && j != i ==> OutputName(files[j]) != OutputName(files[i])
    requires outcomes[i].Wrote?
    ensures OutputName(files[i]) in Outputs(files, outcomes, n)
    ensures Outputs(files, outcomes, n)[OutputName(files[i])] == outcomes[i].json
  {
    OutputsLastWriter(files, outcomes, n, i);
  }

  /** Task n-1 leaves alone every name other than its own output name. */
  lemma OutputsKeepOtherName(files: seq<string>, outcomes: seq<TaskOutcome>, n: nat, name: string)
    requires |files| == |outcomes| && 0 < n <= |files|
    requires OutputName(files[n - 1]) != name
    ensures name in Outputs(files, outcomes, n) <==> name in Outputs(files, outcomes, n - 1)
    ensures name in Outputs(files, outcomes, n) ==>
      Outputs(files, outcomes, n)[name] == Outputs(files, outcomes, n - 1)[name]
  {
    var before := Outputs(files, outcomes, n - 1);
    if outcomes[n - 1].Wrote? {
      assert Outputs(files, outcomes, n) == before[OutputName(files[n - 1]) := outcomes[n - 1].json];
    } else {
      assert Outputs(files, outcomes, n) == before;
    }
  }
}
