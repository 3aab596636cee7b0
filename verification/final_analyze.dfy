/**
 * final_analyze.py (and its byte-identical copy simple_analyzer.py): analyse
 * every image of a folder with the cloud model, keep one result record per
 * image, print each record and a summary.
 */
module FinalAnalyze {
  import opened Wrappers
  import opened Text

  const AllowedImageTypes: seq<string> := [".jpg", ".jpeg", ".png", ".gif", ".bmp", ".webp"]

  /** The `safety_level` values of the response schema. */
  const SafeToShred: string := "Safe to Shred"
  const RequiresPreprocessing: string := "Requires Preprocessing"
  const DoNotShred: string := "Do Not Shred"
  const Discard: string := "Discard"

  /** The result dictionary of `analyze_one_image`. */
  datatype AnalysisRecord = AnalysisRecord(
    filename: string,
    itemNum: nat,
    itemName: string,
    safetyLevel: string,
    hazards: seq<string>,
    notes: string,
    error: Option<string>)

  /** The parsed JSON answer: each schema key is present (Some) or absent (None). */
  datatype Answer = Answer(
    itemName: Option<string>,
    safetyLevel: Option<string>,
    hazards: Option<seq<string>>,
    notes: Option<string>)

  /** What upload, generation and parsing produce together: an answer, or the raised error's message. */
  datatype ModelOutcome = Answered(answer: Answer) | Failed(message: string)

  /** The record before the model is asked. */
  function DefaultRecord(filename: string, itemNum: nat): (r: AnalysisRecord)
    ensures r.filename == filename && r.itemNum == itemNum
    ensures r.itemName == "Unknown" && r.safetyLevel == DoNotShred
    ensures r.hazards == [] && r.notes == "" && r.error == None
  {
    AnalysisRecord(filename, itemNum, "Unknown", DoNotShred, [], "", None)
  }

  /** `result.update(ai_answer)`: present keys overwrite, absent keys keep their value. */
  function Overlay(r: AnalysisRecord, a: Answer): (u: AnalysisRecord)
    ensures u.filename == r.filename && u.itemNum == r.itemNum && u.error == r.error
    ensures u.itemName == if a.itemName.Some? then a.itemName.value else r.itemName
    ensures u.safetyLevel == if a.safetyLevel.Some? then a.safetyLevel.value else r.safetyLevel
    ensures u.hazards == if a.hazards.Some? then a.hazards.value else r.hazards
    ensures u.notes == if a.notes.Some? then a.notes.value else r.notes
  {
    var r1 := match a.itemName case Some(v) => r.(itemName := v) case None => r;
    var r2 := match a.safetyLevel case Some(v) => r1.(safetyLevel := v) case None => r1;
    var r3 := match a.hazards case Some(v) => r2.(hazards := v) case None => r2;
    match a.notes case Some(v) => r3.(notes := v) case None => r3
  }

  /** The record `analyze_one_image` returns for a given outcome of the model call. */
  function Analyzed(filename: string, itemNum: nat, outcome: ModelOutcome): (r: AnalysisRecord)
    ensures r.filename == filename && r.itemNum == itemNum
    // on failure only `error` leaves its default; the item stays "Do Not Shred"
    ensures outcome.Failed? ==> r == DefaultRecord(filename, itemNum).(error := Some(outcome.message))
    ensures outcome.Failed? ==> r.safetyLevel == DoNotShred && r.error == Some(outcome.message)
    ensures outcome.Answered? ==> r.error == None && r == Overlay(DefaultRecord(filename, itemNum), outcome.answer)
  {
    match outcome
    case Answered(a) => Overlay(DefaultRecord(filename, itemNum), a)
    case Failed(m) => DefaultRecord(filename, itemNum).(error := Some(m))
  }

  /** `analyze_one_image`: build the default dictionary, then update it or record the error. */
  method AnalyzeOneImage(filename: string, itemNum: nat, total: nat, outcome: ModelOutcome) returns (r: AnalysisRecord)
    ensures r == Analyzed(filename, itemNum, outcome)
  {
    r := AnalysisRecord(filename, itemNum, "Unknown", DoNotShred, [], "", None);
    match outcome {
      case Answered(a) =>
        if a.itemName.Some? { r := r.(itemName := a.itemName.value); }
        if a.safetyLevel.Some? { r := r.(safetyLevel := a.safetyLevel.value); }
        if a.hazards.Some? { r := r.(hazards := a.hazards.value); }
        if a.notes.Some? { r := r.(notes := a.notes.value); }
      case Failed(message) =>
        r := r.(error := Some(message));
    }
  }

  // ---------------------------------------------------------------------------
  // Folder scan

  /** One entry of `folder.iterdir()`. */
  datatype DirEntry = DirEntry(name: string, isFile: bool)

  /** `name.rfind(c)`: the last index holding `c`, or -1. */
  function RFind(s: string, c: char): (i: int)
    ensures -1 <= i < |s|
    ensures i >= 0 ==> s[i] == c
    ensures forall j :: i < j < |s| ==> s[j] != c
  {
    if s == [] then -1
    else if s[|s| - 1] == c then |s| - 1
    else RFind(s[..|s| - 1], c)
  }

  /** `Path(name).suffix`: from the last dot, unless that dot starts or ends the name. */
  function Suffix(name: string): (r: string)
    ensures r != "" ==> 2 <= |r| < |name| && r == name[|name| - |r|..] && r[0] == '.'
    ensures r != "" ==> forall j :: 1 <= j < |r| ==> r[j] != '.'
  {
    var i := RFind(name, '.');
    if 0 < i < |name| - 1 then name[i..] else ""
  }

  /** A dot file such as ".png" has no suffix, so it is never taken for an image. */
  lemma DotFileHasNoSuffix(ext: string)
    requires forall j :: 0 <= j < |ext| ==> ext[j] != '.'
    ensures Suffix("." + ext) == ""
  {
    var name := "." + ext;
    assert forall j :: 0 < j < |name| ==> name[j] == ext[j - 1];
  }

  /** A name with a non-empty stem and a dot-free extension has that extension as its suffix. */
  lemma SuffixOfExtension(stem: string, ext: string)
    requires stem != "" && ext != ""
    requires forall j :: 0 <= j < |ext| ==> ext[j] != '.'
    ensures Suffix(stem + "." + ext) == "." + ext
  {
    var name := stem + "." + ext;
    var dot := |stem|;
    assert name[dot] == '.';
    forall j | dot < j < |name|
      ensures name[j] != '.'
    {
      assert name[j] == ext[j - dot - 1];
    }
    var i := RFind(name, '.');
    assert i == dot;
    assert name[dot..] == "." + ext;
  }

  predicate IsImageFile(e: DirEntry) {
    e.isFile && Lower(Suffix(e.name)) in AllowedImageTypes
  }

  /** The suffix test ignores case: "photo.JPG" is taken as an image. */
  lemma UpperCaseSuffixIsImage()
    ensures IsImageFile(DirEntry("photo.JPG", true))
  {
    SuffixOfExtension("photo", "JPG");
    assert "photo" + "." + "JPG" == "photo.JPG";
    assert Lower(".JPG") == ".jpg";
  }

  /** The names of the image files among `entries`, in scan order. */
  function ImageFiles(entries: seq<DirEntry>): (files: seq<string>)
    ensures |files| <= |entries|
    ensures forall n :: n in files ==> exists e :: e in entries && IsImageFile(e) && e.name == n
    ensures forall e :: e in entries && IsImageFile(e) ==> e.name in files
    decreases |entries|
  {
    if entries == [] then []
    else
      var init := entries[..|entries| - 1];
      var last := entries[|entries| - 1];
      assert entries == init + [last];
      ImageFiles(init) + (if IsImageFile(last) then [last.name] else [])
  }

  /** Scanning two runs of entries one after the other keeps their order. */
  lemma {:induction false} ImageFilesAppend(a: seq<DirEntry>, b: seq<DirEntry>)
    ensures ImageFiles(a + b) == ImageFiles(a) + ImageFiles(b)
    decreases |b|
  {
    if b == [] {
      assert a + b == a;
    } else {
      var init := b[..|b| - 1];
      assert (a + b)[..|a + b| - 1] == a + init;
      ImageFilesAppend(a, init);
    }
  }

  /** A single entry contributes its name exactly when it is an image file. */
  lemma ImageFilesSingleton(e: DirEntry)
    ensures ImageFiles([e]) == if IsImageFile(e) then [e.name] else []
  {
    assert [e][..0] == [];
  }

  /** The scan loop: append every regular file with an allowed suffix. */
  method FindImageFiles(entries: seq<DirEntry>) returns (files: seq<string>)
    ensures files == ImageFiles(entries)
  {
    files := [];
    for i := 0 to |entries|
      invariant files == ImageFiles(entries[..i])
    {
      var file := entries[i];
      assert entries[..i + 1][..i] == entries[..i];
      if file.isFile && Lower(Suffix(file.name)) in AllowedImageTypes {
        files := files + [file.name];
      }
    }
    assert entries[..|entries|] == entries;
  }

  datatype FolderRun = FolderMissing | NoImages | Processed(results: seq<AnalysisRecord>)

  /**
   * `analyze_folder`: one record per image file, numbered from 1 in scan order.
   * `respond(n)` is the outcome of the model call for item `n`.
   */
  method AnalyzeFolder(folderExists: bool, entries: seq<DirEntry>, respond: nat -> ModelOutcome) returns (run: FolderRun)
    ensures !folderExists ==> run == FolderMissing
    ensures folderExists && ImageFiles(entries) == [] ==> run == NoImages
    ensures folderExists && ImageFiles(entries) != [] ==>
      && run.Processed?
      && |run.results| == |ImageFiles(entries)|
      && forall k :: 0 <= k < |run.results| ==>
           run.results[k] == Analyzed(ImageFiles(entries)[k], k + 1, respond(k + 1))
  {
    if !folderExists {
      return FolderMissing;
    }
    var imageFiles := FindImageFiles(entries);
    if imageFiles == [] {
      return NoImages;
    }
    var total := |imageFiles|;
    var allResults: seq<AnalysisRecord> := [];
    var index := 1;
    while index <= total
      invariant 1 <= index <= total + 1
      invariant |allResults| == index - 1
      invariant forall k :: 0 <= k < |allResults| ==> allResults[k] == Analyzed(imageFiles[k], k + 1, respond(k + 1))
    {
      var result := AnalyzeOneImage(imageFiles[index - 1], index, total, respond(index));
      allResults := allResults + [result];
      index := index + 1;
    }
    return Processed(allResults);
  }

  // ---------------------------------------------------------------------------
  // Summary

  /** Python truthiness of `r['error']`: present and non-empty. */
  predicate HasError(r: AnalysisRecord) {
    r.error.Some? && r.error.value != ""
  }

  function CountLevel(results: seq<AnalysisRecord>, level: string): (n: nat)
    ensures n <= |results|
    decreases |results|
  {
    if results == [] then 0
    else CountLevel(results[..|results| - 1], level) + (if results[|results| - 1].safetyLevel == level then 1 else 0)
  }

  /** Counting a label over two runs of results adds their counts. */
  lemma {:induction false} CountLevelAppend(a: seq<AnalysisRecord>, b: seq<AnalysisRecord>, level: string)
    ensures CountLevel(a + b, level) == CountLevel(a, level) + CountLevel(b, level)
    decreases |b|
  {
    if b == [] {
      assert a + b == a;
    } else {
      var init := b[..|b| - 1];
      assert (a + b)[..|a + b| - 1] == a + init;
      CountLevelAppend(a, init, level);
    }
  }

  /** One result counts once for its own label and for no other. */
  lemma CountLevelSingleton(r: AnalysisRecord, level: string)
    ensures CountLevel([r], level) == if r.safetyLevel == level then 1 else 0
  {
    assert [r][..0] == [];
  }

  /** The results with a truthy error, in their original order. */
  function FailedResults(results: seq<AnalysisRecord>): (f: seq<AnalysisRecord>)
    ensures |f| <= |results|
    ensures forall r :: r in f ==> r in results && HasError(r)
    ensures forall r :: r in results && HasError(r) ==> r in f
    decreases |results|
  {
    if results == [] then []
    else
      var init := results[..|results| - 1];
      var last := results[|results| - 1];
      assert results == init + [last];
      FailedResults(init) + (if HasError(last) then [last] else [])
  }

  /** Filtering two runs of results one after the other keeps their order. */
  lemma {:induction false} FailedResultsAppend(a: seq<AnalysisRecord>, b: seq<AnalysisRecord>)
    ensures FailedResults(a + b) == FailedResults(a) + FailedResults(b)
    decreases |b|
  {
    if b == [] {
      assert a + b == a;
    } else {
      var init := b[..|b| - 1];
      assert (a + b)[..|a + b| - 1] == a + init;
      FailedResultsAppend(a, init);
    }
  }

  /** A single result is kept exactly when its error is truthy. */
  lemma FailedResultsSingleton(r: AnalysisRecord)
    ensures FailedResults([r]) == if HasError(r) then [r] else []
  {
    assert [r][..0] == [];
  }

  function Names(results: seq<AnalysisRecord>): (names: seq<string>)
    ensures |names| == |results|
    ensures forall k :: 0 <= k < |results| ==> names[k] == results[k].filename
  {
    seq(|results|, k requires 0 <= k < |results| => results[k].filename)
  }

  /** The four labels are distinct, so their counts add up to at most the total. */
  lemma {:induction false} LevelCountsBounded(results: seq<AnalysisRecord>)
    ensures CountLevel(results, SafeToShred) + CountLevel(results, RequiresPreprocessing)
          + CountLevel(results, DoNotShred) + CountLevel(results, Discard) <= |results|
    decreases |results|
  {
    if results != [] {
      LevelCountsBounded(results[..|results| - 1]);
    }
  }

  datatype Summary = Summary(
    total: nat,
    successful: int,
    failed: nat,
    safe: nat,
    needsWork: nat,
    dangerous: nat,
    notEwaste: nat,
    failedFiles: seq<string>)

  /** The figures `print_summary` prints, and the failed file names it lists. */
  function Summarize(results: seq<AnalysisRecord>): (s: Summary)
    ensures s.total == |results|
    ensures s.failed == |FailedResults(results)| && s.successful == s.total - s.failed
    ensures 0 <= s.successful <= s.total
    ensures s.safe <= s.total && s.needsWork <= s.total && s.dangerous <= s.total && s.notEwaste <= s.total
    ensures s.safe + s.needsWork + s.dangerous + s.notEwaste <= s.total
    ensures s.safe == CountLevel(results, SafeToShred) && s.needsWork == CountLevel(results, RequiresPreprocessing)
    ensures s.dangerous == CountLevel(results, DoNotShred) && s.notEwaste == CountLevel(results, Discard)
    ensures s.failedFiles == Names(FailedResults(results))
  {
    LevelCountsBounded(results);
    var failed := FailedResults(results);
    Summary(
      |results|,
      |results| - |failed|,
      |failed|,
      CountLevel(results, SafeToShred),
      CountLevel(results, RequiresPreprocessing),
      CountLevel(results, DoNotShred),
      CountLevel(results, Discard),
      Names(failed))
  }

  /** Every result of a failed model call is listed as failed, unless the error message is empty. */
  lemma FailedCallIsListed(results: seq<AnalysisRecord>, k: nat, outcome: ModelOutcome)
    requires k < |results| && outcome.Failed? && outcome.message != ""
    requires results[k] == Analyzed(results[k].filename, results[k].itemNum, outcome)
    ensures results[k] in FailedResults(results)
    ensures results[k].filename in Summarize(results).failedFiles
  {
    var r := results[k];
    assert r.error == Some(outcome.message);
    assert HasError(r);
    assert r in results;
    var f := FailedResults(results);
    assert r in f;
    var j :| 0 <= j < |f| && f[j] == r;
    assert Names(f)[j] == r.filename;
  }

  // ---------------------------------------------------------------------------
  // Printing one result

  const HazardsPrefix: string := "        Hazards Present: "
  const NotesPrefix: string := "        Notes: "

  predicate ShowsHazards(r: AnalysisRecord) {
    (r.safetyLevel == DoNotShred || r.safetyLevel == RequiresPreprocessing) && r.hazards != []
  }

  predicate ShowsNotes(r: AnalysisRecord) {
    r.notes != "" && r.itemName != "Unknown"
  }

  function HeadLine(r: AnalysisRecord): string {
    "\n    " + Rule + "\n\n        ITEM " + NatToString(r.itemNum) + ": (" + r.filename + ")"
  }

  /** A line opened by a newline is neither a hazards line nor a notes line. */
  lemma NewlineLineIsPlain(s: string)
    requires |s| > 0 && s[0] == '\n'
    ensures !StartsWith(s, HazardsPrefix) && !StartsWith(s, NotesPrefix)
  {
  }

  lemma NotesLineIsNotHazards(s: string)
    requires StartsWith(s, NotesPrefix)
    ensures !StartsWith(s, HazardsPrefix)
  {
    assert s[8] == NotesPrefix[8];
  }

  lemma HazardsLineIsNotNotes(s: string)
    requires StartsWith(s, HazardsPrefix)
    ensures !StartsWith(s, NotesPrefix)
  {
    assert s[8] == HazardsPrefix[8];
  }

  function Head(r: AnalysisRecord): string {
    HeadLine(r) + ("\n\n        Item: " + r.itemName + "\n        Shred Safety: " + r.safetyLevel)
  }

  function HazardsLine(r: AnalysisRecord): string {
    HazardsPrefix + Join(r.hazards, ", ")
  }

  function NotesLine(r: AnalysisRecord): string {
    NotesPrefix + r.notes
  }

  const Footer: string := "\n    " + Rule

  /** The text of each `print` call of `print_single_result`, in order. */
  function Printout(r: AnalysisRecord): (p: seq<string>)
    ensures |p| >= 2 && StartsWith(p[0], HeadLine(r)) && p[|p| - 1] == Footer
  {
    StartsWithConcat(HeadLine(r), "\n\n        Item: " + r.itemName + "\n        Shred Safety: " + r.safetyLevel);
    [Head(r)]
      + (if ShowsHazards(r) then [HazardsLine(r)] else [])
      + (if ShowsNotes(r) then [NotesLine(r)] else [])
      + [Footer]
  }

  /** Every printed line is the head, the footer, or a line whose condition holds. */
  lemma PrintoutLines(r: AnalysisRecord, k: nat)
    requires k < |Printout(r)|
    ensures var line := Printout(r)[k];
      line == Head(r) || line == Footer
      || (line == HazardsLine(r) && ShowsHazards(r))
      || (line == NotesLine(r) && ShowsNotes(r))
  {
  }

  /**
   * The hazards line is printed exactly for "Do Not Shred" and "Requires
   * Preprocessing" items with hazards, right after the head.
   */
  lemma PrintoutHazards(r: AnalysisRecord)
    ensures (exists k :: 0 <= k < |Printout(r)| && StartsWith(Printout(r)[k], HazardsPrefix)) <==> ShowsHazards(r)
    ensures ShowsHazards(r) ==> Printout(r)[1] == HazardsLine(r)
  {
    var p := Printout(r);
    if ShowsHazards(r) {
      StartsWithConcat(HazardsPrefix, Join(r.hazards, ", "));
      assert StartsWith(p[1], HazardsPrefix);
    } else {
      forall k | 0 <= k < |p|
        ensures !StartsWith(p[k], HazardsPrefix)
      {
        PrintoutLines(r, k);
        NewlineLineIsPlain(Head(r));
        NewlineLineIsPlain(Footer);
        StartsWithConcat(NotesPrefix, r.notes);
        NotesLineIsNotHazards(NotesLine(r));
      }
    }
  }

  /** The notes line is printed exactly for items with notes whose name is not "Unknown", just before the footer. */
  lemma PrintoutNotes(r: AnalysisRecord)
    ensures (exists k :: 0 <= k < |Printout(r)| && StartsWith(Printout(r)[k], NotesPrefix)) <==> ShowsNotes(r)
    ensures ShowsNotes(r) ==> Printout(r)[|Printout(r)| - 2] == NotesLine(r)
  {
    var p := Printout(r);
    if ShowsNotes(r) {
      StartsWithConcat(NotesPrefix, r.notes);
      assert StartsWith(p[|p| - 2], NotesPrefix);
    } else {
      forall k | 0 <= k < |p|
        ensures !StartsWith(p[k], NotesPrefix)
      {
        PrintoutLines(r, k);
        NewlineLineIsPlain(Head(r));
        NewlineLineIsPlain(Footer);
        StartsWithConcat(HazardsPrefix, Join(r.hazards, ", "));
        HazardsLineIsNotNotes(HazardsLine(r));
      }
    }
  }
}
