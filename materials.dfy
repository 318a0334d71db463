/** The materials step (src/components/quiz/MaterialsStep.tsx): the
    quality meter and word count of the free text, the attachment filter
    and list edits, the size display, and the drag-and-drop state. */
module MaterialsStep {
  import opened Wrappers
  import opened Text
  import opened Lists
  import opened QuizTypes

  // ---------------------------------------------------------------------
  // The free text
  // ---------------------------------------------------------------------

  /** The text and colour `getQualityStatus` shows. */
  datatype QualityStatus = QualityStatus(text: string, color: string)

  /** `getQualityStatus`: four bands of the character count, cut at 200,
      500 and 1000, each with its own colour. */
  function Quality(charCount: nat): (r: QualityStatus)
    ensures r.color == "text-destructive" <==> charCount < 200
    ensures r.color == "text-cc-warning" <==> 200 <= charCount < 500
    ensures r.color == "text-cc-gold" <==> 500 <= charCount < 1000
    ensures r.color == "text-cc-green" <==> charCount >= 1000
  {
    if charCount < 200 then QualityStatus("Insuficiente 😕", "text-destructive")
    else if charCount < 500 then QualityStatus("Básica ⭐", "text-cc-warning")
    else if charCount < 1000 then QualityStatus("Boa ⭐⭐⭐", "text-cc-gold")
    else QualityStatus("Excelente ⭐⭐⭐⭐⭐", "text-cc-green")
  }

  /** The position of a band, from insufficient (0) to excellent (3). */
  function QualityRank(q: QualityStatus): nat {
    if q.color == "text-destructive" then 0
    else if q.color == "text-cc-warning" then 1
    else if q.color == "text-cc-gold" then 2
    else 3
  }

  /** Writing more never lowers the band. */
  lemma QualityMonotone(m: nat, n: nat)
    requires m <= n
    ensures QualityRank(Quality(m)) <= QualityRank(Quality(n))
  {
  }

  /** `wordCount`: 0 for a blank text, otherwise the number of pieces the
      trimmed text splits into at runs of whitespace. */
  function WordCount(info: string): nat {
    if Trim(info) == [] then 0 else |SplitWs(Trim(info))|
  }

  /** The number of words that start in `s`, a word starting at each
      non-whitespace character preceded by whitespace (or, when `afterSpace`,
      by the start of the text). */
  function WordStarts(s: string, afterSpace: bool): nat {
    if s == [] then 0
    else (if afterSpace && !IsSpace(s[0]) then 1 else 0) + WordStarts(s[1..], IsSpace(s[0]))
  }

  /** Whitespace starts no word and leaves the next character after a space. */
  lemma {:induction false} WordStartsAfterSpaces(a: string, u: string, afterSpace: bool)
    requires AllSpace(a)
    ensures WordStarts(a + u, afterSpace) == WordStarts(u, if a == [] then afterSpace else true)
  {
    if a == [] {
      assert a + u == u;
    } else {
      assert (a + u)[0] == a[0];
      assert (a + u)[1..] == a[1..] + u;
      assert AllSpace(a[1..]) by {
        forall i | 0 <= i < |a[1..]| ensures IsSpace(a[1..][i]) {
          assert a[1..][i] == a[i + 1];
        }
      }
      WordStartsAfterSpaces(a[1..], u, true);
    }
  }

  /** Words in a concatenation: those of the first part, then those of the
      second, which follows a space when the first part ends with one. */
  lemma {:induction false} WordStartsConcat(a: string, b: string, afterSpace: bool)
    ensures WordStarts(a + b, afterSpace) ==
      WordStarts(a, afterSpace) + WordStarts(b, if a == [] then afterSpace else IsSpace(a[|a| - 1]))
  {
    if a == [] {
      assert a + b == b;
    } else {
      assert (a + b)[0] == a[0];
      assert (a + b)[1..] == a[1..] + b;
      WordStartsConcat(a[1..], b, IsSpace(a[0]));
      if a[1..] != [] {
        assert a[1..][|a[1..]| - 1] == a[|a| - 1];
      }
    }
  }

  /** A text that is empty or ends in a non-whitespace character splits
      into one piece more than it has words not at its very start. */
  lemma {:induction false} SplitWsCount(s: string)
    requires s == [] || !IsSpace(s[|s| - 1])
    ensures |SplitWs(s)| == WordStarts(s, false) + 1
  {
    if s != [] {
      if IsSpace(s[0]) {
        TrimStartKeepsLast(s[1..]);
        SplitWsCount(TrimStart(s[1..]));
        WordStartsLeadingSpace(s);
      } else {
        SplitWsCount(s[1..]);
      }
    }
  }

  /** Trimming the start of a text that ends in non-whitespace keeps that end. */
  lemma {:induction false} TrimStartKeepsLast(r: string)
    requires r != [] && !IsSpace(r[|r| - 1])
    ensures TrimStart(r) != [] && TrimStart(r)[|TrimStart(r)| - 1] == r[|r| - 1]
  {
    if IsSpace(r[0]) {
      assert r[1..][|r| - 2] == r[|r| - 1];
      TrimStartKeepsLast(r[1..]);
    }
  }

  /** After a leading space and the run of whitespace that follows it, the
      first non-whitespace character starts a word. */
  lemma WordStartsLeadingSpace(s: string)
    requires s != [] && IsSpace(s[0]) && TrimStart(s[1..]) != []
    ensures WordStarts(s, false) == WordStarts(TrimStart(s[1..]), false) + 1
  {
    var rest := s[1..];
    var u := TrimStart(rest);
    var spaces := rest[..|rest| - |u|];
    assert WordStarts(s, false) == WordStarts(rest, true);
    assert rest == spaces + u;
    WordStartsAfterSpaces(spaces, u, true);
    WordStartsFirstWord(u);
  }

  /** A text opening with a non-whitespace character has one word more when
      that character counts as following a space. */
  lemma WordStartsFirstWord(u: string)
    requires u != [] && !IsSpace(u[0])
    ensures WordStarts(u, true) == WordStarts(u, false) + 1
  {
  }

  /** Leading whitespace starts no word. */
  lemma WordStartsTrimStart(s: string)
    ensures WordStarts(s, true) == WordStarts(TrimStart(s), true)
  {
    var t := TrimStart(s);
    var lead := s[..|s| - |t|];
    assert s == lead + t;
    WordStartsAfterSpaces(lead, t, true);
  }

  /** Trailing whitespace starts no word. */
  lemma WordStartsTrimEnd(s: string)
    ensures WordStarts(s, true) == WordStarts(TrimEnd(s), true)
  {
    var t := TrimEnd(s);
    var trail := s[|t|..];
    assert s == t + trail;
    WordStartsConcat(t, trail, true);
    var p := if t == [] then true else IsSpace(t[|t| - 1]);
    WordStartsAfterSpaces(trail, [], p);
    assert trail + [] == trail;
  }

  /** Leading and trailing whitespace starts no word. */
  lemma WordStartsTrim(info: string)
    ensures WordStarts(info, true) == WordStarts(Trim(info), true)
  {
    WordStartsTrimStart(info);
    WordStartsTrimEnd(TrimStart(info));
  }

  /** A trimmed text splits into as many pieces as it has words. */
  lemma WordStartsTrimmed(info: string)
    requires Trim(info) != []
    ensures |SplitWs(Trim(info))| == WordStarts(Trim(info), true)
  {
    var t1 := TrimStart(info);
    var t := TrimEnd(t1);
    assert t[0] == t1[0];
    SplitWsCount(t);
    assert WordStarts(t, true) == 1 + WordStarts(t[1..], false);
    assert WordStarts(t, false) == WordStarts(t[1..], false);
  }

  /** The word count is the number of maximal runs of non-whitespace
      characters, and it is 0 exactly when the text is blank. */
  lemma WordCountMeaning(info: string)
    ensures WordCount(info) == WordStarts(info, true)
    ensures WordCount(info) == 0 <==> AllSpace(info)
  {
    TrimEmptyIffAllSpace(info);
    WordStartsTrim(info);
    if Trim(info) != [] {
      WordStartsTrimmed(info);
    } else {
      assert WordStarts(Trim(info), true) == 0;
    }
  }

  // ---------------------------------------------------------------------
  // Attachments
  // ---------------------------------------------------------------------

  /** `validTypes`. */
  const ValidTypes: seq<string> := [
    "application/pdf", "application/msword",
    "application/vnd.openxmlformats-officedocument.wordprocessingml.document",
    "text/plain", "image/jpeg", "image/png"]

  /** `maxSize`: 10 MiB. */
  const MaxSize: nat := 10 * 1024 * 1024

  /** The filter `handleFiles` applies to each offered file. */
  predicate Accepted(file: UploadedFile) {
    file.mimeType in ValidTypes && file.size <= MaxSize
  }

  /** `handleFiles` against the list `current` it reads: the update it
      sends, or none when no offered file is accepted. */
  function HandleFilesOn(current: seq<UploadedFile>, files: seq<UploadedFile>): Option<FormPatch> {
    var valid := Filter(files, Accepted);
    if |valid| > 0 then Some(EmptyPatch.(uploadedFiles := Some(current + valid))) else None
  }

  /** `handleFiles` as the file input calls it, reading the current record. */
  function HandleFiles(f: FormData, files: seq<UploadedFile>): Option<FormPatch> {
    HandleFilesOn(f.uploadedFiles, files)
  }

  /** No update is sent exactly when no offered file passes; otherwise the
      new list is the old one followed by exactly the accepted files, each
      as often as offered and in the order offered, and no other key
      moves. */
  lemma HandleFilesMeaning(f: FormData, files: seq<UploadedFile>, k: Field)
    ensures HandleFiles(f, files).None? <==> forall i | 0 <= i < |files| :: !Accepted(files[i])
    ensures HandleFiles(f, files).Some? ==>
      var g := Merge(f, HandleFiles(f, files).value);
      && |g.uploadedFiles| >= |f.uploadedFiles|
      && g.uploadedFiles[..|f.uploadedFiles|] == f.uploadedFiles
      && var added := g.uploadedFiles[|f.uploadedFiles|..];
      && (forall x :: x in added <==> x in files && Accepted(x))
      && (forall x :: multiset(added)[x] == if Accepted(x) then multiset(files)[x] else 0)
      && Subsequence(added, files)
      && (k != UploadedFiles ==> Get(g, k) == Get(f, k))
  {
    FilterEmptyIff(files, Accepted);
    if HandleFiles(f, files).Some? {
      HandleFilesAdds(f, files, k);
    }
  }

  /** The list after an accepted update is the old one followed by the
      accepted files, and no other key moves. */
  lemma HandleFilesAdds(f: FormData, files: seq<UploadedFile>, k: Field)
    requires HandleFiles(f, files).Some?
    ensures var g := Merge(f, HandleFiles(f, files).value);
      && g.uploadedFiles == f.uploadedFiles + Filter(files, Accepted)
      && (k != UploadedFiles ==> Get(g, k) == Get(f, k))
      && (forall x :: x in Filter(files, Accepted) <==> x in files && Accepted(x))
      && (forall x :: multiset(Filter(files, Accepted))[x] == if Accepted(x) then multiset(files)[x] else 0)
      && Subsequence(Filter(files, Accepted), files)
  {
    HandleFilesList(f, files);
    if k != UploadedFiles {
      HandleFilesKeepsOthers(f, files, k);
    }
    FilterMeaning(files, Accepted);
  }

  lemma HandleFilesKeepsOthers(f: FormData, files: seq<UploadedFile>, k: Field)
    requires HandleFiles(f, files).Some? && k != UploadedFiles
    ensures Get(Merge(f, HandleFiles(f, files).value), k) == Get(f, k)
  {
    MergeByKey(f, HandleFiles(f, files).value, k);
  }

  lemma HandleFilesList(f: FormData, files: seq<UploadedFile>)
    requires HandleFiles(f, files).Some?
    ensures Merge(f, HandleFiles(f, files).value).uploadedFiles == f.uploadedFiles + Filter(files, Accepted)
  {
  }

  /** `removeFile(index)`. */
  function RemoveFile(f: FormData, index: int): FormPatch {
    EmptyPatch.(uploadedFiles := Some(RemoveAt(f.uploadedFiles, index)))
  }

  /** Removing drops exactly the file at `index` and keeps the rest in
      order; an index outside the list changes nothing. */
  lemma RemoveFileMeaning(f: FormData, index: int, k: Field)
    ensures var g := Merge(f, RemoveFile(f, index));
      && g.uploadedFiles == (if 0 <= index < |f.uploadedFiles| then f.uploadedFiles[..index] + f.uploadedFiles[index + 1..] else f.uploadedFiles)
      && (k != UploadedFiles ==> Get(g, k) == Get(f, k))
  {
    RemoveAtMeaning(f.uploadedFiles, index);
    MergeByKey(f, RemoveFile(f, index), k);
  }

  /** What `formatFileSize` shows before `toFixed(1)` rounds it: the bytes,
      or the size in KiB or MiB. */
  datatype SizeText = Bytes(count: nat) | Kilobytes(kb: real) | Megabytes(mb: real)

  /** `formatFileSize`: bytes below 1 KiB, kibibytes below 1 MiB,
      mebibytes above. */
  function FormatFileSize(bytes: nat): (r: SizeText)
    ensures r.Bytes? <==> bytes < 1024
    ensures r.Kilobytes? <==> 1024 <= bytes < 1024 * 1024
    ensures r.Megabytes? <==> bytes >= 1024 * 1024
  {
    if bytes < 1024 then Bytes(bytes)
    else if bytes < 1024 * 1024 then Kilobytes(bytes as real / 1024.0)
    else Megabytes(bytes as real / (1024.0 * 1024.0))
  }

  /** The unit is the largest one in which the number shown is at least 1,
      and the number shrinks back to the byte count. */
  lemma FormatFileSizeMeaning(bytes: nat)
    ensures FormatFileSize(bytes).Bytes? ==> FormatFileSize(bytes).count == bytes
    ensures FormatFileSize(bytes).Kilobytes? ==>
      1.0 <= FormatFileSize(bytes).kb < 1024.0 && FormatFileSize(bytes).kb * 1024.0 == bytes as real
    ensures FormatFileSize(bytes).Megabytes? ==>
      1.0 <= FormatFileSize(bytes).mb && FormatFileSize(bytes).mb * 1048576.0 == bytes as real
  {
  }

  /** Every file the step can hold in one go is shown in at most
      10 MiB. */
  lemma AcceptedSizeShown(file: UploadedFile)
    requires Accepted(file)
    ensures FormatFileSize(file.size).Megabytes? ==> FormatFileSize(file.size).mb <= 10.0
  {
  }

  // ---------------------------------------------------------------------
  // Component state
  // ---------------------------------------------------------------------

  /** The step's `isDragOver` and `hasShownExcellent` flags, and the
      uploaded-file list that the `handleDrop` callback captured when it
      was created: its dependency list is empty, so it keeps calling the
      `handleFiles` of the first render. */
  class MaterialsView {
    var isDragOver: bool
    var hasShownExcellent: bool
    var filesAtMount: seq<UploadedFile>

    constructor(f: FormData)
      ensures !isDragOver && !hasShownExcellent && filesAtMount == f.uploadedFiles
    {
      isDragOver := false;
      hasShownExcellent := false;
      filesAtMount := f.uploadedFiles;
    }

    /** A render: the first time the text reaches 1000 characters the
        celebration fires, and never again. */
    method Render(f: FormData) returns (celebrate: bool)
      modifies this
      ensures celebrate <==> |f.additionalInfo| >= 1000 && !old(hasShownExcellent)
      ensures hasShownExcellent <==> old(hasShownExcellent) || |f.additionalInfo| >= 1000
      ensures isDragOver == old(isDragOver) && filesAtMount == old(filesAtMount)
    {
      celebrate := false;
      if |f.additionalInfo| >= 1000 && !hasShownExcellent {
        hasShownExcellent := true;
        celebrate := true;
      }
    }

    /** `handleDragOver`. */
    method DragOver()
      modifies this
      ensures isDragOver
      ensures hasShownExcellent == old(hasShownExcellent) && filesAtMount == old(filesAtMount)
    {
      isDragOver := true;
    }

    /** `handleDragLeave`. */
    method DragLeave()
      modifies this
      ensures !isDragOver
      ensures hasShownExcellent == old(hasShownExcellent) && filesAtMount == old(filesAtMount)
    {
      isDragOver := false;
    }

    /** `handleDrop` as written: the captured list, not the current one,
        is what the dropped files are appended to. */
    method DropAsWritten(files: seq<UploadedFile>) returns (update: Option<FormPatch>)
      modifies this
      ensures !isDragOver
      ensures update == HandleFilesOn(filesAtMount, files)
      ensures hasShownExcellent == old(hasShownExcellent) && filesAtMount == old(filesAtMount)
    {
      isDragOver := false;
      update := HandleFilesOn(filesAtMount, files);
    }

    /** `handleDrop` as evidently intended: the dropped files are appended
        to the current list, as the file input does. */
    method Drop(f: FormData, files: seq<UploadedFile>) returns (update: Option<FormPatch>)
      modifies this
      ensures !isDragOver
      ensures update == HandleFiles(f, files)
      ensures hasShownExcellent == old(hasShownExcellent) && filesAtMount == old(filesAtMount)
    {
      isDragOver := false;
      update := HandleFiles(f, files);
    }

    /** `handleFileSelect`: the chosen files go through `handleFiles` on
        the current record. */
    method SelectFiles(f: FormData, files: seq<UploadedFile>) returns (update: Option<FormPatch>)
      ensures update == HandleFiles(f, files)
    {
      update := HandleFiles(f, files);
    }
  }

  /** Two drops in a row on a step mounted with no files: as written the
      second drop replaces the first file instead of adding to it, while
      the intended drop keeps both. */
  lemma StaleDropLosesFiles()
    ensures var a := UploadedFile("a.pdf", 1, "application/pdf");
      var b := UploadedFile("b.pdf", 2, "application/pdf");
      var first := Merge(InitialFormData, HandleFilesOn(InitialFormData.uploadedFiles, [a]).value);
      && first.uploadedFiles == [a]
      && Merge(first, HandleFilesOn(InitialFormData.uploadedFiles, [b]).value).uploadedFiles == [b]
      && Merge(first, HandleFiles(first, [b]).value).uploadedFiles == [a, b]
  {
    var a := UploadedFile("a.pdf", 1, "application/pdf");
    var b := UploadedFile("b.pdf", 2, "application/pdf");
    assert Accepted(a) && Accepted(b);
    assert Filter([a], Accepted) == [a];
    assert Filter([b], Accepted) == [b];
  }

  /** The intended drop never loses a file already listed: the list
      before the drop stays a prefix of the list after it. */
  lemma DropKeepsListed(f: FormData, files: seq<UploadedFile>)
    ensures HandleFiles(f, files).Some? ==>
      var g := Merge(f, HandleFiles(f, files).value);
      |g.uploadedFiles| >= |f.uploadedFiles| && g.uploadedFiles[..|f.uploadedFiles|] == f.uploadedFiles
  {
    HandleFilesMeaning(f, files, UploadedFiles);
  }
}
