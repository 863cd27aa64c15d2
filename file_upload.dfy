/** The upload component: a list of chosen files that drops and the file
    picker append to, that removal filters, and a drag-highlight flag. Each
    change is reported to the page with the new list. */
module FileUploadView {
  import opened Text
  import ProcessFiles

  /** A browser `File`. `handle` stands for the object's identity, which is
      what `file !== fileToRemove` compares. */
  datatype UploadFile = UploadFile(handle: nat, name: string, mimeType: string)

  /** The drop filter's type allowlist. */
  predicate DropAllowed(mimeType: string)
  {
    mimeType == "application/pdf" || mimeType == "text/plain" ||
    Contains(mimeType, "word") || Contains(mimeType, "openxmlformats")
  }

  function AllowedFile(f: UploadFile): bool
  {
    DropAllowed(f.mimeType)
  }

  /** The dropped files that pass the allowlist, in drop order. */
  function ValidDrops(dropped: seq<UploadFile>): (r: seq<UploadFile>)
    ensures forall f :: f in r <==> f in dropped && DropAllowed(f.mimeType)
    ensures forall f :: multiset(r)[f] == if DropAllowed(f.mimeType) then multiset(dropped)[f] else 0
    ensures SubsequenceOf(r, dropped)
  {
    Filter(dropped, AllowedFile)
  }

  /** `files.filter(file => file !== fileToRemove)` */
  function RemoveAll(files: seq<UploadFile>, target: UploadFile): (r: seq<UploadFile>)
    ensures target !in r
    ensures forall f :: f != target ==> multiset(r)[f] == multiset(files)[f]
    ensures SubsequenceOf(r, files)
  {
    Filter(files, f => f != target)
  }

  /** Every type the drop filter lets through is one the generation function
      accepts too. */
  lemma DropAllowedIsServerAccepted(mimeType: string)
    requires DropAllowed(mimeType)
    ensures ProcessFiles.Classify(mimeType).Ok?
  {
    ProcessFiles.PlainTextMentionsText(mimeType);
  }

  /** The converse fails: the server takes any type that mentions `text`. */
  lemma ServerAcceptsMoreThanDrop()
    ensures ProcessFiles.Classify("text/html").Ok? && !DropAllowed("text/html")
  {
    ContainsPrefix("text/html", "text");
    var t := "text/html";
    assert !StartsAt(t, 0, "word") && !StartsAt(t, 1, "word") && !StartsAt(t, 2, "word") &&
           !StartsAt(t, 3, "word") && !StartsAt(t, 4, "word") && !StartsAt(t, 5, "word");
    assert !Contains(t, "word");
    assert !Contains(t, "openxmlformats");
  }

  class FileUpload {
    var files: seq<UploadFile>
    var isDragging: bool

    constructor ()
      ensures files == [] && !isDragging
    {
      files := [];
      isDragging := false;
    }

    method DragEnter()
      modifies this`isDragging
      ensures isDragging
    {
      isDragging := true;
    }

    method DragOver()
      modifies this`isDragging
      ensures isDragging
    {
      if !isDragging {
        isDragging := true;
      }
    }

    method DragLeave()
      modifies this`isDragging
      ensures !isDragging
    {
      isDragging := false;
    }

    /** A drop keeps the allowed files; when there are any they are appended in
      drop order and the page is notified with the new list, otherwise
      nothing changes and nobody is notified. */
    method Drop(dropped: seq<UploadFile>) returns (notified: Option<seq<UploadFile>>)
      modifies this
      ensures !isDragging
      ensures var valid := ValidDrops(dropped);
        if |valid| > 0 then files == old(files) + valid && notified == Some(files)
        else files == old(files) && notified == None
    {
      isDragging := false;
      var validFiles := ValidDrops(dropped);
      if |validFiles| > 0 {
        files := files + validFiles;
        notified := Some(files);
      } else {
        notified := None;
      }
    }

    /** The file picker appends every selected file, unfiltered. */
    method FileInputChange(selected: Option<seq<UploadFile>>) returns (notified: Option<seq<UploadFile>>)
      modifies this`files
      ensures selected.None? ==> files == old(files) && notified == None
      ensures selected.Some? ==> files == old(files) + selected.value && notified == Some(files)
    {
      if selected.Some? {
        files := files + selected.value;
        notified := Some(files);
      } else {
        notified := None;
      }
    }

    /** Removes every entry that is this file and reports the rest, in order. */
    method RemoveFile(fileToRemove: UploadFile) returns (notified: seq<UploadFile>)
      modifies this`files
      ensures files == RemoveAll(old(files), fileToRemove) && notified == files
    {
      var updatedFiles := RemoveAll(files, fileToRemove);
      files := updatedFiles;
      notified := updatedFiles;
    }
  }
}
