/** The file-selection widget: a bounded, type-filtered list of files held in
    component state, fed by the file input and by drag-and-drop, and reported
    to the parent after every change. */
module FileUpload {
  import opened Seqs

  /** A browser `File`, reduced to what the widget looks at. */
  datatype File = File(name: string, mediaType: string)

  const DefaultMaxFiles: int := 20
  const DefaultAcceptedFileTypes: seq<string> := ["image/jpeg", "image/png"]

  predicate IsAccepted(acceptedFileTypes: seq<string>, f: File) {
    f.mediaType in acceptedFileTypes
  }

  /** The incoming files whose media type is allowed, in input order. */
  function ValidFiles(acceptedFileTypes: seq<string>, incoming: seq<File>): (valid: seq<File>)
    ensures |valid| <= |incoming|
    ensures forall f :: f in valid <==> f in incoming && IsAccepted(acceptedFileTypes, f)
  {
    FilterMembers(f => IsAccepted(acceptedFileTypes, f), incoming);
    Filter(f => IsAccepted(acceptedFileTypes, f), incoming)
  }

  /** `s.slice(0, end)`: a negative `end` counts back from the length, an
      `end` past the length stops there. */
  function SliceTo<T>(s: seq<T>, end: int): (r: seq<T>)
    ensures r <= s
    ensures 0 <= end ==> |r| == Min(end, |s|)
    ensures end < 0 ==> |r| == Max(0, |s| + end)
  {
    if end < 0 then s[..Max(0, |s| + end)]
    else if end < |s| then s[..end]
    else s
  }

  /** The list an input change or a drop leaves: the current list followed by
      the accepted incoming files, cut to `maxFiles`. */
  function AddFiles(current: seq<File>, incoming: seq<File>, acceptedFileTypes: seq<string>, maxFiles: int): (r: seq<File>)
    // capacity
    ensures 0 <= maxFiles ==> |r| <= maxFiles
    // only files already selected or accepted incoming ones; rejected files never enter
    ensures forall f :: f in r ==> f in current || (f in incoming && IsAccepted(acceptedFileTypes, f))
    // within capacity, nothing already selected is evicted, and the accepted
    // files follow in input order, earliest first, up to the room left
    ensures |current| <= maxFiles ==>
      && current <= r
      && r[|current|..] == ValidFiles(acceptedFileTypes, incoming)[..Min(maxFiles - |current|, |ValidFiles(acceptedFileTypes, incoming)|)]
  {
    var valid := ValidFiles(acceptedFileTypes, incoming);
    var r := SliceTo(current + valid, maxFiles);
    assert forall f :: f in r ==> f in current + valid by {
      forall f | f in r ensures f in current + valid {
        var k :| 0 <= k < |r| && r[k] == f;
        assert (current + valid)[k] == f;
      }
    }
    assert |current| <= maxFiles ==> r[|current|..] == (current + valid)[|current|..|r|];
    r
  }

  /** `splice(start, 1)` on a copy of `s`: a negative `start` counts back from
      the length (clamped at 0), a `start` at or past the length removes nothing. */
  function SpliceOne<T>(s: seq<T>, start: int): (r: seq<T>)
    ensures |s| - 1 <= |r| <= |s|
    ensures |r| == |s| - 1 <==> s != [] && start < |s|
    ensures start >= |s| ==> r == s
  {
    var i := if start < 0 then Max(|s| + start, 0) else Min(start, |s|);
    if i < |s| then s[..i] + s[i + 1..] else s
  }

  /** Removing a valid index drops exactly that entry and keeps the rest in order. */
  lemma RemoveAt(files: seq<File>, i: int)
    requires 0 <= i < |files|
    ensures |SpliceOne(files, i)| == |files| - 1
    ensures SpliceOne(files, i)[..i] == files[..i]
    ensures forall k :: i <= k < |files| - 1 ==> SpliceOne(files, i)[k] == files[k + 1]
    ensures multiset(SpliceOne(files, i)) + multiset{files[i]} == multiset(files)
  {
    assert files == files[..i] + [files[i]] + files[i + 1..];
  }

  /** The widget's state. `notified` records every list handed to the
      parent's `onFilesSelected`, oldest first. */
  class FileSelector {
    const maxFiles: int
    const acceptedFileTypes: seq<string>
    var files: seq<File>
    var isDragActive: bool
    var notified: seq<seq<File>>

    /** Within capacity, only accepted files, and the parent has last been
        told the current list (or has been told nothing while it is empty). */
    ghost predicate Valid()
      reads this
    {
      && (0 <= maxFiles ==> |files| <= maxFiles)
      && (forall f :: f in files ==> IsAccepted(acceptedFileTypes, f))
      && (if notified == [] then files == [] else notified[|notified| - 1] == files)
    }

    constructor (maxFiles: int := DefaultMaxFiles, acceptedFileTypes: seq<string> := DefaultAcceptedFileTypes)
      ensures this.maxFiles == maxFiles && this.acceptedFileTypes == acceptedFileTypes
      ensures files == [] && !isDragActive && notified == []
      ensures Valid()
    {
      this.maxFiles := maxFiles;
      this.acceptedFileTypes := acceptedFileTypes;
      files := [];
      isDragActive := false;
      notified := [];
    }

    /** Replace the list and report it to the parent. */
    method SetFiles(newFiles: seq<File>)
      modifies this
      ensures files == newFiles && notified == old(notified) + [newFiles]
      ensures isDragActive == old(isDragActive)
    {
      files := newFiles;
      notified := notified + [newFiles];
    }

    /** The file input's change handler; `None` is an event without a file list. */
    method HandleFileChange(incoming: Option<seq<File>>)
      requires Valid()
      modifies this
      ensures Valid()
      ensures incoming.None? ==> unchanged(this)
      ensures incoming.Some? ==>
        && files == AddFiles(old(files), incoming.value, acceptedFileTypes, maxFiles)
        && notified == old(notified) + [files]
        && isDragActive == old(isDragActive)
    {
      if incoming.Some? {
        var newFiles := AddFiles(files, incoming.value, acceptedFileTypes, maxFiles);
        SetFiles(newFiles);
      }
    }

    method HandleDragOver()
      requires Valid()
      modifies this
      ensures Valid()
      ensures isDragActive
      ensures files == old(files) && notified == old(notified)
    {
      isDragActive := true;
    }

    method HandleDragLeave()
      requires Valid()
      modifies this
      ensures Valid()
      ensures !isDragActive
      ensures files == old(files) && notified == old(notified)
    {
      isDragActive := false;
    }

    /** The drop handler: ends the drag, then adds exactly as an input change does. */
    method HandleDrop(incoming: Option<seq<File>>)
      requires Valid()
      modifies this
      ensures Valid()
      ensures !isDragActive
      ensures incoming.None? ==> files == old(files) && notified == old(notified)
      ensures incoming.Some? ==>
        && files == AddFiles(old(files), incoming.value, acceptedFileTypes, maxFiles)
        && notified == old(notified) + [files]
    {
      isDragActive := false;
      if incoming.Some? {
        var newFiles := AddFiles(files, incoming.value, acceptedFileTypes, maxFiles);
        SetFiles(newFiles);
      }
    }

    /** The remove button of entry `index`; the parent is told even when nothing was removed. */
    method RemoveFile(index: int)
      requires Valid()
      modifies this
      ensures Valid()
      ensures files == SpliceOne(old(files), index)
      ensures notified == old(notified) + [files]
      ensures isDragActive == old(isDragActive)
    {
      var newFiles := SpliceOne(files, index);
      assert forall f :: f in newFiles ==> f in files by {
        forall f | f in newFiles ensures f in files {
          var k :| 0 <= k < |newFiles| && newFiles[k] == f;
          var i := if index < 0 then Max(|files| + index, 0) else Min(index, |files|);
          if i < |files| {
            assert newFiles == files[..i] + files[i + 1..];
            if k < i { assert files[k] == f; } else { assert files[k + 1] == f; }
          }
        }
      }
      SetFiles(newFiles);
    }

    /** The "Clear all" button. */
    method ClearAll()
      requires Valid()
      modifies this
      ensures Valid()
      ensures files == [] && notified == old(notified) + [[]]
      ensures isDragActive == old(isDragActive)
    {
      SetFiles([]);
    }
  }
}
