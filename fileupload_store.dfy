/** The upload metadata store of ui/fileupload/store.go. */
module FileUploadStore {
  import opened Wrappers

  /** `FileMeta`. */
  datatype FileMeta = FileMeta(id: string, name: string, size: int, mimeType: string)

  /** The position of the first file with this ID, if any. */
  function FirstIndex(files: seq<FileMeta>, fileId: string): (r: Option<nat>)
    ensures r.None? <==> forall j :: 0 <= j < |files| ==> files[j].id != fileId
    ensures r.Some? ==> r.value < |files| && files[r.value].id == fileId
    ensures r.Some? ==> forall j :: 0 <= j < r.value ==> files[j].id != fileId
  {
    if |files| == 0 then None
    else if files[0].id == fileId then Some(0)
    else match FirstIndex(files[1..], fileId)
      case None => None
      case Some(i) => Some(i + 1)
  }

  /** The files with the first one carrying this ID taken out; unchanged when none does. */
  function RemoveFirst(files: seq<FileMeta>, fileId: string): (r: seq<FileMeta>)
    ensures FirstIndex(files, fileId).None? ==> r == files
    ensures FirstIndex(files, fileId).Some? ==>
      var i := FirstIndex(files, fileId).value;
      && i < |files| && files[i].id == fileId && |r| == |files| - 1
      && (forall j :: 0 <= j < i ==> r[j] == files[j] && files[j].id != fileId)
      && (forall j :: i <= j < |r| ==> r[j] == files[j + 1])
  {
    match FirstIndex(files, fileId)
      case None => files
      case Some(i) => files[..i] + files[i + 1..]
  }

  /** Removing drops exactly one occurrence of a present ID, and keeps everything else in order. */
  lemma RemoveFirstRemovesOne(files: seq<FileMeta>, fileId: string)
    ensures FirstIndex(files, fileId).None? ==> RemoveFirst(files, fileId) == files
    ensures FirstIndex(files, fileId).Some? ==>
      && |RemoveFirst(files, fileId)| == |files| - 1
      && multiset(RemoveFirst(files, fileId)) + multiset{files[FirstIndex(files, fileId).value]} == multiset(files)
  {
    match FirstIndex(files, fileId)
      case None =>
      case Some(i) =>
        RemoveAt(files, i);
  }

  /** Cutting out position `i` loses that one element and nothing else. */
  lemma RemoveAt(files: seq<FileMeta>, i: nat)
    requires i < |files|
    ensures |files[..i] + files[i + 1..]| == |files| - 1
    ensures multiset(files[..i] + files[i + 1..]) + multiset{files[i]} == multiset(files)
  {
    var front, back := files[..i], files[i + 1..];
    assert files == front + [files[i]] + back;
  }

  /** Adding a file under a fresh ID and then removing that ID restores the list. */
  lemma {:induction false} AddThenRemove(files: seq<FileMeta>, meta: FileMeta)
    requires forall j :: 0 <= j < |files| ==> files[j].id != meta.id
    ensures RemoveFirst(files + [meta], meta.id) == files
  {
    assert FirstIndex(files + [meta], meta.id) == Some(|files|) by {
      FirstIndexAfterAbsent(files, [meta], meta.id);
    }
    assert (files + [meta])[..|files|] == files;
  }

  /** With no match in `xs`, the first match in `xs + ys` is the first match in `ys`, shifted. */
  lemma {:induction false} FirstIndexAfterAbsent(xs: seq<FileMeta>, ys: seq<FileMeta>, fileId: string)
    requires forall j :: 0 <= j < |xs| ==> xs[j].id != fileId
    ensures FirstIndex(xs + ys, fileId) == match FirstIndex(ys, fileId) case None => None case Some(i) => Some(i + |xs|)
  {
    if |xs| > 0 {
      assert (xs + ys)[1..] == xs[1..] + ys;
      FirstIndexAfterAbsent(xs[1..], ys, fileId);
    } else {
      assert xs + ys == ys;
    }
  }

  /** `Store`: file lists keyed by `"sessionID:componentID"` (the mutex is left out). */
  class Store {
    var files: map<string, seq<FileMeta>>

    /** `NewStore()`: no key holds any file. */
    constructor ()
      ensures files == map[]
    {
      files := map[];
    }

    /** `List`: a copy of the files under `key`; a key never written lists nothing. */
    function List(key: string): (r: seq<FileMeta>)
      reads this
      ensures key !in files ==> r == []
      ensures key in files ==> r == files[key]
    {
      if key in files then files[key] else []
    }

    /** `Add`: the file is appended under `key`; every other key is untouched. */
    method Add(key: string, meta: FileMeta)
      modifies this
      ensures files == old(files)[key := old(List(key)) + [meta]]
      ensures List(key) == old(List(key)) + [meta]
    {
      files := files[key := List(key) + [meta]];
    }

    /** `Remove`: the first file with that ID leaves the list under `key`; without one nothing changes. */
    method Remove(key: string, fileId: string)
      modifies this
      ensures FirstIndex(old(List(key)), fileId).None? ==> files == old(files)
      ensures FirstIndex(old(List(key)), fileId).Some? ==> files == old(files)[key := RemoveFirst(old(List(key)), fileId)]
      ensures List(key) == RemoveFirst(old(List(key)), fileId)
    {
      var current := List(key);
      var i := 0;
      while i < |current|
        invariant i <= |current|
        invariant forall j :: 0 <= j < i ==> current[j].id != fileId
        invariant files == old(files)
      {
        if current[i].id == fileId {
          assert FirstIndex(current, fileId) == Some(i);
          files := files[key := current[..i] + current[i + 1..]];
          return;
        }
        i := i + 1;
      }
    }

    /** `Clear`: the key is dropped; every other key is untouched. */
    method Clear(key: string)
      modifies this
      ensures files == old(files) - {key}
      ensures List(key) == []
    {
      files := files - {key};
    }
  }
}
