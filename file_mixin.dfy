/**
 * File-slug replacement (common/mixins/file_mixin.py): `update_file_field` uploads every new
 * file, then deletes every old slug, then stores the new slugs on the instance and saves it.
 * The file service is an oracle: for each file it either returns a slug or raises
 * `FileUploadError`, and for each slug the delete either succeeds or raises `FileDeleteError`.
 */
module FileMixin {
  import opened Wrappers
  import opened Backend

  /** An uploaded file, known to the model by its name. */
  datatype File = File(name: string)

  /** `validated_data.get(file_field_name)`: missing, one file, or a list of files. */
  datatype Files = Absent | Single(file: File) | Many(files: seq<File>)
  {
    /** Python truthiness: an absent value and an empty list are falsy. */
    predicate Truthy() {
      Single? || (Many? && files != [])
    }

    /** A single non-list file is wrapped in a list. */
    function AsList(): (fs: seq<File>)
      ensures Single? ==> fs == [file]
      ensures Many? ==> fs == files
      ensures Truthy() ==> fs != []
    {
      match this
      case Absent => []
      case Single(f) => [f]
      case Many(fs) => fs
    }
  }

  /** One request to the file service. */
  datatype FileCall = UploadCall(file: File) | DeleteCall(slug: string)

  const UploadFailed: Exc := DrfValidationError(Text("File upload failed"))
  const DeleteFailed: Exc := DrfValidationError(Text("Old file deletion failed"))

  /** A model instance as far as the mixin sees it: its slug-list attributes and how often it
      was saved. An attribute that is not in `attrs` has never been set. */
  class Instance {
    var attrs: map<string, seq<string>>
    var saves: nat

    constructor(attrs0: map<string, seq<string>>)
      ensures attrs == attrs0 && saves == 0
    {
      attrs := attrs0;
      saves := 0;
    }

    /** `getattr(instance, name, [])`. */
    function Slugs(name: string): (s: seq<string>)
      reads this
      ensures name !in attrs ==> s == []
      ensures name in attrs ==> s == attrs[name]
    {
      SlugsOf(attrs, name)
    }

    method SetSlugs(name: string, slugs: seq<string>)
      modifies this
      ensures attrs == old(attrs)[name := slugs] && saves == old(saves)
    {
      attrs := attrs[name := slugs];
    }

    method Save()
      modifies this
      ensures attrs == old(attrs) && saves == old(saves) + 1
    {
      saves := saves + 1;
    }
  }

  /** The remote file service: the calls made to it, in order, and the outcome it gives each. */
  class FileService {
    var calls: seq<FileCall>
    /** The slug returned for a file, or None when the upload raises `FileUploadError`. */
    const upload: File -> Option<string>
    /** Whether deleting a slug succeeds; false when it raises `FileDeleteError`. */
    const deletes: string -> bool

    constructor(upload0: File -> Option<string>, deletes0: string -> bool)
      ensures calls == [] && upload == upload0 && deletes == deletes0
    {
      calls := [];
      upload := upload0;
      deletes := deletes0;
    }

    method Upload(f: File) returns (slug: Option<string>)
      modifies this
      ensures calls == old(calls) + [UploadCall(f)] && slug == upload(f)
    {
      calls := calls + [UploadCall(f)];
      slug := upload(f);
    }

    method Delete(slug: string) returns (ok: bool)
      modifies this
      ensures calls == old(calls) + [DeleteCall(slug)] && ok == deletes(slug)
    {
      calls := calls + [DeleteCall(slug)];
      ok := deletes(slug);
    }
  }

  /** The upload loop over a prefix of the files: the calls made, the slugs collected, and
      whether it stopped at a failing upload (the last call). */
  datatype UploadRun = UploadRun(calls: seq<FileCall>, slugs: seq<string>, failed: bool)

  function Uploads(fs: seq<File>, upload: File -> Option<string>): UploadRun {
    if fs == [] then UploadRun([], [], false)
    else
      var r := Uploads(fs[..|fs| - 1], upload);
      if r.failed then r
      else match upload(fs[|fs| - 1])
        case None => UploadRun(r.calls + [UploadCall(fs[|fs| - 1])], r.slugs, true)
        case Some(s) => UploadRun(r.calls + [UploadCall(fs[|fs| - 1])], r.slugs + [s], false)
  }

  /** The delete loop over a prefix of the old slugs: the calls made and whether it stopped. */
  datatype DeleteRun = DeleteRun(calls: seq<FileCall>, failed: bool)

  function Deletes(slugs: seq<string>, deletes: string -> bool): DeleteRun {
    if slugs == [] then DeleteRun([], false)
    else
      var r := Deletes(slugs[..|slugs| - 1], deletes);
      if r.failed then r
      else DeleteRun(r.calls + [DeleteCall(slugs[|slugs| - 1])], !deletes(slugs[|slugs| - 1]))
  }

  /** The whole of one `update_file_field` call: the service calls, the new attributes, whether
      the instance was saved, and what the call returned or raised. */
  datatype Update = Update(calls: seq<FileCall>, attrs: map<string, seq<string>>, saved: bool, result: Result<(), Exc>)

  /** `getattr(instance, field, [])` on an instance whose attributes are `attrs`. */
  function SlugsOf(attrs: map<string, seq<string>>, field: string): seq<string> {
    if field in attrs then attrs[field] else []
  }

  function UpdateSpec(files: Files, attrs: map<string, seq<string>>, field: string,
                      upload: File -> Option<string>, deletes: string -> bool): Update
  {
    if !files.Truthy() then Update([], attrs, false, Ok(()))
    else
      var u := Uploads(files.AsList(), upload);
      if u.failed then Update(u.calls, attrs, false, Err(UploadFailed))
      else
        var d := Deletes(SlugsOf(attrs, field), deletes);
        if d.failed then Update(u.calls + d.calls, attrs, false, Err(DeleteFailed))
        else Update(u.calls + d.calls, attrs[field := u.slugs], true, Ok(()))
  }

  /** The first loop of `update_file_field`: upload each file in order, stopping at the first
      `FileUploadError`. Returns the collected slugs, or None after a failure. */
  method UploadAll(service: FileService, fs: seq<File>) returns (slugs: Option<seq<string>>)
    modifies service
    ensures var u := Uploads(fs, service.upload);
      && service.calls == old(service.calls) + u.calls
      && slugs == (if u.failed then None else Some(u.slugs))
  {
    var newSlugs: seq<string> := [];
    var i := 0;
    while i < |fs|
      invariant 0 <= i <= |fs|
      invariant !Uploads(fs[..i], service.upload).failed && Uploads(fs[..i], service.upload).slugs == newSlugs
      invariant service.calls == old(service.calls) + Uploads(fs[..i], service.upload).calls
    {
      assert fs[..i + 1][..i] == fs[..i];
      var slug := service.Upload(fs[i]);
      if slug.None? {
        UploadsStopAtFailure(fs, service.upload, i + 1);
        return None;
      }
      newSlugs := newSlugs + [slug.value];
      i := i + 1;
    }
    assert fs[..i] == fs;
    slugs := Some(newSlugs);
  }

  /** The second loop: delete each old slug in order, stopping at the first `FileDeleteError`. */
  method DeleteAll(service: FileService, slugs: seq<string>) returns (ok: bool)
    modifies service
    ensures var d := Deletes(slugs, service.deletes);
      && service.calls == old(service.calls) + d.calls
      && ok == !d.failed
  {
    var j := 0;
    while j < |slugs|
      invariant 0 <= j <= |slugs|
      invariant !Deletes(slugs[..j], service.deletes).failed
      invariant service.calls == old(service.calls) + Deletes(slugs[..j], service.deletes).calls
    {
      assert slugs[..j + 1][..j] == slugs[..j];
      var deleted := service.Delete(slugs[j]);
      if !deleted {
        DeletesStopAtFailure(slugs, service.deletes, j + 1);
        return false;
      }
      j := j + 1;
    }
    assert slugs[..j] == slugs;
    ok := true;
  }

  /** `FileUploadMixin.update_file_field`, on the slug attribute `field`. */
  method UpdateFileField(instance: Instance, service: FileService, field: string, files: Files)
    returns (r: Result<(), Exc>)
    modifies instance, service
    ensures var u := UpdateSpec(files, old(instance.attrs), field, service.upload, service.deletes);
      && service.calls == old(service.calls) + u.calls
      && instance.attrs == u.attrs
      && instance.saves == old(instance.saves) + (if u.saved then 1 else 0)
      && r == u.result
  {
    if !files.Truthy() {
      return Ok(());
    }
    var oldSlugs := instance.Slugs(field);
    var newSlugs := UploadAll(service, files.AsList());
    if newSlugs.None? {
      return Err(UploadFailed);
    }
    var ok := DeleteAll(service, oldSlugs);
    if !ok {
      return Err(DeleteFailed);
    }
    instance.SetSlugs(field, newSlugs.value);
    instance.Save();
    r := Ok(());
  }

  // ---------------------------------------------------------------- the two loops

  /** Once the upload loop has failed, later files are never reached. */
  lemma {:induction false} UploadsStopAtFailure(fs: seq<File>, upload: File -> Option<string>, k: int)
    requires 0 <= k <= |fs| && Uploads(fs[..k], upload).failed
    ensures Uploads(fs, upload) == Uploads(fs[..k], upload)
    decreases |fs| - k
  {
    if k < |fs| {
      assert fs[..k + 1][..k] == fs[..k];
      UploadsStopAtFailure(fs, upload, k + 1);
    } else {
      assert fs[..k] == fs;
    }
  }

  lemma {:induction false} DeletesStopAtFailure(slugs: seq<string>, deletes: string -> bool, k: int)
    requires 0 <= k <= |slugs| && Deletes(slugs[..k], deletes).failed
    ensures Deletes(slugs, deletes) == Deletes(slugs[..k], deletes)
    decreases |slugs| - k
  {
    if k < |slugs| {
      assert slugs[..k + 1][..k] == slugs[..k];
      DeletesStopAtFailure(slugs, deletes, k + 1);
    } else {
      assert slugs[..k] == slugs;
    }
  }

  /** The upload loop uploads the files in order, up to and including the first one that fails;
      it fails exactly when some file fails, and otherwise collects one slug per file in order. */
  lemma {:induction false} UploadsShape(fs: seq<File>, upload: File -> Option<string>)
    ensures var r := Uploads(fs, upload);
      && |r.calls| <= |fs|
      && (forall i :: 0 <= i < |r.calls| ==> r.calls[i] == UploadCall(fs[i]))
      && (!r.failed <==> forall i :: 0 <= i < |fs| ==> upload(fs[i]).Some?)
      && (!r.failed ==> |r.calls| == |fs| == |r.slugs| && forall i :: 0 <= i < |fs| ==> upload(fs[i]) == Some(r.slugs[i]))
  {
    if fs != [] {
      var n := |fs| - 1;
      var p := fs[..n];
      UploadsShape(p, upload);
      assert forall i :: 0 <= i < n ==> p[i] == fs[i];
      var q := Uploads(p, upload);
      var r := Uploads(fs, upload);
      if q.failed {
        assert r == q;
        var k :| 0 <= k < n && upload(p[k]).None?;
        assert upload(fs[k]).None?;
      } else if upload(fs[n]).None? {
        assert r.calls == q.calls + [UploadCall(fs[n])];
      } else {
        assert r.calls == q.calls + [UploadCall(fs[n])];
        assert r.slugs == q.slugs + [upload(fs[n]).value];
      }
    }
  }

  /** Likewise for the delete loop, which collects nothing. */
  lemma {:induction false} DeletesShape(slugs: seq<string>, deletes: string -> bool)
    ensures var r := Deletes(slugs, deletes);
      && |r.calls| <= |slugs|
      && (forall i :: 0 <= i < |r.calls| ==> r.calls[i] == DeleteCall(slugs[i]))
      && (!r.failed <==> forall i :: 0 <= i < |slugs| ==> deletes(slugs[i]))
      && (!r.failed ==> |r.calls| == |slugs|)
      && (r.failed ==> 0 < |r.calls|)
  {
    if slugs != [] {
      var n := |slugs| - 1;
      var p := slugs[..n];
      DeletesShape(p, deletes);
      assert forall i :: 0 <= i < n ==> p[i] == slugs[i];
    }
  }

  // ---------------------------------------------------------------- properties of one update

  /** A falsy files value changes nothing and calls nothing. */
  lemma FalsyIsNoop(files: Files, attrs: map<string, seq<string>>, field: string,
                    upload: File -> Option<string>, deletes: string -> bool)
    requires !files.Truthy()
    ensures UpdateSpec(files, attrs, field, upload, deletes) == Update([], attrs, false, Ok(()))
  {
  }

  /** A single file behaves as the one-element list holding it. */
  lemma SingleIsOneElementList(f: File, attrs: map<string, seq<string>>, field: string,
                               upload: File -> Option<string>, deletes: string -> bool)
    ensures UpdateSpec(Single(f), attrs, field, upload, deletes) == UpdateSpec(Many([f]), attrs, field, upload, deletes)
  {
  }

  /** Every upload precedes every delete. */
  lemma UploadsBeforeDeletes(files: Files, attrs: map<string, seq<string>>, field: string,
                             upload: File -> Option<string>, deletes: string -> bool)
    ensures var calls := UpdateSpec(files, attrs, field, upload, deletes).calls;
      forall i, j :: 0 <= i < j < |calls| && calls[i].DeleteCall? ==> calls[j].DeleteCall?
  {
    if files.Truthy() {
      var u := Uploads(files.AsList(), upload);
      var d := Deletes(SlugsOf(attrs, field), deletes);
      UploadsShape(files.AsList(), upload);
      DeletesShape(SlugsOf(attrs, field), deletes);
      var calls := u.calls + d.calls;
      assert forall i :: 0 <= i < |calls| ==> (calls[i].DeleteCall? <==> i >= |u.calls|);
    }
  }

  /** When every upload and every delete succeeds, the slug attribute becomes exactly the
      uploaded slugs in file order, every old slug is deleted exactly once after all the uploads,
      and the instance is saved once. */
  lemma UpdateSucceeds(files: Files, attrs: map<string, seq<string>>, field: string,
                       upload: File -> Option<string>, deletes: string -> bool)
    requires files.Truthy()
    requires forall i :: 0 <= i < |files.AsList()| ==> upload(files.AsList()[i]).Some?
    requires forall i :: 0 <= i < |SlugsOf(attrs, field)| ==> deletes(SlugsOf(attrs, field)[i])
    ensures var fs, olds, u := files.AsList(), SlugsOf(attrs, field), UpdateSpec(files, attrs, field, upload, deletes);
      && u.result == Ok(()) && u.saved
      && u.attrs.Keys == attrs.Keys + {field}
      && (forall k :: k in attrs && k != field ==> u.attrs[k] == attrs[k])
      && |u.attrs[field]| == |fs| && (forall i :: 0 <= i < |fs| ==> upload(fs[i]) == Some(u.attrs[field][i]))
      && |u.calls| == |fs| + |olds|
      && (forall i :: 0 <= i < |fs| ==> u.calls[i] == UploadCall(fs[i]))
      && (forall i :: 0 <= i < |olds| ==> u.calls[|fs| + i] == DeleteCall(olds[i]))
  {
    UploadsShape(files.AsList(), upload);
    DeletesShape(SlugsOf(attrs, field), deletes);
  }

  /** The slugs a sequence of calls deletes, in order. */
  function DeletedSlugs(calls: seq<FileCall>): (s: seq<string>)
    ensures |s| <= |calls|
  {
    if calls == [] then []
    else (if calls[0].DeleteCall? then [calls[0].slug] else []) + DeletedSlugs(calls[1..])
  }

  lemma {:induction false} DeletedSlugsOfDeleteCalls(calls: seq<FileCall>, slugs: seq<string>)
    requires |calls| == |slugs| && forall i :: 0 <= i < |slugs| ==> calls[i] == DeleteCall(slugs[i])
    ensures DeletedSlugs(calls) == slugs
  {
    if calls != [] {
      DeletedSlugsOfDeleteCalls(calls[1..], slugs[1..]);
    }
  }

  lemma {:induction false} DeletedSlugsOfUploadCalls(calls: seq<FileCall>)
    requires forall i :: 0 <= i < |calls| ==> calls[i].UploadCall?
    ensures DeletedSlugs(calls) == []
  {
    if calls != [] {
      DeletedSlugsOfUploadCalls(calls[1..]);
    }
  }

  lemma {:induction false} DeletedSlugsConcat(a: seq<FileCall>, b: seq<FileCall>)
    ensures DeletedSlugs(a + b) == DeletedSlugs(a) + DeletedSlugs(b)
  {
    if a != [] {
      var h := if a[0].DeleteCall? then [a[0].slug] else [];
      assert (a + b)[0] == a[0];
      assert (a + b)[1..] == a[1..] + b;
      DeletedSlugsConcat(a[1..], b);
      assert DeletedSlugs(a + b) == h + DeletedSlugs(a[1..] + b);
      assert DeletedSlugs(a) == h + DeletedSlugs(a[1..]);
    } else {
      assert a + b == b;
    }
  }

  /** On success each old slug is deleted exactly as many times as it occurs among the old slugs. */
  lemma EachOldSlugDeletedOnce(files: Files, attrs: map<string, seq<string>>, field: string,
                               upload: File -> Option<string>, deletes: string -> bool)
    requires UpdateSpec(files, attrs, field, upload, deletes).saved
    ensures multiset(DeletedSlugs(UpdateSpec(files, attrs, field, upload, deletes).calls)) == multiset(SlugsOf(attrs, field))
  {
    var fs, olds := files.AsList(), SlugsOf(attrs, field);
    var u := Uploads(fs, upload);
    var d := Deletes(olds, deletes);
    UploadsShape(fs, upload);
    DeletesShape(olds, deletes);
    DeletedSlugsConcat(u.calls, d.calls);
    DeletedSlugsOfUploadCalls(u.calls);
    DeletedSlugsOfDeleteCalls(d.calls, olds);
  }

  /** An upload failure raises "File upload failed" before any delete; the slugs are unchanged
      and the instance is not saved. */
  lemma UploadFailureChangesNothing(files: Files, attrs: map<string, seq<string>>, field: string,
                                    upload: File -> Option<string>, deletes: string -> bool)
    requires files.Truthy() && exists i :: 0 <= i < |files.AsList()| && upload(files.AsList()[i]).None?
    ensures var u := UpdateSpec(files, attrs, field, upload, deletes);
      && u.result == Err(UploadFailed) && u.attrs == attrs && !u.saved
      && forall i :: 0 <= i < |u.calls| ==> u.calls[i].UploadCall?
  {
    UploadsShape(files.AsList(), upload);
  }

  /** A delete failure raises "Old file deletion failed" after every file was uploaded; the
      uploaded slugs are recorded nowhere and the instance is not saved. */
  lemma DeleteFailureOrphansUploads(files: Files, attrs: map<string, seq<string>>, field: string,
                                    upload: File -> Option<string>, deletes: string -> bool)
    requires files.Truthy()
    requires forall i :: 0 <= i < |files.AsList()| ==> upload(files.AsList()[i]).Some?
    requires exists i :: 0 <= i < |SlugsOf(attrs, field)| && !deletes(SlugsOf(attrs, field)[i])
    ensures var fs, u := files.AsList(), UpdateSpec(files, attrs, field, upload, deletes);
      && u.result == Err(DeleteFailed) && u.attrs == attrs && !u.saved
      && |fs| < |u.calls| && forall i :: 0 <= i < |fs| ==> u.calls[i] == UploadCall(fs[i])
  {
    UploadsShape(files.AsList(), upload);
    DeletesShape(SlugsOf(attrs, field), deletes);
  }

  /** The instance is saved exactly when the call returns normally after doing work, and the
      attributes change only then. */
  lemma SavedIffSucceeded(files: Files, attrs: map<string, seq<string>>, field: string,
                          upload: File -> Option<string>, deletes: string -> bool)
    ensures var u := UpdateSpec(files, attrs, field, upload, deletes);
      && (u.saved <==> files.Truthy() && u.result.Ok?)
      && (!u.saved ==> u.attrs == attrs)
  {
  }

  /** A missing slug attribute counts as no old slugs: nothing is deleted. */
  lemma MissingAttributeDeletesNothing(files: Files, attrs: map<string, seq<string>>, field: string,
                                       upload: File -> Option<string>, deletes: string -> bool)
    requires field !in attrs
    ensures DeletedSlugs(UpdateSpec(files, attrs, field, upload, deletes).calls) == []
  {
    if files.Truthy() {
      var u := Uploads(files.AsList(), upload);
      UploadsShape(files.AsList(), upload);
      DeletedSlugsOfUploadCalls(u.calls);
      assert Deletes([], deletes).calls == [];
      assert u.calls + [] == u.calls;
    }
  }
}
