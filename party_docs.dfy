/** The party documents step: each user's files live under
    `<user id>/party-documents/` in the `party-logos` bucket; the page lists,
    uploads, deletes and previews them. */
module PartyDocs {
  import opened Common

  /** `STORAGE_FOLDER`. */
  const StorageFolder: string := "party-documents"
  const NotAuthenticated: string := "User not authenticated"
  const SelectFiles: string := "Please select at least one file to upload."

  /** The folder that `fetchFiles` lists. */
  function ListPrefix(userId: string): string {
    userId + "/" + StorageFolder
  }

  /** The object path of a file, as upload, delete and preview build it. */
  function StoragePath(userId: string, name: string): string {
    userId + "/" + StorageFolder + "/" + name
  }

  /** Every file path lies in the listed folder, and the name can be read
      back from the path. */
  lemma PathInFolder(userId: string, name: string)
    ensures StoragePath(userId, name) == ListPrefix(userId) + "/" + name
    ensures var p := StoragePath(userId, name); var n := |ListPrefix(userId)| + 1;
      |p| == n + |name| && p[..n] == ListPrefix(userId) + "/" && p[n..] == name
  {
    var p := StoragePath(userId, name);
    assert p == (ListPrefix(userId) + "/") + name;
  }

  /** One user's files have distinct paths exactly when their names differ. */
  lemma PathInjective(userId: string, a: string, b: string)
    ensures StoragePath(userId, a) == StoragePath(userId, b) <==> a == b
  {
    if StoragePath(userId, a) == StoragePath(userId, b) {
      PathInFolder(userId, a);
      PathInFolder(userId, b);
    }
  }

  predicate NoSlash(s: string) {
    forall i :: 0 <= i < |s| ==> s[i] != '/'
  }

  /** Two users whose ids have no `/` in them never share a path: every
      user's files stay in that user's own folder. */
  lemma UsersDisjoint(u: string, v: string, a: string, b: string)
    requires NoSlash(u) && NoSlash(v) && u != v
    ensures StoragePath(u, a) != StoragePath(v, b)
  {
    var p, q := StoragePath(u, a), StoragePath(v, b);
    assert p == u + ("/" + StorageFolder + "/" + a);
    assert q == v + ("/" + StorageFolder + "/" + b);
    if |u| < |v| {
      assert p[|u|] == '/' && q[|u|] == v[|u|];
    } else if |v| < |u| {
      assert q[|v|] == '/' && p[|v|] == u[|v|];
    } else {
      var i :| 0 <= i < |u| && u[i] != v[i];
      assert p[i] == u[i] && q[i] == v[i];
    }
  }

  /** The object paths of the selected files, in order. */
  function UploadPaths(userId: string, names: seq<string>): (r: seq<string>)
    ensures |r| == |names|
    ensures forall i :: 0 <= i < |names| ==> r[i] == StoragePath(userId, names[i])
  {
    if names == [] then [] else UploadPaths(userId, names[..|names| - 1]) + [StoragePath(userId, names[|names| - 1])]
  }

  /** The store's reply to the uploads: the error message for each path
      whose upload fails. */
  type UploadErrors = map<string, string>

  /** Where the upload loop stops, from position `i` on: the first path that
      fails, or the end of the list. Every path before it uploads. */
  function FirstFailure(paths: seq<string>, errors: UploadErrors, i: nat): (k: nat)
    requires i <= |paths|
    decreases |paths| - i
    ensures i <= k <= |paths|
    ensures forall j :: i <= j < k ==> paths[j] !in errors
    ensures k < |paths| ==> paths[k] in errors
  {
    if i == |paths| || paths[i] in errors then i else FirstFailure(paths, errors, i + 1)
  }

  /** The loop stops at the first failure whatever follows it: paths after
      a failing one are never uploaded. */
  lemma {:induction false} FailureStops(paths: seq<string>, errors: UploadErrors, i: nat, k: nat)
    requires i <= k < |paths| && paths[k] in errors
    decreases |paths| - i
    ensures FirstFailure(paths, errors, i) <= k
  {
    if paths[i] !in errors {
      FailureStops(paths, errors, i + 1, k);
    }
  }

  /** The `for ... of` loop of `handleUpload`: uploads the files in order
      and stops at the first failure, with its error. Returns the paths
      written. */
  method UploadSelected(userId: string, names: seq<string>, errors: UploadErrors)
    returns (uploaded: seq<string>, failure: Option<string>)
    ensures var paths := UploadPaths(userId, names); var k := FirstFailure(paths, errors, 0);
      && uploaded == paths[..k]
      && failure == (if k < |paths| then Some(errors[paths[k]]) else None)
  {
    ghost var paths := UploadPaths(userId, names);
    uploaded := [];
    var i := 0;
    while i < |names|
      invariant 0 <= i <= |names|
      invariant FirstFailure(paths, errors, 0) == FirstFailure(paths, errors, i)
      invariant uploaded == paths[..i]
    {
      var filePath := StoragePath(userId, names[i]);
      if filePath in errors {
        return uploaded, Some(errors[filePath]);
      }
      uploaded := uploaded + [filePath];
      i := i + 1;
    }
    failure := None;
  }

  /** The reply to `list(prefix)`: the names found, or an error. */
  datatype ListReply = Listed(names: seq<string>) | ListError(message: string)

  /** The error `fetchFiles` leaves. */
  function FetchError(session: Option<User>, listing: ListReply): (e: Option<string>)
    ensures e.None? <==> session.Some? && listing.Listed?
    ensures session.None? ==> e == Some(NotAuthenticated)
  {
    if session.None? then Some(NotAuthenticated)
    else if listing.ListError? then Some(listing.message)
    else None
  }

  /** `getSignedUrl(name)`: `urls` maps the paths for which the store signs a
      URL to that URL; no user or a failed signing gives `null`. */
  function SignedUrl(session: Option<User>, name: string, urls: map<string, string>): (r: Option<string>)
    ensures r.Some? <==> session.Some? && StoragePath(session.value.id, name) in urls
    ensures r.Some? ==> r.value == urls[StoragePath(session.value.id, name)]
  {
    if session.None? then None
    else if StoragePath(session.value.id, name) in urls then Some(urls[StoragePath(session.value.id, name)])
    else None
  }

  /** The preview map `fetchSignedUrls` builds from the listed names: a name
      with a truthy signed URL maps to it. */
  function PreviewMap(session: Option<User>, names: seq<string>, urls: map<string, string>): map<string, string>
  {
    if names == [] then map[]
    else
      var m := PreviewMap(session, names[..|names| - 1], urls);
      var url := SignedUrl(session, names[|names| - 1], urls);
      if url.Some? && Truthy(url.value) then m[names[|names| - 1] := url.value] else m
  }

  /** A name is previewed exactly when it is listed and its signed URL is
      non-empty, and then with that URL. */
  lemma {:induction false} PreviewMapSpec(session: Option<User>, names: seq<string>, urls: map<string, string>)
    ensures var m := PreviewMap(session, names, urls);
      forall k ::
        && (k in m <==> k in names && SignedUrl(session, k, urls).Some? && Truthy(SignedUrl(session, k, urls).value))
        && (k in m ==> m[k] == SignedUrl(session, k, urls).value)
  {
    if names != [] {
      var init := names[..|names| - 1];
      PreviewMapSpec(session, init, urls);
      assert names == init + [names[|names| - 1]];
      forall k ensures k in names <==> k in init || k == names[|names| - 1] {
        if k in names {
          var i :| 0 <= i < |names| && names[i] == k;
          if i < |names| - 1 { assert init[i] == k; }
        }
      }
    }
  }

  /** The page's state. `files` holds the listed names. */
  class PartyDocsPage {
    var uploading: bool
    var files: seq<string>
    var selectedFiles: seq<string>
    var error: Option<string>
    var signedUrls: map<string, string>

    constructor ()
      ensures !uploading && files == [] && selectedFiles == [] && error == None && signedUrls == map[]
    {
      uploading := false;
      files := [];
      selectedFiles := [];
      error := None;
      signedUrls := map[];
    }

    /** `fetchFiles()`: lists the user's folder; the listing replaces the
        files only when it succeeds. */
    method FetchFiles(session: Option<User>, listing: ListReply)
      modifies this
      ensures error == FetchError(session, listing)
      ensures files == if error.None? then listing.names else old(files)
      ensures uploading == old(uploading) && selectedFiles == old(selectedFiles)
      ensures signedUrls == old(signedUrls)
    {
      error := None;
      if session.None? {
        error := Some(NotAuthenticated);
        return;
      }
      match listing
      case ListError(m) => error := Some(m);
      case Listed(names) => files := names;
    }

    /** `handleUpload()`: uploads the selected files in order, stopping at
        the first failure; after a complete upload clears the selection and
        lists again. Returns the paths written. */
    method HandleUpload(session: Option<User>, errors: UploadErrors, listing: ListReply)
      returns (uploaded: seq<string>)
      modifies this
      ensures !uploading && signedUrls == old(signedUrls)
      ensures session.None? ==>
        uploaded == [] && error == Some(NotAuthenticated)
        && files == old(files) && selectedFiles == old(selectedFiles)
      ensures session.Some? && old(selectedFiles) == [] ==>
        uploaded == [] && error == Some(SelectFiles) && files == old(files) && selectedFiles == []
      ensures session.Some? && old(selectedFiles) != [] ==>
        var paths := UploadPaths(session.value.id, old(selectedFiles));
        var k := FirstFailure(paths, errors, 0);
        && uploaded == paths[..k]
        && (k < |paths| ==>
              error == Some(errors[paths[k]]) && files == old(files) && selectedFiles == old(selectedFiles))
        && (k == |paths| ==>
              && selectedFiles == [] && error == FetchError(session, listing)
              && files == (if error.None? then listing.names else old(files)))
    {
      uploading := true;
      error := None;
      uploaded := [];
      if session.None? {
        error := Some(NotAuthenticated);
        uploading := false;
        return;
      }
      if selectedFiles == [] {
        error := Some(SelectFiles);
        uploading := false;
        return;
      }
      var failure;
      uploaded, failure := UploadSelected(session.value.id, selectedFiles, errors);
      if failure.Some? {
        error := failure;
        uploading := false;
        return;
      }
      selectedFiles := [];
      FetchFiles(session, listing);
      uploading := false;
    }

    /** `handleDelete(filename)`: after confirmation removes the file and
        lists again. Returns the path removed. */
    method HandleDelete(filename: string, confirmed: bool, session: Option<User>,
                        removeError: Option<string>, listing: ListReply)
      returns (removed: Option<string>)
      modifies this
      ensures uploading == old(uploading) && selectedFiles == old(selectedFiles)
      ensures signedUrls == old(signedUrls)
      ensures !confirmed ==> removed == None && error == old(error) && files == old(files)
      ensures confirmed && session.None? ==>
        removed == None && error == Some(NotAuthenticated) && files == old(files)
      ensures confirmed && session.Some? ==> removed == Some(StoragePath(session.value.id, filename))
      ensures confirmed && session.Some? && removeError.Some? ==>
        error == removeError && files == old(files)
      ensures confirmed && session.Some? && removeError.None? ==>
        error == FetchError(session, listing) && files == (if error.None? then listing.names else old(files))
    {
      removed := None;
      if !confirmed {
        return;
      }
      error := None;
      if session.None? {
        error := Some(NotAuthenticated);
        return;
      }
      var filePath := StoragePath(session.value.id, filename);
      removed := Some(filePath);
      if removeError.Some? {
        error := removeError;
        return;
      }
      FetchFiles(session, listing);
    }

    /** The effect run when the files change: when there are files, the
        preview map is rebuilt from them; with no files the old map stays. */
    method FetchSignedUrls(session: Option<User>, urls: map<string, string>)
      modifies this
      ensures signedUrls == if files == [] then old(signedUrls) else PreviewMap(session, files, urls)
      ensures uploading == old(uploading) && files == old(files)
      ensures selectedFiles == old(selectedFiles) && error == old(error)
    {
      if files == [] {
        return;
      }
      var m: map<string, string> := map[];
      for i := 0 to |files|
        invariant m == PreviewMap(session, files[..i], urls)
      {
        assert files[..i + 1][..i] == files[..i];
        var url := SignedUrl(session, files[i], urls);
        if url.Some? && url.value != "" {
          m := m[files[i] := url.value];
        }
      }
      assert files[..|files|] == files;
      signedUrls := m;
    }
  }
}
