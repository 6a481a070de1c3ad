/** The profile editor: it loads the user's profile, uploads an avatar under
    a time-stamped name, and saves the name and avatar. */
module ProfileEditor {
  import opened Common
  import opened Text

  const NoSession: string := "Could not get user session."
  const FetchFailed: string := "Failed to fetch profile data."
  const NotAuthenticated: string := "User not authenticated."
  const AvatarUploaded: string := "Avatar uploaded successfully!"
  const UpdateFailedPrefix: string := "Failed to update profile: "
  const ProfileUpdated: string := "Profile updated successfully!"
  const AvatarFolder: string := "avatars/"

  /** No dot in `s`. */
  predicate NoDot(s: string) {
    forall i :: 0 <= i < |s| ==> s[i] != '.'
  }

  /** `name.split(".").pop()`: the text after the last dot, or the whole
      name when it has none. */
  function FileExtension(name: string): string {
    if name == [] then ""
    else if name[|name| - 1] == '.' then ""
    else FileExtension(name[..|name| - 1]) + [name[|name| - 1]]
  }

  /** The extension is a suffix of the name without a dot, and it is the
      whole name or follows a dot: it is what follows the last dot. */
  lemma {:induction false} FileExtensionSpec(name: string)
    ensures var r := FileExtension(name);
      && |r| <= |name| && r == name[|name| - |r|..]
      && NoDot(r)
      && (|r| < |name| ==> name[|name| - |r| - 1] == '.')
  {
    if name != [] && name[|name| - 1] != '.' {
      var init := name[..|name| - 1];
      FileExtensionSpec(init);
      var r := FileExtension(name);
      assert r == FileExtension(init) + [name[|name| - 1]];
      assert init[|init| - |FileExtension(init)|..] + [name[|name| - 1]] == name[|name| - |r|..];
    }
  }

  /** The extension of `base.ext` is `ext` whenever `ext` has no dot. */
  lemma {:induction false} ExtensionOfDotted(base: string, ext: string)
    requires NoDot(ext)
    ensures FileExtension(base + "." + ext) == ext
  {
    var s := base + "." + ext;
    if ext == [] {
      assert s[|s| - 1] == '.';
    } else {
      var init := ext[..|ext| - 1];
      assert s[..|s| - 1] == base + "." + init;
      assert s[|s| - 1] == ext[|ext| - 1];
      ExtensionOfDotted(base, init);
      assert ext == init + [ext[|ext| - 1]];
    }
  }

  /** `avatars/${Date.now()}.${fileExt}`, `now` being the clock in
      milliseconds. */
  function AvatarPath(now: nat, fileName: string): string {
    AvatarFolder + NatToString(now) + "." + FileExtension(fileName)
  }

  /** The uploaded avatar keeps the chosen file's extension. */
  lemma AvatarPathExtension(now: nat, fileName: string)
    ensures FileExtension(AvatarPath(now, fileName)) == FileExtension(fileName)
  {
    var ext := FileExtension(fileName);
    FileExtensionSpec(fileName);
    ExtensionOfDotted(AvatarFolder + NatToString(now), ext);
  }

  /** The middle of a concatenation. */
  lemma Middle(a: string, m: string, b: string)
    ensures (a + m + b)[|a|..|a| + |m|] == m
  {
    assert a + m + b == a + (m + b);
  }

  /** Uploads of the same file at different times never share a path: the
      time stamp can be read back from the path. */
  lemma AvatarPathDistinct(now: nat, later: nat, fileName: string)
    ensures AvatarPath(now, fileName) == AvatarPath(later, fileName) ==> now == later
  {
    var rest := "." + FileExtension(fileName);
    var s, t := NatToString(now), NatToString(later);
    assert AvatarPath(now, fileName) == AvatarFolder + s + rest;
    assert AvatarPath(later, fileName) == AvatarFolder + t + rest;
    if AvatarPath(now, fileName) == AvatarPath(later, fileName) {
      Middle(AvatarFolder, s, rest);
      Middle(AvatarFolder, t, rest);
      DecimalRoundTrip(now);
      DecimalRoundTrip(later);
    }
  }

  /** The reply to the `profiles` lookup; a `null` column reads as "". */
  datatype ProfileReply = LookupError | NoData | Data(fullName: string, avatarUrl: string, email: string)

  /** The row `handleUpdate` upserts. */
  datatype ProfileUpdate = ProfileUpdate(id: string, fullName: string, avatarUrl: Option<string>, updatedAt: string)

  /** The upsert row: the name as typed, an empty avatar stored as `null`. */
  function UpdateRow(id: string, fullName: string, avatarUrl: string, now: string): (r: ProfileUpdate)
    ensures r.id == id && r.fullName == fullName && r.updatedAt == now
    ensures r.avatarUrl.None? <==> avatarUrl == ""
  {
    ProfileUpdate(id, fullName, OrNull(avatarUrl), now)
  }

  /** Saving then loading the profile (`avatar_url || ""`) gives back the
      avatar the editor held: `null` for an empty one, re-read as "". */
  lemma AvatarRoundTrip(id: string, fullName: string, avatarUrl: string, now: string)
    ensures OrElse(UpdateRow(id, fullName, avatarUrl, now).avatarUrl, "") == avatarUrl
  {
    OrNullRoundTrip(avatarUrl);
  }

  /** The editor's state. */
  class Editor {
    var loading: bool
    var fullName: string
    var avatarUrl: string
    var email: string
    var message: Option<string>
    var isError: bool
    var uploading: bool

    constructor ()
      ensures loading && fullName == "" && avatarUrl == "" && email == ""
      ensures message == None && !isError && !uploading
    {
      loading := true;
      fullName := "";
      avatarUrl := "";
      email := "";
      message := None;
      isError := false;
      uploading := false;
    }

    /** `fetchProfile()`. `session` is `None` when `getUser` fails or has
        no user. A lookup without data leaves the fields as they are. */
    method FetchProfile(session: Option<User>, reply: ProfileReply)
      modifies this
      ensures !loading && uploading == old(uploading)
      ensures session.None? ==>
        isError && message == Some(NoSession)
        && fullName == old(fullName) && avatarUrl == old(avatarUrl) && email == old(email)
      ensures session.Some? && reply.LookupError? ==>
        isError && message == Some(FetchFailed)
        && fullName == old(fullName) && avatarUrl == old(avatarUrl) && email == old(email)
      ensures session.Some? && reply.NoData? ==>
        isError == old(isError) && message == old(message)
        && fullName == old(fullName) && avatarUrl == old(avatarUrl) && email == old(email)
      ensures session.Some? && reply.Data? ==>
        isError == old(isError) && message == old(message)
        && fullName == reply.fullName && avatarUrl == reply.avatarUrl && email == reply.email
    {
      loading := true;
      if session.None? {
        isError := true;
        message := Some(NoSession);
        loading := false;
        return;
      }
      if reply.LookupError? {
        isError := true;
        message := Some(FetchFailed);
      } else if reply.Data? {
        fullName := OrDefault(reply.fullName, "");
        avatarUrl := OrDefault(reply.avatarUrl, "");
        email := OrDefault(reply.email, "");
      }
      loading := false;
    }

    /** `uploadAvatar`: `file` is the chosen file's name, if any; `now` the
        clock; `uploadError` the storage's reply; `publicUrl` the URL it
        gives for the path. Returns the path uploaded to. */
    method UploadAvatar(file: Option<string>, now: nat, session: Option<User>,
                        uploadError: Option<string>, publicUrl: string)
      returns (uploaded: Option<string>)
      modifies this
      ensures !uploading && loading == old(loading) && fullName == old(fullName) && email == old(email)
      ensures file.None? ==> uploaded == None && message == None && !isError && avatarUrl == old(avatarUrl)
      ensures file.Some? && session.None? ==>
        uploaded == None && isError && message == Some(NotAuthenticated) && avatarUrl == old(avatarUrl)
      ensures file.Some? && session.Some? ==> uploaded == Some(AvatarPath(now, file.value))
      ensures file.Some? && session.Some? && uploadError.Some? ==>
        isError && message == uploadError && avatarUrl == old(avatarUrl)
      ensures file.Some? && session.Some? && uploadError.None? ==>
        !isError && message == Some(AvatarUploaded) && avatarUrl == publicUrl
    {
      uploading := true;
      message := None;
      isError := false;
      uploaded := None;
      if file.None? {
        uploading := false;
        return;
      }
      if session.None? {
        isError := true;
        message := Some(NotAuthenticated);
      } else {
        uploaded := Some(AvatarPath(now, file.value));
        if uploadError.Some? {
          isError := true;
          message := uploadError;
        } else {
          avatarUrl := publicUrl;
          message := Some(AvatarUploaded);
        }
      }
      uploading := false;
    }

    /** `handleUpdate`: `now` is the ISO time stamp. Returns the row
        upserted. */
    method HandleUpdate(session: Option<User>, upsertError: Option<string>, now: string)
      returns (upserted: Option<ProfileUpdate>)
      modifies this
      ensures !loading && uploading == old(uploading)
      ensures fullName == old(fullName) && avatarUrl == old(avatarUrl) && email == old(email)
      ensures session.None? ==> upserted == None && isError && message == Some(NotAuthenticated)
      ensures session.Some? ==> upserted == Some(UpdateRow(session.value.id, fullName, avatarUrl, now))
      ensures session.Some? && upsertError.Some? ==>
        isError && message == Some(UpdateFailedPrefix + upsertError.value)
      ensures session.Some? && upsertError.None? ==> !isError && message == Some(ProfileUpdated)
    {
      loading := true;
      message := None;
      isError := false;
      upserted := None;
      if session.None? {
        isError := true;
        message := Some(NotAuthenticated);
        loading := false;
        return;
      }
      upserted := Some(UpdateRow(session.value.id, fullName, avatarUrl, now));
      if upsertError.Some? {
        isError := true;
        message := Some(UpdateFailedPrefix + upsertError.value);
      } else {
        isError := false;
        message := Some(ProfileUpdated);
      }
      loading := false;
    }
  }
}
