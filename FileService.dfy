/** `FileService`: uploading a file into a channel, listing a channel's
    files, and deleting one.

    The disk itself is outside the model: an upload's result says which
    stored name the bytes are written under, and a deletion's result says
    which stored name is removed from disk. The random part of the stored
    name (`UUID.randomUUID`), the row id and the upload time are
    parameters. */
module FileService {
  import opened Common
  import opened Domain

  /** `FileDto`. */
  datatype FileDto = FileDto(id: string, filename: string, fileUrl: string, uploadedById: string,
                             uploadedByUsername: string, channelId: string, uploadedAt: Time)

  const UploadsPrefix := "/uploads/"

  /** `toDto`. */
  function ToDto(db: Db, file: StoredFile): (r: FileDto)
    ensures r.id == file.id && r.filename == file.filename && r.fileUrl == file.fileUrl
    ensures r.uploadedById == file.uploadedBy && r.channelId == file.channelId && r.uploadedAt == file.uploadedAt
    ensures file.uploadedBy in db.users ==> r.uploadedByUsername == db.users[file.uploadedBy].username
  {
    FileDto(file.id, file.filename, file.fileUrl, file.uploadedBy, UsernameOf(db, file.uploadedBy), file.channelId,
            file.uploadedAt)
  }

  /** `originalFilename.substring(originalFilename.lastIndexOf("."))` as
      written: with no '.', `substring(-1)` throws. */
  function ExtensionAsWritten(originalFilename: string): (r: Result<string, Error>)
    ensures r.Err? <==> !Contains(originalFilename, '.')
    ensures r.Ok? ==> EndsWith(originalFilename, r.value) && |r.value| >= 1 && r.value[0] == '.'
  {
    LastIndexOfFound(originalFilename, '.');
    var dot := LastIndexOf(originalFilename, '.');
    if dot < 0 then
      Err(Error(StringIndexOutOfBounds, "begin -1, end " + NatToString(|originalFilename|)
                                        + ", length " + NatToString(|originalFilename|)))
    else Ok(originalFilename[dot..])
  }

  /** A plain name with no '.' cannot be uploaded as written. */
  lemma NameWithoutDotRejected()
    ensures ExtensionAsWritten("README").Err?
    ensures ExtensionAsWritten("README").error.kind == StringIndexOutOfBounds
  {
    assert "README"[5] != '.';
    assert !Contains("README", '.');
  }

  /** The extension kept in the stored name: from the last '.' to the end,
      or nothing when there is no '.'. */
  function Extension(originalFilename: string): (r: string)
    ensures EndsWith(originalFilename, r)
    ensures r == [] <==> !Contains(originalFilename, '.')
    ensures r != [] ==> r[0] == '.' && forall k :: 0 < k < |r| ==> r[k] != '.'
    ensures Contains(originalFilename, '.') ==> ExtensionAsWritten(originalFilename) == Ok(r)
  {
    LastIndexOfFound(originalFilename, '.');
    var dot := LastIndexOf(originalFilename, '.');
    if dot < 0 then [] else originalFilename[dot..]
  }

  /** The name a stored file keeps on disk. */
  function StoredName(randomId: string, originalFilename: string): string
  {
    randomId + Extension(originalFilename)
  }

  /** `"/uploads/" + filename`. */
  function FileUrl(storedName: string): (r: string)
    ensures StartsWith(r, UploadsPrefix) && r[|UploadsPrefix|..] == storedName
  {
    UploadsPrefix + storedName
  }

  /** `fileUrl.substring(fileUrl.lastIndexOf("/") + 1)`. */
  function NameFromUrl(fileUrl: string): (r: string)
    ensures EndsWith(fileUrl, r)
    ensures forall k :: 0 <= k < |r| ==> r[k] != '/'
  {
    fileUrl[LastIndexOf(fileUrl, '/') + 1..]
  }

  /** The URL an upload records gives back its stored name whenever that
      name holds no '/'. */
  lemma UrlRoundTrip(storedName: string)
    requires !Contains(storedName, '/')
    ensures NameFromUrl(FileUrl(storedName)) == storedName
  {
    var url := FileUrl(storedName);
    var slash := |UploadsPrefix| - 1;
    assert url[slash] == '/';
    forall k | slash < k < |url|
      ensures url[k] != '/'
    {
      assert url[k] == storedName[k - |UploadsPrefix|];
    }
    assert LastIndexOf(url, '/') == slash;
  }

  /** `uploadFile`: the channel, the user and membership are required, in
      that order; the row keeps the original name and points at the stored
      one. The value is the stored name the bytes are written under. */
  function UploadFileSpec(db: Db, channelId: string, userId: string, originalFilename: string,
                          randomId: string, id: string, now: Time)
    : (o: Outcome<(FileDto, string)>)
    ensures o.result.Err? ==> o.db == db
    ensures channelId !in db.channels ==> o.result == Err(Error(EntityNotFound, "Channel not found"))
    ensures channelId in db.channels && userId !in db.users ==> o.result == Err(Error(EntityNotFound, "User not found"))
    ensures channelId in db.channels && userId in db.users && !IsMember(db, db.channels[channelId].id, userId) ==>
      o.result == Err(Error(AccessDenied, "User is not a member of this channel"))
    ensures o.result.Ok? <==>
      channelId in db.channels && userId in db.users && IsMember(db, db.channels[channelId].id, userId)
    ensures o.result.Ok? ==>
      var row := StoredFile(id, FileUrl(StoredName(randomId, originalFilename)), originalFilename, userId,
                            db.channels[channelId].id, now);
      o.db == db.(files := db.files[id := row])
      && o.result.value == (ToDto(db, row), StoredName(randomId, originalFilename))
  {
    if channelId !in db.channels then Fail(db, EntityNotFound, "Channel not found")
    else if userId !in db.users then Fail(db, EntityNotFound, "User not found")
    else if !IsMember(db, db.channels[channelId].id, userId) then
      Fail(db, AccessDenied, "User is not a member of this channel")
    else
      var storedName := StoredName(randomId, originalFilename);
      var row := StoredFile(id, FileUrl(storedName), originalFilename, userId, db.channels[channelId].id, now);
      Outcome(Ok((ToDto(db, row), storedName)), db.(files := db.files[id := row]))
  }

  method UploadFile(store: Store, channelId: string, userId: string, originalFilename: string,
                    randomId: string, id: string, now: Time)
    returns (r: Result<(FileDto, string), Error>)
    modifies store
    ensures r == UploadFileSpec(old(store.State()), channelId, userId, originalFilename, randomId, id, now).result
    ensures store.State() == UploadFileSpec(old(store.State()), channelId, userId, originalFilename, randomId, id, now).db
  {
    if channelId !in store.channels {
      return Err(Error(EntityNotFound, "Channel not found"));
    }
    var channel := store.channels[channelId];
    if userId !in store.users {
      return Err(Error(EntityNotFound, "User not found"));
    }
    if (channel.id, userId) !in store.memberships {
      return Err(Error(AccessDenied, "User is not a member of this channel"));
    }
    var storedName := StoredName(randomId, originalFilename);
    var row := StoredFile(id, FileUrl(storedName), originalFilename, userId, channel.id, now);
    store.SaveFile(row);
    r := Ok((ToDto(store.State(), row), storedName));
  }

  /** `getChannelFiles` over the page the repository returns. */
  function GetChannelFiles(db: Db, channelId: string, userId: string, page: seq<StoredFile>)
    : (r: Result<seq<FileDto>, Error>)
    ensures channelId !in db.channels ==> r == Err(Error(EntityNotFound, "Channel not found"))
    ensures channelId in db.channels && !IsMember(db, db.channels[channelId].id, userId) ==>
      r == Err(Error(AccessDenied, "User is not a member of this channel"))
    ensures r.Ok? <==> channelId in db.channels && IsMember(db, db.channels[channelId].id, userId)
    ensures r.Ok? ==> |r.value| == |page| && forall i :: 0 <= i < |page| ==> r.value[i] == ToDto(db, page[i])
  {
    if channelId !in db.channels then Err(Error(EntityNotFound, "Channel not found"))
    else if !IsMember(db, db.channels[channelId].id, userId) then
      Err(Error(AccessDenied, "User is not a member of this channel"))
    else Ok(seq(|page|, i requires 0 <= i < |page| => ToDto(db, page[i])))
  }

  /** Who may delete a file: its uploader, the creator of its channel, or
      an administrator. */
  predicate MayDeleteFile(db: Db, file: StoredFile, userId: string, role: Role)
  {
    file.uploadedBy == userId
    || (file.channelId in db.channels && db.channels[file.channelId].createdBy == userId)
    || role == Admin
  }

  /** `deleteFile`: the value is the stored name removed from disk. */
  function DeleteFileSpec(db: Db, fileId: string, userId: string): (o: Outcome<string>)
    ensures o.result.Err? ==> o.db == db
    ensures fileId !in db.files ==> o.result == Err(Error(EntityNotFound, "File not found"))
    ensures fileId in db.files && userId !in db.users ==> o.result == Err(Error(EntityNotFound, "User not found"))
    ensures fileId in db.files && userId in db.users
            && !MayDeleteFile(db, db.files[fileId], userId, db.users[userId].role)
      ==> o.result == Err(Error(AccessDenied, "Not authorized to delete this file"))
    ensures o.result.Ok? <==>
      fileId in db.files && userId in db.users && MayDeleteFile(db, db.files[fileId], userId, db.users[userId].role)
    ensures o.result.Ok? ==>
      o.db == db.(files := db.files - {db.files[fileId].id})
      && o.result.value == NameFromUrl(db.files[fileId].fileUrl)
  {
    if fileId !in db.files then Fail(db, EntityNotFound, "File not found")
    else if userId !in db.users then Fail(db, EntityNotFound, "User not found")
    else if !MayDeleteFile(db, db.files[fileId], userId, db.users[userId].role) then
      Fail(db, AccessDenied, "Not authorized to delete this file")
    else
      var file := db.files[fileId];
      Outcome(Ok(NameFromUrl(file.fileUrl)), db.(files := db.files - {file.id}))
  }

  method DeleteFile(store: Store, fileId: string, userId: string) returns (r: Result<string, Error>)
    modifies store
    ensures r == DeleteFileSpec(old(store.State()), fileId, userId).result
    ensures store.State() == DeleteFileSpec(old(store.State()), fileId, userId).db
  {
    if fileId !in store.files {
      return Err(Error(EntityNotFound, "File not found"));
    }
    var file := store.files[fileId];
    if userId !in store.users {
      return Err(Error(EntityNotFound, "User not found"));
    }
    if !MayDeleteFile(store.State(), file, userId, store.users[userId].role) {
      return Err(Error(AccessDenied, "Not authorized to delete this file"));
    }
    var name := NameFromUrl(file.fileUrl);
    store.DeleteFile(file.id);
    r := Ok(name);
  }

  /** The uploader can delete what they uploaded, and the deletion removes
      from disk the very name the upload wrote, whenever neither the random
      id nor the extension holds a '/'; the row is gone and the other files
      stay. */
  lemma UploadThenDelete(db: Db, channelId: string, userId: string, originalFilename: string,
                         randomId: string, id: string, now: Time)
    requires UploadFileSpec(db, channelId, userId, originalFilename, randomId, id, now).result.Ok?
    requires !Contains(randomId, '/') && !Contains(Extension(originalFilename), '/')
    ensures var up := UploadFileSpec(db, channelId, userId, originalFilename, randomId, id, now);
      var down := DeleteFileSpec(up.db, id, userId);
      down.result == Ok(up.result.value.1)
      && down.db.files == db.files - {id}
  {
    var name := StoredName(randomId, originalFilename);
    var extension := Extension(originalFilename);
    forall k | 0 <= k < |name|
      ensures name[k] != '/'
    {
      if k < |randomId| {
        assert name[k] == randomId[k];
      } else {
        assert name[k] == extension[k - |randomId|];
      }
    }
    UrlRoundTrip(name);
    var up := UploadFileSpec(db, channelId, userId, originalFilename, randomId, id, now);
    assert up.db.files[id].uploadedBy == userId;
    assert up.db.files - {id} == db.files - {id};
  }
}
