/** The remote backup adapter: one JSON document, under a fixed file name, in the
    user's cloud file store. The file store is modelled as a list of files; each
    request to it is answered according to a `Reply` chosen by the environment. */
module DriveBackup {
  import opened Types
  import opened LocalStorage

  const DRIVE_FILE_NAME := "snustrack_backup.json"

  type FileId = nat

  /** The parsed backup document `{logs, settings}`; either key may be missing. */
  datatype Backup = Backup(logs: Option<seq<Log>>, settings: Option<SettingsBlob>)

  /** A file body: a backup document, or text the JSON parser rejects. */
  datatype Content = Unreadable | Json(doc: Backup)

  datatype RemoteFile = RemoteFile(id: FileId, name: string, trashed: bool, content: Content)

  /** How the service answers one request: it carries it out, it answers with an
      error status (an expired token, a server error) and does nothing, or the
      request never gets an answer and the client's fetch throws. */
  datatype Reply = Delivered | Refused | Unreachable

  /** What the client sees of one request. */
  datatype Fetched<T> = Threw | Answered(ok: bool, body: T)

  /** The body of an error response: an object with neither `logs` nor `settings`. */
  const ERROR_BODY := Backup(None, None)

  predicate IsBackup(f: RemoteFile) {
    f.name == DRIVE_FILE_NAME && !f.trashed
  }

  predicate UniqueIds(files: seq<RemoteFile>) {
    forall i, j :: 0 <= i < j < |files| ==> files[i].id != files[j].id
  }

  /** The position of the first non-trashed file with the backup name. */
  function FirstBackup(files: seq<RemoteFile>): (r: Option<nat>)
    ensures r.Some? ==> r.value < |files| && IsBackup(files[r.value])
    ensures r.Some? ==> forall j :: 0 <= j < r.value ==> !IsBackup(files[j])
    ensures r.None? ==> forall j :: 0 <= j < |files| ==> !IsBackup(files[j])
  {
    if files == [] then None
    else if IsBackup(files[0]) then Some(0)
    else match FirstBackup(files[1..])
      case None => None
      case Some(k) => Some(k + 1)
  }

  /** The ids the file search lists, in the store's order. */
  function Matching(files: seq<RemoteFile>): (ids: seq<FileId>)
    ensures ids == [] <==> FirstBackup(files).None?
    ensures ids != [] ==> ids[0] == files[FirstBackup(files).value].id
  {
    if files == [] then []
    else if IsBackup(files[0]) then [files[0].id] + Matching(files[1..])
    else Matching(files[1..])
  }

  /** The body of the file with the given id, if there is one. */
  function Lookup(files: seq<RemoteFile>, id: FileId): (r: Option<Content>)
    ensures r.Some? <==> exists k :: 0 <= k < |files| && files[k].id == id
  {
    if files == [] then None
    else if files[0].id == id then Some(files[0].content)
    else Lookup(files[1..], id)
  }

  /** An in-place update: the file with the given id gets the new body and keeps
      its id, name and trash flag; no file is added or removed. */
  function Patch(files: seq<RemoteFile>, id: FileId, c: Content): (r: seq<RemoteFile>)
    ensures |r| == |files|
    ensures forall k :: 0 <= k < |files| ==>
              r[k].id == files[k].id && r[k].name == files[k].name && r[k].trashed == files[k].trashed
    ensures forall k :: 0 <= k < |files| && files[k].id != id ==> r[k] == files[k]
    ensures forall k :: 0 <= k < |files| && files[k].id == id ==> r[k].content == c
  {
    seq(|files|, k requires 0 <= k < |files| => if files[k].id == id then files[k].(content := c) else files[k])
  }

  function NewBackupFile(id: FileId, c: Content): RemoteFile {
    RemoteFile(id, DRIVE_FILE_NAME, false, c)
  }

  /** Find-or-create: the first backup file is overwritten in place; when there is
      none, one file with the backup name is created under a fresh id. */
  function Upserted(files: seq<RemoteFile>, nextId: FileId, c: Content): (r: seq<RemoteFile>)
    ensures FirstBackup(files).Some? ==> |r| == |files|
    ensures FirstBackup(files).None? ==> |r| == |files| + 1 && IsBackup(r[|files|])
    ensures forall j :: 0 <= j < |files| ==> r[j].id == files[j].id && IsBackup(r[j]) == IsBackup(files[j])
  {
    match FirstBackup(files)
    case Some(k) => Patch(files, files[k].id, c)
    case None => files + [NewBackupFile(nextId, c)]
  }

  /** The body a pull would download: that of the first backup file. */
  function BackupOf(files: seq<RemoteFile>): (r: Option<Content>)
    ensures r.None? <==> forall j :: 0 <= j < |files| ==> !IsBackup(files[j])
    ensures r.Some? ==> exists k :: 0 <= k < |files| && IsBackup(files[k]) && files[k].content == r.value
  {
    match FirstBackup(files)
    case Some(k) => Some(files[k].content)
    case None => None
  }

  /** The document a push sends: the whole local state, under the key `logs`. */
  function Payload(entries: Entries): (c: Content)
    ensures c.Json? && c.doc.logs == Some(GetLogs(entries)) && c.doc.settings.Some?
    ensures MergeSettings(c.doc.settings.value) == GetSettings(entries)
  {
    Json(Backup(Some(GetLogs(entries)), Some(Complete(GetSettings(entries)))))
  }

  /** The local store after adopting a pulled document: each aggregate is replaced
      only when its key is present. */
  function Adopt(entries: Entries, b: Backup): (r: Entries)
    ensures GetLogs(r) == (if b.logs.Some? then b.logs.value else GetLogs(entries))
    ensures GetSettings(r) == (if b.settings.Some? then MergeSettings(b.settings.value) else GetSettings(entries))
    ensures forall key :: key != LOGS_KEY && key != SETTINGS_KEY ==>
              (key in r <==> key in entries) && (key in r ==> r[key] == entries[key])
  {
    var withLogs := if b.logs.Some? then entries[LOGS_KEY := LogList(b.logs.value)] else entries;
    if b.settings.Some? then withLogs[SETTINGS_KEY := SettingsObject(b.settings.value)] else withLogs
  }

  /** The document a pull adopts, or None when the pull returns false. */
  function PullOutcome(files: seq<RemoteFile>, search: Reply, download: Reply): (r: Option<Backup>)
    requires UniqueIds(files)
    ensures r.Some? ==> search == Delivered && FirstBackup(files).Some? && download != Unreachable
    ensures r.Some? && download == Delivered ==> BackupOf(files) == Some(Json(r.value))
    ensures r.Some? && download == Refused ==> r.value == ERROR_BODY
    ensures search == Delivered && FirstBackup(files).Some? && download == Refused ==> r == Some(ERROR_BODY)
    ensures search == Delivered && download == Delivered && BackupOf(files).Some? && BackupOf(files).value.Json? ==>
              r == Some(BackupOf(files).value.doc)
  {
    if search != Delivered then None
    else match FirstBackup(files)
      case None => None
      case Some(k) =>
        LookupUnique(files, k);
        if download == Unreachable then None
        else if download == Refused then Some(ERROR_BODY)
        else match files[k].content
          case Unreadable => None
          case Json(doc) => Some(doc)
  }

  /** With unique ids, looking up a file's id finds that file. */
  lemma {:induction false} LookupUnique(files: seq<RemoteFile>, k: nat)
    requires UniqueIds(files) && k < |files|
    ensures Lookup(files, files[k].id) == Some(files[k].content)
  {
    if k > 0 {
      assert files[0].id != files[k].id;
      assert files[1..][k - 1] == files[k];
      LookupUnique(files[1..], k - 1);
    }
  }

  /** With unique ids, updating a file by id changes that one file and nothing else. */
  lemma PatchUnique(files: seq<RemoteFile>, k: nat, c: Content)
    requires UniqueIds(files) && k < |files|
    ensures Patch(files, files[k].id, c) == files[k := files[k].(content := c)]
  {
  }

  /** After find-or-create, the first backup file holds the pushed body; an update
      keeps the file list's length and every id and, ids being unique, rewrites
      the first backup file alone; a create adds exactly one file. */
  lemma UpsertFindsOrCreates(files: seq<RemoteFile>, nextId: FileId, c: Content)
    ensures BackupOf(Upserted(files, nextId, c)) == Some(c)
    ensures FirstBackup(files).Some? ==>
              |Upserted(files, nextId, c)| == |files| &&
              FirstBackup(Upserted(files, nextId, c)) == FirstBackup(files) &&
              forall j :: 0 <= j < |files| ==> Upserted(files, nextId, c)[j].id == files[j].id
    ensures FirstBackup(files).None? ==>
              Upserted(files, nextId, c) == files + [NewBackupFile(nextId, c)] &&
              FirstBackup(Upserted(files, nextId, c)) == Some(|files|)
    ensures UniqueIds(files) && FirstBackup(files).Some? ==>
              var k := FirstBackup(files).value;
              Upserted(files, nextId, c) == files[k := files[k].(content := c)]
  {
    var r := Upserted(files, nextId, c);
    if FirstBackup(files).Some? {
      var k := FirstBackup(files).value;
      assert IsBackup(r[k]);
      if UniqueIds(files) { PatchUnique(files, k, c); }
    } else {
      assert IsBackup(r[|files|]);
    }
  }

  /** Push then pull against an otherwise untouched file store restores exactly the
      pushed logs and settings, whatever the pulling store held before. */
  lemma PushThenPullRestores(entries: Entries, other: Entries, files: seq<RemoteFile>, nextId: FileId)
    requires UniqueIds(files)
    requires forall k :: 0 <= k < |files| ==> files[k].id < nextId
    ensures UniqueIds(Upserted(files, nextId, Payload(entries)))
    ensures PullOutcome(Upserted(files, nextId, Payload(entries)), Delivered, Delivered) == Some(Payload(entries).doc)
    ensures GetLogs(Adopt(other, Payload(entries).doc)) == GetLogs(entries)
    ensures GetSettings(Adopt(other, Payload(entries).doc)) == GetSettings(entries)
  {
  }

  /** A second push against the file the first one wrote updates it in place: the
      same file, under the same id, now holds the second document; nothing is
      duplicated. */
  lemma SecondPushUpdatesInPlace(files: seq<RemoteFile>, nextId: FileId, c1: Content, c2: Content)
    ensures var once := Upserted(files, nextId, c1);
            var twice := Upserted(once, nextId + 1, c2);
            |twice| == |once| &&
            FirstBackup(twice) == FirstBackup(once) &&
            (forall j :: 0 <= j < |once| ==> twice[j].id == once[j].id) &&
            BackupOf(twice) == Some(c2)
  {
  }

  /** The remote file store, as seen through the endpoints the adapter uses. */
  class Drive {
    var files: seq<RemoteFile>
    var nextId: FileId

    ghost predicate Valid()
      reads this
    {
      UniqueIds(files) && forall k :: 0 <= k < |files| ==> files[k].id < nextId
    }

    constructor(files: seq<RemoteFile>, nextId: FileId)
      requires UniqueIds(files) && forall k :: 0 <= k < |files| ==> files[k].id < nextId
      ensures Valid() && this.files == files && this.nextId == nextId
    {
      this.files := files;
      this.nextId := nextId;
    }

    /** Lists the non-trashed files with the backup name. An error answer carries
        no `files` list, which the client reads as an empty listing. */
    method Search(reply: Reply) returns (r: Fetched<seq<FileId>>)
      ensures reply == Unreachable ==> r == Threw
      ensures reply == Refused ==> r == Answered(false, [])
      ensures reply == Delivered ==> r == Answered(true, Matching(files))
    {
      match reply
      case Unreachable => r := Threw;
      case Refused => r := Answered(false, []);
      case Delivered => r := Answered(true, Matching(files));
    }

    /** Overwrites the body of the file with the given id. */
    method Update(id: FileId, c: Content, reply: Reply) returns (r: Fetched<()>)
      requires Valid()
      modifies this
      ensures Valid() && nextId == old(nextId)
      ensures r == (match reply case Unreachable => Threw case Refused => Answered(false, ()) case Delivered => Answered(true, ()))
      ensures files == if reply == Delivered then Patch(old(files), id, c) else old(files)
    {
      match reply
      case Unreachable => r := Threw;
      case Refused => r := Answered(false, ());
      case Delivered =>
        files := Patch(files, id, c);
        r := Answered(true, ());
    }

    /** Creates a file with the backup name under a fresh id. */
    method Create(c: Content, reply: Reply) returns (r: Fetched<()>)
      requires Valid()
      modifies this
      ensures Valid()
      ensures r == (match reply case Unreachable => Threw case Refused => Answered(false, ()) case Delivered => Answered(true, ()))
      ensures files == if reply == Delivered then old(files) + [NewBackupFile(old(nextId), c)] else old(files)
      ensures nextId == if reply == Delivered then old(nextId) + 1 else old(nextId)
    {
      match reply
      case Unreachable => r := Threw;
      case Refused => r := Answered(false, ());
      case Delivered =>
        files := files + [NewBackupFile(nextId, c)];
        nextId := nextId + 1;
        r := Answered(true, ());
    }

    /** Downloads and parses the body of the file with the given id. Parsing an
        unreadable body throws; an error answer parses to an object with neither key. */
    method Download(id: FileId, reply: Reply) returns (r: Fetched<Backup>)
      ensures reply == Unreachable ==> r == Threw
      ensures reply == Refused ==> r == Answered(false, ERROR_BODY)
      ensures reply == Delivered && Lookup(files, id).None? ==> r == Answered(false, ERROR_BODY)
      ensures reply == Delivered && Lookup(files, id) == Some(Unreadable) ==> r == Threw
      ensures reply == Delivered && Lookup(files, id).Some? && Lookup(files, id).value.Json? ==>
                r == Answered(true, Lookup(files, id).value.doc)
    {
      if reply == Unreachable {
        r := Threw;
      } else if reply == Refused {
        r := Answered(false, ERROR_BODY);
      } else {
        match Lookup(files, id)
        case None => r := Answered(false, ERROR_BODY);
        case Some(Unreadable) => r := Threw;
        case Some(Json(doc)) => r := Answered(true, doc);
      }
    }
  }

  /** Push as the adapter is written: the status of each answer is never looked at,
      so an error answer to the search reads as "no backup yet" and an error
      answer to the write reads as success. Only a throw returns false. */
  method SyncWithDrive(store: LocalStore, drive: Drive, search: Reply, write: Reply) returns (ok: bool)
    requires drive.Valid()
    modifies drive
    ensures drive.Valid()
    ensures ok <==> search != Unreachable && write != Unreachable
    ensures search == Delivered && write == Delivered ==>
              drive.files == Upserted(old(drive.files), old(drive.nextId), Payload(store.entries))
    ensures search == Refused && write == Delivered ==>
              drive.files == old(drive.files) + [NewBackupFile(old(drive.nextId), Payload(store.entries))]
    ensures search == Unreachable || write != Delivered ==> drive.files == old(drive.files)
  {
    var listing := drive.Search(search);
    if listing.Threw? {
      return false;
    }
    var fileId := if |listing.body| > 0 then Some(listing.body[0]) else None;
    var payload := Payload(store.entries);
    var res;
    if fileId.Some? {
      res := drive.Update(fileId.value, payload, write);
    } else {
      res := drive.Create(payload, write);
    }
    ok := !res.Threw?;
  }

  /** A concrete run of the adapter as written: the service refuses both requests
      (say the access token has expired), yet the push reports success while no
      backup file exists. */
  method SyncReportsSuccessWithoutBackup() returns (ok: bool, backup: Option<Content>)
    ensures ok && backup.None?
  {
    var store := new LocalStore(map[]);
    var drive := new Drive([], 0);
    ok := SyncWithDrive(store, drive, Refused, Refused);
    backup := BackupOf(drive.files);
  }

  /** A concrete run of the adapter as written: a backup file exists, the search
      gets a server error, the write goes through, and the search listing then
      names two backup files instead of one. */
  method SyncDuplicatesBackup() returns (before: nat, after: nat)
    ensures before == 1 && after == 2
  {
    var existing := NewBackupFile(0, Json(ERROR_BODY));
    var store := new LocalStore(map[]);
    var drive := new Drive([existing], 1);
    before := |Matching(drive.files)|;
    var _ := SyncWithDrive(store, drive, Refused, Delivered);
    var created := NewBackupFile(1, Payload(store.entries));
    assert drive.files == [existing, created];
    assert drive.files[1..] == [created] && Matching([created]) == [1];
    after := |Matching(drive.files)|;
  }

  /** Push with the answers' status checked: it reports success exactly when the
      listing and the write both succeeded, and then the first backup file holds
      the whole local state; otherwise nothing remote has changed. */
  method SyncWithDriveChecked(store: LocalStore, drive: Drive, search: Reply, write: Reply) returns (ok: bool)
    requires drive.Valid()
    modifies drive
    ensures drive.Valid()
    ensures ok <==> search == Delivered && write == Delivered
    ensures ok ==> drive.files == Upserted(old(drive.files), old(drive.nextId), Payload(store.entries))
    ensures ok ==> BackupOf(drive.files) == Some(Payload(store.entries))
    ensures !ok ==> drive.files == old(drive.files)
  {
    var listing := drive.Search(search);
    if listing.Threw? || !listing.ok {
      return false;
    }
    var fileId := if |listing.body| > 0 then Some(listing.body[0]) else None;
    var payload := Payload(store.entries);
    var res;
    if fileId.Some? {
      res := drive.Update(fileId.value, payload, write);
    } else {
      res := drive.Create(payload, write);
    }
    ok := res.Answered? && res.ok;
    UpsertFindsOrCreates(old(drive.files), old(drive.nextId), payload);
  }

  /** Pull: when the listing names a backup file and its body parses, each key that
      is present replaces the matching local entry; a missing file or any throw
      returns false and leaves the local store exactly as it was. */
  method LoadFromDrive(store: LocalStore, drive: Drive, search: Reply, download: Reply) returns (ok: bool)
    requires drive.Valid()
    modifies store
    ensures ok == PullOutcome(drive.files, search, download).Some?
    ensures !ok ==> store.entries == old(store.entries)
    ensures ok ==> store.entries == Adopt(old(store.entries), PullOutcome(drive.files, search, download).value)
  {
    var listing := drive.Search(search);
    if listing.Threw? || |listing.body| == 0 {
      return false;
    }
    var fileId := listing.body[0];
    LookupUnique(drive.files, FirstBackup(drive.files).value);
    var data := drive.Download(fileId, download);
    if data.Threw? {
      return false;
    }
    if data.body.logs.Some? {
      store.SetLogs(data.body.logs.value);
    }
    if data.body.settings.Some? {
      store.SaveSettings(data.body.settings.value);
    }
    ok := true;
  }
}
