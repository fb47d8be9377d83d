/** The sync orchestrator: the app component's state and its handlers. Each
    handler runs to completion, with every `await` taken as one step; the answers
    of the sign-in provider and of the file store are parameters. */
module SnusApp {
  import opened Types
  import opened LocalStorage
  import opened DriveBackup

  /** A remote call the app made, with the value of the syncing flag while the
      call ran. */
  datatype Activity = Push(syncing: bool) | Pull(syncing: bool)

  const PUSH_STEPS := [Push(true)]
  const PULL_STEPS := [Pull(true)]

  /** The log a tap creates: one pouch, with the per-pouch amount of the settings
      in force at that moment. */
  function NewLog(id: string, timestamp: int, localDateString: string, settings: UserSettings): (l: Log)
    ensures l.count == 1 && l.nicotineAmount == settings.nicotinePerPouch
    ensures l.id == id && l.timestamp == timestamp && l.localDateString == localDateString
  {
    Log(id, timestamp, localDateString, 1, settings.nicotinePerPouch)
  }

  /** The file store after the push a handler issues, with the adapter as written:
      find-or-create when both requests succeed; a create when the search gets an
      error answer (a listing without files) and the write goes through; untouched
      otherwise. */
  function PushedFiles(files: seq<RemoteFile>, nextId: FileId, entries: Entries, search: Reply, write: Reply): (r: seq<RemoteFile>)
    ensures search == Unreachable || write != Delivered ==> r == files
    ensures search == Delivered && write == Delivered ==> BackupOf(r) == Some(Payload(entries))
    ensures search == Refused && write == Delivered ==>
              |r| == |files| + 1 && r[..|files|] == files && IsBackup(r[|files|]) && r[|files|].content == Payload(entries)
  {
    if search == Delivered && write == Delivered then
      UpsertFindsOrCreates(files, nextId, Payload(entries));
      Upserted(files, nextId, Payload(entries))
    else if search == Refused && write == Delivered then files + [NewBackupFile(nextId, Payload(entries))]
    else files
  }

  class App {
    var logs: seq<Log>
    var settings: UserSettings
    var isLoaded: bool
    var user: Option<UserInfo>
    var isSyncing: bool
    ghost var activity: seq<Activity>

    const store: LocalStore
    const drive: DriveBackup.Drive

    /** Between handlers nothing is in flight, the settings on screen are the
        stored ones, and once loaded so are the logs. */
    ghost predicate Valid()
      reads this, store, drive
    {
      && drive.Valid()
      && !isSyncing
      && settings == GetSettings(store.entries)
      && (isLoaded ==> logs == GetLogs(store.entries))
    }

    /** The component's initial state: no logs yet, the stored settings, signed out. */
    constructor(store: LocalStore, drive: DriveBackup.Drive)
      requires drive.Valid()
      ensures Valid()
      ensures this.store == store && this.drive == drive
      ensures logs == [] && settings == GetSettings(store.entries)
      ensures !isLoaded && user.None? && activity == []
    {
      this.store := store;
      this.drive := drive;
      logs := [];
      settings := GetSettings(store.entries);
      isLoaded := false;
      user := None;
      isSyncing := false;
      activity := [];
    }

    /** Start-up: show the stored logs, then, if a session was restored, adopt the
        backup. The provider's refresh always answers with no session, so in the
        app `restored` is None and start-up only loads the stored logs. */
    method Init(restored: Option<UserInfo>, search: Reply, download: Reply)
      requires Valid()
      modifies this, store
      ensures Valid() && isLoaded
      ensures logs == GetLogs(store.entries) && settings == GetSettings(store.entries)
      ensures restored.None? ==>
                user == old(user) && store.entries == old(store.entries) && activity == old(activity)
      ensures restored.Some? ==> user == restored && activity == old(activity) + PULL_STEPS
      ensures restored.Some? ==>
                var pulled := PullOutcome(drive.files, search, download);
                store.entries == if pulled.Some? then Adopt(old(store.entries), pulled.value) else old(store.entries)
    {
      logs := GetLogs(store.entries);
      if restored.Some? {
        AdoptBackup(restored.value, search, download);
      }
      isLoaded := true;
    }

    /** The shared tail of start-up and sign-in: record the user, pull with the
        syncing flag raised, then re-read both entries from the local store. */
    method AdoptBackup(u: UserInfo, search: Reply, download: Reply)
      requires Valid()
      modifies this, store
      ensures Valid()
      ensures user == Some(u) && isLoaded == old(isLoaded) && activity == old(activity) + PULL_STEPS
      ensures logs == GetLogs(store.entries) && settings == GetSettings(store.entries)
      ensures var pulled := PullOutcome(drive.files, search, download);
              store.entries == if pulled.Some? then Adopt(old(store.entries), pulled.value) else old(store.entries)
    {
      user := Some(u);
      isSyncing := true;
      var _ := LoadFromDrive(store, drive, search, download);
      activity := activity + [Pull(isSyncing)];
      logs := GetLogs(store.entries);
      settings := GetSettings(store.entries);
      isSyncing := false;
    }

    /** Push the whole local state with the syncing flag raised, through the
        adapter as written. The result is ignored: a failed push never rolls
        anything back. */
    method SyncData(search: Reply, write: Reply)
      requires Valid()
      modifies this, drive
      ensures Valid()
      ensures logs == old(logs) && settings == old(settings) && user == old(user) && isLoaded == old(isLoaded)
      ensures activity == old(activity) + PUSH_STEPS
      ensures drive.files == PushedFiles(old(drive.files), old(drive.nextId), store.entries, search, write)
    {
      isSyncing := true;
      var _ := SyncWithDrive(store, drive, search, write);
      activity := activity + [Push(isSyncing)];
      isSyncing := false;
    }

    /** Explicit sign-in: nothing changes when the provider gives no user;
        otherwise the backup is pulled and the view re-read from the local store. */
    method HandleSignIn(signedIn: Option<UserInfo>, search: Reply, download: Reply)
      requires Valid() && isLoaded
      modifies this, store
      ensures Valid() && isLoaded
      ensures signedIn.None? ==>
                user == old(user) && logs == old(logs) && settings == old(settings) &&
                activity == old(activity) && store.entries == old(store.entries)
      ensures signedIn.Some? ==> user == signedIn && activity == old(activity) + PULL_STEPS
      ensures signedIn.Some? ==>
                var pulled := PullOutcome(drive.files, search, download);
                store.entries == if pulled.Some? then Adopt(old(store.entries), pulled.value) else old(store.entries)
    {
      if signedIn.Some? {
        AdoptBackup(signedIn.value, search, download);
      }
    }

    /** Sign-out forgets the user and keeps every bit of data. */
    method HandleSignOut()
      requires Valid() && isLoaded
      modifies this
      ensures Valid() && isLoaded
      ensures user.None?
      ensures logs == old(logs) && settings == old(settings) && activity == old(activity)
      ensures store.entries == old(store.entries) && drive.files == old(drive.files)
    {
      user := None;
    }

    /** Log one pouch: append it to the local store and show the new list; then,
        only when signed in, push. */
    method HandleLog(id: string, timestamp: int, localDateString: string, search: Reply, write: Reply)
      requires Valid() && isLoaded
      modifies this, store, drive
      ensures Valid() && isLoaded
      ensures user == old(user) && settings == old(settings)
      ensures logs == old(logs) + [NewLog(id, timestamp, localDateString, old(settings))]
      ensures store.entries == LogAppended(old(store.entries), NewLog(id, timestamp, localDateString, old(settings)))
      ensures activity == old(activity) + (if user.Some? then PUSH_STEPS else [])
      ensures drive.files == if user.Some?
                             then PushedFiles(old(drive.files), old(drive.nextId), store.entries, search, write)
                             else old(drive.files)
    {
      var newLog := NewLog(id, timestamp, localDateString, settings);
      var updated := store.SaveLog(newLog);
      logs := updated;
      if user.Some? {
        SyncData(search, write);
      }
    }

    /** Show and store new settings; then, only when signed in, push. */
    method HandleUpdateSettings(newSettings: UserSettings, search: Reply, write: Reply)
      requires Valid() && isLoaded
      modifies this, store, drive
      ensures Valid() && isLoaded
      ensures user == old(user) && logs == old(logs) && settings == newSettings
      ensures store.entries == old(store.entries)[SETTINGS_KEY := SettingsObject(Complete(newSettings))]
      ensures activity == old(activity) + (if user.Some? then PUSH_STEPS else [])
      ensures drive.files == if user.Some?
                             then PushedFiles(old(drive.files), old(drive.nextId), store.entries, search, write)
                             else old(drive.files)
    {
      settings := newSettings;
      store.SaveSettings(Complete(newSettings));
      if user.Some? {
        SyncData(search, write);
      }
    }

    /** Delete the stored logs and empty the list on screen; settings stay; then,
        only when signed in, push. */
    method HandleClearData(search: Reply, write: Reply)
      requires Valid() && isLoaded
      modifies this, store, drive
      ensures Valid() && isLoaded
      ensures user == old(user) && settings == old(settings) && logs == []
      ensures store.entries == old(store.entries) - {LOGS_KEY}
      ensures activity == old(activity) + (if user.Some? then PUSH_STEPS else [])
      ensures drive.files == if user.Some?
                             then PushedFiles(old(drive.files), old(drive.nextId), store.entries, search, write)
                             else old(drive.files)
    {
      store.ClearLogs();
      logs := [];
      if user.Some? {
        SyncData(search, write);
      }
    }
  }
}
