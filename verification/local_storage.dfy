/** The local store: two entries of a string-keyed persistent medium, one holding
    the log list and one holding the settings object. */
module LocalStorage {
  import opened Types

  const LOGS_KEY := "snus_logs_v1"
  const SETTINGS_KEY := "snus_settings_v1"

  const DEFAULT_SETTINGS := UserSettings(10, 8.0, 0.5, "$")

  /** A settings object as the JSON parser returns it: any field may be missing. */
  datatype SettingsBlob = SettingsBlob(
    dailyGoal: Option<int>,
    nicotinePerPouch: Option<real>,
    costPerUnit: Option<real>,
    currencySymbol: Option<string>)

  /** What the medium holds under a key once it is parsed. `Unparseable` stands for
      an empty string as well as for text the JSON parser rejects: both read the
      same way. A key that was never written or was removed is absent from the map. */
  datatype Stored = Unparseable | LogList(logs: seq<Log>) | SettingsObject(blob: SettingsBlob)

  type Entries = map<string, Stored>

  /** The blob that serializing a full settings object produces. */
  function Complete(s: UserSettings): SettingsBlob {
    SettingsBlob(Some(s.dailyGoal), Some(s.nicotinePerPouch), Some(s.costPerUnit), Some(s.currencySymbol))
  }

  const EMPTY_BLOB := SettingsBlob(None, None, None, None)

  /** Reading the log list fails soft: a missing or unreadable entry is the empty list. */
  function GetLogs(entries: Entries): (logs: seq<Log>)
    ensures LOGS_KEY !in entries ==> logs == []
    ensures LOGS_KEY in entries && !entries[LOGS_KEY].LogList? ==> logs == []
    ensures LOGS_KEY in entries && entries[LOGS_KEY].LogList? ==> logs == entries[LOGS_KEY].logs
  {
    if LOGS_KEY in entries && entries[LOGS_KEY].LogList? then entries[LOGS_KEY].logs else []
  }

  /** The stored fields spread over the defaults: every field present in the blob
      wins, every missing one is back-filled from DEFAULT_SETTINGS. */
  function MergeSettings(b: SettingsBlob): (s: UserSettings)
    ensures b.dailyGoal.Some? ==> s.dailyGoal == b.dailyGoal.value
    ensures b.dailyGoal.None? ==> s.dailyGoal == DEFAULT_SETTINGS.dailyGoal
    ensures b.nicotinePerPouch.Some? ==> s.nicotinePerPouch == b.nicotinePerPouch.value
    ensures b.nicotinePerPouch.None? ==> s.nicotinePerPouch == DEFAULT_SETTINGS.nicotinePerPouch
    ensures b.costPerUnit.Some? ==> s.costPerUnit == b.costPerUnit.value
    ensures b.costPerUnit.None? ==> s.costPerUnit == DEFAULT_SETTINGS.costPerUnit
    ensures b.currencySymbol.Some? ==> s.currencySymbol == b.currencySymbol.value
    ensures b.currencySymbol.None? ==> s.currencySymbol == DEFAULT_SETTINGS.currencySymbol
  {
    UserSettings(
      match b.dailyGoal case Some(g) => g case None => DEFAULT_SETTINGS.dailyGoal,
      match b.nicotinePerPouch case Some(n) => n case None => DEFAULT_SETTINGS.nicotinePerPouch,
      match b.costPerUnit case Some(c) => c case None => DEFAULT_SETTINGS.costPerUnit,
      match b.currencySymbol case Some(c) => c case None => DEFAULT_SETTINGS.currencySymbol)
  }

  /** Reading the settings fails soft to the defaults; a stored object is merged
      over them field by field. */
  function GetSettings(entries: Entries): (s: UserSettings)
    ensures SETTINGS_KEY !in entries ==> s == DEFAULT_SETTINGS
    ensures SETTINGS_KEY in entries && !entries[SETTINGS_KEY].SettingsObject? ==> s == DEFAULT_SETTINGS
    ensures SETTINGS_KEY in entries && entries[SETTINGS_KEY].SettingsObject? ==>
              s == MergeSettings(entries[SETTINGS_KEY].blob)
  {
    if SETTINGS_KEY in entries && entries[SETTINGS_KEY].SettingsObject?
    then MergeSettings(entries[SETTINGS_KEY].blob)
    else DEFAULT_SETTINGS
  }

  /** The store after one `saveLog`. */
  function LogAppended(entries: Entries, log: Log): (r: Entries)
    ensures GetLogs(r) == GetLogs(entries) + [log]
    ensures GetSettings(r) == GetSettings(entries)
    ensures forall key :: key != LOGS_KEY ==> (key in r <==> key in entries) && (key in r ==> r[key] == entries[key])
  {
    entries[LOGS_KEY := LogList(GetLogs(entries) + [log])]
  }

  /** The store after a run of `saveLog` calls, one per element of `logs`, in order. */
  function AllAppended(entries: Entries, logs: seq<Log>): Entries
    decreases |logs|
  {
    if logs == [] then entries else AllAppended(LogAppended(entries, logs[0]), logs[1..])
  }

  /** A run of appends reads back in call order, after the entries that were
      already there, with every entry unchanged and nothing deduplicated; the
      settings never move. */
  lemma {:induction false} AppendsInCallOrder(entries: Entries, logs: seq<Log>)
    ensures GetLogs(AllAppended(entries, logs)) == GetLogs(entries) + logs
    ensures GetSettings(AllAppended(entries, logs)) == GetSettings(entries)
    decreases |logs|
  {
    if logs != [] {
      var next := LogAppended(entries, logs[0]);
      AppendsInCallOrder(next, logs[1..]);
      assert GetLogs(next) == GetLogs(entries) + [logs[0]];
      assert [logs[0]] + logs[1..] == logs;
      assert GetLogs(entries) + [logs[0]] + logs[1..] == GetLogs(entries) + logs;
    }
  }

  /** Appending to an empty store gives back exactly the one log. */
  lemma FirstAppendExample()
    ensures GetLogs(LogAppended(map[], Log("a", 1000, "1/1/1970", 1, 8.0))) == [Log("a", 1000, "1/1/1970", 1, 8.0)]
  {
  }

  /** A full settings object written and read back is unchanged. */
  lemma SaveSettingsRoundTrip(entries: Entries, s: UserSettings)
    ensures GetSettings(entries[SETTINGS_KEY := SettingsObject(Complete(s))]) == s
  {
  }

  /** Partial merge: a store holding only `{dailyGoal: 5}` reads as 5 with the
      remaining fields from the defaults. */
  lemma PartialSettingsExample(entries: Entries)
    requires SETTINGS_KEY in entries
    requires entries[SETTINGS_KEY] == SettingsObject(SettingsBlob(Some(5), None, None, None))
    ensures GetSettings(entries) == UserSettings(5, 8.0, 0.5, "$")
  {
  }

  /** The local store: the string-keyed persistent medium of the device. */
  class LocalStore {
    var entries: Entries

    constructor(entries: Entries)
      ensures this.entries == entries
    {
      this.entries := entries;
    }

    /** Read, append, write back; returns the new full list. */
    method SaveLog(log: Log) returns (updated: seq<Log>)
      modifies this
      ensures updated == GetLogs(old(entries)) + [log]
      ensures entries == LogAppended(old(entries), log)
      ensures GetLogs(entries) == updated
      ensures GetSettings(entries) == GetSettings(old(entries))
    {
      var logs := GetLogs(entries);
      updated := logs + [log];
      entries := entries[LOGS_KEY := LogList(updated)];
    }

    /** Unconditional overwrite of the log list. */
    method SetLogs(logs: seq<Log>)
      modifies this
      ensures entries == old(entries)[LOGS_KEY := LogList(logs)]
      ensures GetLogs(entries) == logs
      ensures GetSettings(entries) == GetSettings(old(entries))
    {
      entries := entries[LOGS_KEY := LogList(logs)];
    }

    /** Deletes the log entry (rather than writing an empty list). */
    method ClearLogs()
      modifies this
      ensures entries == old(entries) - {LOGS_KEY}
      ensures LOGS_KEY !in entries && GetLogs(entries) == []
      ensures GetSettings(entries) == GetSettings(old(entries))
    {
      entries := entries - {LOGS_KEY};
    }

    /** Unconditional overwrite of the settings entry with whatever object it is
        given; a partial object is stored partial and back-filled on read. */
    method SaveSettings(blob: SettingsBlob)
      modifies this
      ensures entries == old(entries)[SETTINGS_KEY := SettingsObject(blob)]
      ensures GetSettings(entries) == MergeSettings(blob)
      ensures GetLogs(entries) == GetLogs(old(entries))
    {
      entries := entries[SETTINGS_KEY := SettingsObject(blob)];
    }
  }
}
