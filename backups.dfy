/**
 * Backups of the entry list (option `lv_backups`), a premium feature:
 * creating a snapshot of the current entries, and restoring entries from an
 * uploaded backup file.
 */
module Backups {
  import opened Php
  import opened Entries

  /** One snapshot: the entries at that moment and its creation time as text. */
  datatype Backup = Backup(entries: seq<Entry>, createdAt: string)

  /**
   * An uploaded backup file after JSON decoding: either not an array, or an
   * array whose "entries" member is present (Some) or missing or null (None).
   */
  datatype BackupFile = NotAnArray | Decoded(entries: Option<seq<Entry>>)

  datatype RestoreOutcome = NotPremium | NoFile | InvalidFormat | Restored

  /**
   * The stored backup list. `None` stands for an option that is missing or
   * holds something other than an array; both read as an empty list.
   */
  class BackupList {
    var backups: Option<seq<Backup>>

    constructor ()
      ensures backups == None
    {
      backups := None;
    }

    /**
     * Creating a backup: premium only, and only when there is at least one
     * entry. The snapshot is appended to the (possibly reset) list.
     */
    method CreateBackup(premium: bool, entries: seq<Entry>, createdAt: string) returns (created: bool)
      modifies this
      ensures created <==> premium && entries != []
      ensures backups == if created then Some(old(backups).GetOr([]) + [Backup(entries, createdAt)]) else old(backups)
    {
      created := premium && entries != [];
      if created {
        backups := Some(backups.GetOr([]) + [Backup(entries, createdAt)]);
      }
    }
  }

  /**
   * Restoring from an upload (`None` when no file name was sent). A decoded
   * array with an "entries" member replaces the entry list wholesale: neither
   * the free-tier cap nor the current form schema is consulted.
   */
  method Restore(premium: bool, upload: Option<BackupFile>, store: EntryStore) returns (outcome: RestoreOutcome)
    modifies store
    ensures outcome == Restored <==> premium && upload.Some? && upload.value.Decoded? && upload.value.entries.Some?
    ensures !premium ==> outcome == NotPremium
    ensures premium && upload.None? ==> outcome == NoFile
    ensures premium && upload.Some? && outcome != Restored ==> outcome == InvalidFormat
    ensures store.entries == if outcome == Restored then upload.value.entries.value else old(store.entries)
  {
    if !premium {
      return NotPremium;
    }
    match upload
    case None =>
      outcome := NoFile;
    case Some(file) =>
      if file.Decoded? && file.entries.Some? {
        store.entries := file.entries.value;
        outcome := Restored;
      } else {
        outcome := InvalidFormat;
      }
  }

  /**
   * Backing up and later restoring the file holding that backup brings back
   * exactly the entries that were saved, whatever happened to the list in
   * between.
   */
  method BackupRoundTrip(list: BackupList, store: EntryStore, createdAt: string, later: seq<Entry>)
    returns (created: bool, outcome: RestoreOutcome)
    requires store.entries != []
    modifies list, store
    ensures created && outcome == Restored
    ensures store.entries == old(store.entries)
    ensures list.backups.Some? && |list.backups.value| > 0
  {
    var saved := store.entries;
    created := list.CreateBackup(true, saved, createdAt);
    store.entries := later;
    var b := list.backups.value[|list.backups.value| - 1];
    outcome := Restore(true, Some(Decoded(Some(b.entries))), store);
  }

  /** A restore can leave more entries than the free tier may add itself. */
  method RestoreBypassesCap(store: EntryStore, many: seq<Entry>) returns (outcome: RestoreOutcome)
    requires |many| > FreeEntryLimit
    modifies store
    ensures outcome == Restored && |store.entries| > FreeEntryLimit
  {
    outcome := Restore(true, Some(Decoded(Some(many))), store);
  }
}
