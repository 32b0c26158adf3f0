/** The JSON user store (bot/services/database.py). The file is a state of the
    model rather than bytes on disk: it is missing, cannot be opened, does not
    decode, or holds a map from `str(user_id)` to a record. Every operation
    reads the whole map and every write replaces the whole file. */
module Storage {
  import opened Wrappers
  import opened Text
  import opened Users

  type Snapshot = map<string, UserData>

  datatype FileState = Absent | Unreadable | Undecodable | Stored(data: Snapshot)

  /** The failure `reset_with_backup` lets escape. */
  datatype ResetError = CopyFailed | RemoveFailed

  /** `str(user_id)`, the key of a user's record. */
  function Key(userId: int): string {
    IntToString(userId)
  }

  lemma KeyInjective()
    ensures forall a: int, b: int :: Key(a) == Key(b) ==> a == b
  {
    forall a: int, b: int | Key(a) == Key(b) ensures a == b {
      IntToStringInjective(a, b);
    }
  }

  /** `load_all_data`: a missing, unreadable or undecodable file reads as no users. */
  function Loaded(f: FileState): (m: Snapshot)
    ensures f.Stored? ==> m == f.data
    ensures !f.Stored? ==> m == map[]
  {
    if f.Stored? then f.data else map[]
  }

  /** `all_data.get(str(user_id))`. */
  function Get(m: Snapshot, userId: int): (d: Option<UserData>)
    ensures d.Some? <==> Key(userId) in m
    ensures d.Some? ==> d.value == m[Key(userId)]
  {
    if Key(userId) in m then Some(m[Key(userId)]) else None
  }

  /** `all_data[str(user_id)] = d`: that user's record becomes `d`, every
      other user's is kept. */
  function Put(m: Snapshot, userId: int, d: UserData): (m': Snapshot)
    ensures Get(m', userId) == Some(d)
    ensures forall other :: other != userId ==> Get(m', other) == Get(m, other)
    ensures m'.Keys == m.Keys + {Key(userId)}
  {
    KeyInjective();
    m[Key(userId) := d]
  }

  /** `del all_data[str(user_id)]`: that user's record is gone, every other
      user's is kept. */
  function Remove(m: Snapshot, userId: int): (m': Snapshot)
    ensures Get(m', userId).None?
    ensures forall other :: other != userId ==> Get(m', other) == Get(m, other)
    ensures m'.Keys == m.Keys - {Key(userId)}
  {
    KeyInjective();
    m - {Key(userId)}
  }

  /** The file after `save_all_data(m)`: replaced by `m`, or left as it was
      when opening it for writing fails (the error is only logged). */
  function AfterSave(f: FileState, saveFails: bool, m: Snapshot): (f': FileState)
    ensures saveFails ==> f' == f
    ensures !saveFails ==> Loaded(f') == m
  {
    if saveFails then f else Stored(m)
  }

  /** Writing a user twice keeps only the second record. */
  lemma PutTwice(m: Snapshot, userId: int, d1: UserData, d2: UserData)
    ensures Put(Put(m, userId, d1), userId, d2) == Put(m, userId, d2)
  {
  }

  /** The backup's file name: a bare name, so it lands in the working
      directory and not beside the store's own file. */
  function BackupName(timestamp: string): (name: string)
    ensures |name| == |timestamp| + 23
    ensures name[..18] == "users_data_backup_" && name[|name| - 5..] == ".json"
    ensures '/' !in timestamp ==> '/' !in name
  {
    "users_data_backup_" + timestamp + ".json"
  }

  class Database {
    /** The store's file path; the file itself is `file`. */
    const filename: string
    var file: FileState
    /** Files in the working directory, by name. */
    var backups: map<string, FileState>
    /** Opening the store's file for writing raises. */
    const saveFails: bool
    /** `shutil.copy` into the working directory raises. */
    const copyFails: bool
    /** `os.remove` of the store's file raises. */
    const removeFails: bool

    constructor (filename: string, file: FileState, backups: map<string, FileState>,
                 saveFails: bool, copyFails: bool, removeFails: bool)
      ensures this.filename == filename && this.file == file && this.backups == backups
      ensures this.saveFails == saveFails && this.copyFails == copyFails && this.removeFails == removeFails
    {
      this.filename := filename;
      this.file := file;
      this.backups := backups;
      this.saveFails := saveFails;
      this.copyFails := copyFails;
      this.removeFails := removeFails;
    }

    /** `load_all_data`: never raises. */
    method LoadAllData() returns (m: Snapshot)
      ensures m == Loaded(file)
    {
      match file
      case Stored(data) => m := data;
      case _ => m := map[];
    }

    /** `save_all_data`: never raises. */
    method SaveAllData(m: Snapshot)
      modifies this`file
      ensures file == AfterSave(old(file), saveFails, m)
    {
      if !saveFails {
        file := Stored(m);
      }
    }

    /** `get_user_data`. */
    method GetUserData(userId: int) returns (d: Option<UserData>)
      ensures d == Get(Loaded(file), userId)
    {
      var all := LoadAllData();
      var key := Key(userId);
      d := if key in all then Some(all[key]) else None;
    }

    /** `save_user_data`: load, set one key, save. */
    method SaveUserData(userId: int, d: UserData)
      modifies this`file
      ensures file == AfterSave(old(file), saveFails, Put(Loaded(old(file)), userId, d))
    {
      var all := LoadAllData();
      all := all[Key(userId) := d];
      SaveAllData(all);
    }

    /** `delete_user`: true exactly when the key was there; nothing is written otherwise. */
    method DeleteUser(userId: int) returns (deleted: bool)
      modifies this`file
      ensures deleted <==> Get(Loaded(old(file)), userId).Some?
      ensures deleted ==> file == AfterSave(old(file), saveFails, Remove(Loaded(old(file)), userId))
      ensures !deleted ==> file == old(file)
    {
      var all := LoadAllData();
      var key := Key(userId);
      if key in all {
        all := all - {key};
        SaveAllData(all);
        deleted := true;
      } else {
        deleted := false;
      }
    }

    /** `reset_with_backup`: with no file there is nothing to do and the name is
        empty; otherwise the file is copied to a timestamped name in the working
        directory and then removed. A failing copy or removal raises. */
    method ResetWithBackup(timestamp: string) returns (r: Result<string, ResetError>)
      modifies this`file, this`backups
      ensures old(file).Absent? ==> r == Ok("") && file == old(file) && backups == old(backups)
      ensures !old(file).Absent? && (copyFails || old(file).Unreadable?) ==>
        r == Err(CopyFailed) && file == old(file) && backups == old(backups)
      ensures !old(file).Absent? && !copyFails && !old(file).Unreadable? ==>
        backups == old(backups)[BackupName(timestamp) := old(file)]
      ensures !old(file).Absent? && !copyFails && !old(file).Unreadable? && removeFails ==>
        r == Err(RemoveFailed) && file == old(file)
      ensures !old(file).Absent? && !copyFails && !old(file).Unreadable? && !removeFails ==>
        r == Ok(BackupName(timestamp)) && file == Absent && Loaded(file) == map[]
    {
      var name := "";
      if file != Absent {
        name := BackupName(timestamp);
        if copyFails || file.Unreadable? {
          return Err(CopyFailed);
        }
        backups := backups[name := file];
        if removeFails {
          return Err(RemoveFailed);
        }
        file := Absent;
      }
      r := Ok(name);
    }
  }

  /** A record saved and then read back is the record saved, provided the
      write went through. */
  lemma SavedThenRead(f: FileState, userId: int, d: UserData)
    ensures Get(Loaded(AfterSave(f, false, Put(Loaded(f), userId, d))), userId) == Some(d)
  {
  }

  /** Resetting a readable store whose copy and removal go through: afterwards
      the store loads as no users, and the backup loads as the map that was
      there before. */
  method ResetKeepsSnapshotInBackup(db: Database, timestamp: string)
    returns (r: Result<string, ResetError>, now: Snapshot, restored: Snapshot)
    requires !db.copyFails && !db.removeFails
    modifies db`file, db`backups
    ensures !old(db.file).Absent? && !old(db.file).Unreadable? ==>
      r == Ok(BackupName(timestamp)) && restored == Loaded(old(db.file))
    ensures now == map[]
  {
    r := db.ResetWithBackup(timestamp);
    now := db.LoadAllData();
    restored := if r.Ok? && r.value in db.backups then Loaded(db.backups[r.value]) else map[];
  }
}
