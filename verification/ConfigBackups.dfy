/** The ring of configuration backups: config.bak, config.bak.1, ... config.bak.4, newest first. */
module ConfigBackups {
  import opened Options

  const MAX_BACKUP_RING := 4

  /** The name of the k-th newest backup. */
  function BackupName(path: string, k: nat): string
    requires k <= MAX_BACKUP_RING
  {
    if k == 0 then path + ".bak" else path + ".bak." + ["01234"[k]]
  }

  lemma NamesDiffer(path: string, j: nat, k: nat)
    requires j <= MAX_BACKUP_RING && k <= MAX_BACKUP_RING
    ensures BackupName(path, j) == BackupName(path, k) <==> j == k
    ensures BackupName(path, k) != path
  {
    var (m, n) := (BackupName(path, j), BackupName(path, k));
    assert k != 0 ==> |n| == |path| + 6 && n[|n| - 1] == "01234"[k];
    assert j != 0 ==> |m| == |path| + 6 && m[|m| - 1] == "01234"[j];
  }

  function Backup(files: map<string, string>, path: string, k: nat): Option<string>
    requires k <= MAX_BACKUP_RING
  {
    var name := BackupName(path, k);
    if name in files then Some(files[name]) else None
  }

  function Backups(files: map<string, string>, path: string): (r: seq<Option<string>>)
    ensures |r| == 5 && forall k :: 0 <= k < 5 ==> r[k] == Backup(files, path, k)
  {
    seq(MAX_BACKUP_RING + 1, k requires 0 <= k <= MAX_BACKUP_RING => Backup(files, path, k))
  }

  predicate IsBackup(path: string, name: string) {
    exists k | 0 <= k <= MAX_BACKUP_RING :: name == BackupName(path, k)
  }

  /** Every other file, the configuration included, is as before. */
  ghost predicate SameOthers(before: map<string, string>, after: map<string, string>, path: string) {
    forall name :: !IsBackup(path, name) ==>
      (name in before <==> name in after) && (name in before ==> before[name] == after[name])
  }

  function Moved(files: map<string, string>, from: string, to: string): map<string, string> {
    if from in files then (files - {from})[to := files[from]] else files
  }

  /** Moving one backup into the free place after it. */
  lemma MoveOne(files: map<string, string>, path: string, i: nat)
    requires i < MAX_BACKUP_RING && Backup(files, path, i + 1).None?
    ensures var after := Moved(files, BackupName(path, i), BackupName(path, i + 1));
            && Backup(after, path, i).None?
            && Backup(after, path, i + 1) == Backup(files, path, i)
            && (forall k :: 0 <= k <= MAX_BACKUP_RING && k != i && k != i + 1 ==>
                  Backup(after, path, k) == Backup(files, path, k))
            && SameOthers(files, after, path)
  {
    forall k | 0 <= k <= MAX_BACKUP_RING
      ensures BackupName(path, i) == BackupName(path, k) <==> i == k
      ensures BackupName(path, i + 1) == BackupName(path, k) <==> i + 1 == k
    {
      NamesDiffer(path, i, k);
      NamesDiffer(path, i + 1, k);
    }
    hide BackupName;
  }

  lemma DropOldest(files: map<string, string>, path: string)
    ensures var after := files - {BackupName(path, MAX_BACKUP_RING)};
            && Backup(after, path, MAX_BACKUP_RING).None?
            && (forall k :: 0 <= k < MAX_BACKUP_RING ==> Backup(after, path, k) == Backup(files, path, k))
            && SameOthers(files, after, path)
  {
    forall k | 0 <= k < MAX_BACKUP_RING ensures BackupName(path, k) != BackupName(path, MAX_BACKUP_RING) {
      NamesDiffer(path, k, MAX_BACKUP_RING);
    }
    hide BackupName;
  }

  lemma SameOthersTwice(a: map<string, string>, b: map<string, string>, c: map<string, string>, path: string)
    requires SameOthers(a, b, path) && SameOthers(b, c, path)
    ensures SameOthers(a, c, path)
  {
    hide IsBackup;
  }

  lemma SameConfig(before: map<string, string>, after: map<string, string>, path: string)
    requires SameOthers(before, after, path)
    ensures (path in before <==> path in after) && (path in before ==> before[path] == after[path])
  {}

  lemma CopyToNewest(files: map<string, string>, path: string)
    requires path in files
    ensures var after := files[BackupName(path, 0) := files[path]];
            && Backups(after, path) == [Some(files[path])] + Backups(files, path)[1..]
            && SameOthers(files, after, path)
            && path in after && after[path] == files[path]
  {}

  /** What a ring that was empty holds after backing up these contents, oldest first. */
  function Newest(history: seq<string>): (r: seq<Option<string>>)
    ensures |r| == 5
  {
    seq(5, k requires 0 <= k < 5 => if k < |history| then Some(history[|history| - 1 - k]) else None)
  }

  lemma NewestAfter(history: seq<string>, content: string)
    ensures Newest(history + [content]) == [Some(content)] + Newest(history)[..4]
  {}

  /** The first of the candidates that exists and parses. */
  function FirstParsing<T>(candidates: seq<Option<string>>, parse: string -> Option<T>): Option<string> {
    if candidates == [] then None
    else if candidates[0].Some? && parse(candidates[0].value).Some? then candidates[0]
    else FirstParsing(candidates[1..], parse)
  }

  class ConfigFiles {
    const path: string
    var files: map<string, string>
    /** The contents backed up so far, oldest first. */
    ghost var history: seq<string>

    ghost predicate Valid()
      reads this
    {
      Backups(files, path) == Newest(history)
    }

    constructor (path: string, files: map<string, string>)
      ensures this.path == path && this.files == files && history == []
      ensures (forall k :: 0 <= k <= MAX_BACKUP_RING ==> Backup(files, path, k).None?) ==> Valid()
    {
      this.path, this.files, history := path, files, [];
    }

    /** fs.unlinkSync, its error caught. */
    method Unlink(name: string)
      modifies this`files
      ensures files == old(files) - {name}
    {
      files := files - {name};
    }

    /** fs.renameSync, its error caught: nothing happens when `from` does not exist; `to` is replaced. */
    method Rename(from: string, to: string)
      modifies this`files
      ensures files == Moved(old(files), from, to)
    {
      if from in files {
        files := (files - {from})[to := files[from]];
      }
    }

    /** Every backup moves one place on, the oldest is lost, and the newest place becomes free; a gap in the ring
        moves on like a backup. */
    method RotateConfigBackups()
      modifies this`files
      ensures Backups(files, path) == [None] + old(Backups(files, path))[..4]
      ensures SameOthers(old(files), files, path)
      ensures path in old(files) <==> path in files
      ensures path in files ==> files[path] == old(files)[path]
    {
      hide BackupName, Backup, Moved, SameOthers;
      DropOldest(files, path);
      Unlink(BackupName(path, MAX_BACKUP_RING));
      for i := MAX_BACKUP_RING downto 1
        invariant forall k :: 0 <= k < i ==> Backup(files, path, k) == old(Backup(files, path, k))
        invariant Backup(files, path, i).None?
        invariant forall k :: i < k <= MAX_BACKUP_RING ==> Backup(files, path, k) == old(Backup(files, path, k - 1))
        invariant SameOthers(old(files), files, path)
      {
        MoveOne(files, path, i);
        SameOthersTwice(old(files), files, Moved(files, BackupName(path, i), BackupName(path, i + 1)), path);
        Rename(BackupName(path, i), BackupName(path, i + 1));
      }
      MoveOne(files, path, 0);
      SameOthersTwice(old(files), files, Moved(files, BackupName(path, 0), BackupName(path, 1)), path);
      Rename(BackupName(path, 0), BackupName(path, 1));
      SameConfig(old(files), files, path);
    }

    /** The configuration becomes the newest backup, whatever the ring holds; with no configuration nothing happens. */
    method BackupConfig()
      modifies this
      ensures Backups(files, path) ==
              if path in old(files) then [Some(old(files)[path])] + old(Backups(files, path))[..4]
              else old(Backups(files, path))
      ensures history == if path in old(files) then old(history) + [old(files)[path]] else old(history)
      ensures SameOthers(old(files), files, path)
      ensures path !in old(files) ==> files == old(files)
      ensures old(Valid()) ==> Valid()
    {
      if path !in files { return; }
      hide BackupName, Backup, SameOthers, Newest;
      RotateConfigBackups();
      ghost var rotated := files;
      CopyToNewest(files, path);
      NewestAfter(history, files[path]);
      files := files[BackupName(path, 0) := files[path]];
      SameOthersTwice(old(files), rotated, files, path);
      history := history + [files[path]];
    }

    /** The configuration is written, edited or lost: not a backup's business. */
    method WriteConfig(content: Option<string>)
      modifies this`files
      ensures files == match content case None => old(files) - {path} case Some(c) => old(files)[path := c]
      ensures Backups(files, path) == old(Backups(files, path))
      ensures old(Valid()) ==> Valid()
    {
      forall k | 0 <= k <= MAX_BACKUP_RING ensures BackupName(path, k) != path {
        NamesDiffer(path, 0, k);
      }
      hide BackupName;
      match content {
        case None => files := files - {path};
        case Some(c) => files := files[path := c];
      }
      assert Backups(files, path) == old(Backups(files, path));
    }

    /** Whatever the ring holds, gaps included, the newest backup that parses is restored as the configuration and
        returned; failing that, nothing changes. */
    method RecoverFromBackup<T>(parse: string -> Option<T>) returns (config: Option<T>)
      modifies this`files
      ensures match FirstParsing(old(Backups(files, path)), parse)
              case None => config.None? && files == old(files)
              case Some(raw) => config == parse(raw) && files == old(files)[path := raw]
      ensures Backups(files, path) == old(Backups(files, path))
      ensures old(Valid()) ==> Valid()
    {
      ghost var ring := Backups(files, path);
      for i := 0 to MAX_BACKUP_RING + 1
        invariant files == old(files)
        invariant FirstParsing(ring, parse) == FirstParsing(ring[i..], parse)
      {
        assert ring[i..][0] == Backup(files, path, i) && ring[i..][1..] == ring[i + 1..];
        var name := BackupName(path, i);
        if name !in files { continue; }
        var raw := files[name];
        var parsed := parse(raw);
        if parsed.Some? {
          WriteConfig(Some(raw));
          return parsed;
        }
      }
      return None;
    }
  }

  /** What recovery restores: the most recent of the last five contents backed up that parses. */
  lemma {:induction false} RecoversNewestThatParses<T>(history: seq<string>, parse: string -> Option<T>, from: nat)
    returns (k: nat)
    requires from <= 5
    ensures match FirstParsing(Newest(history)[from..], parse)
            case None => forall j :: !Recoverable(history, parse, from, j)
            case Some(raw) => && Recoverable(history, parse, from, k) && raw == FromEnd(history, k)
                              && forall j :: from <= j < k ==> !Recoverable(history, parse, from, j)
    decreases 5 - from
  {
    if from == 5 { return 5; }
    k := RecoversNewestThatParses(history, parse, from + 1);
    assert Newest(history)[from..][1..] == Newest(history)[from + 1..];
    assert Recoverable(history, parse, from, from) <==>
           Newest(history)[from].Some? && parse(Newest(history)[from].value).Some?;
    if Recoverable(history, parse, from, from) {
      k := from;
    } else {
      assert forall j :: Recoverable(history, parse, from, j) <==> Recoverable(history, parse, from + 1, j);
    }
  }

  function FromEnd(history: seq<string>, k: nat): string
    requires k < |history|
  {
    history[|history| - 1 - k]
  }

  /** The k-th newest content is among the five kept and parses. */
  predicate Recoverable<T>(history: seq<string>, parse: string -> Option<T>, from: nat, k: nat) {
    from <= k < 5 && k < |history| && parse(FromEnd(history, k)).Some?
  }
}
