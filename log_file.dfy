/** `manage_log_file` of `src/manage_log_file.py`: the log retention decision. The file
    system is a map from path to modification time and the clock reading `datetime.now()`
    is a parameter; times are integers in microseconds, the resolution of `datetime`. */
module LogFile {
  import opened Text

  const MicrosPerDay := 86_400_000_000

  /** `(now - datetime.fromtimestamp(mtime)).days`: whole days, rounded down (a file
      modified in the future has a negative age). */
  function AgeDays(now: int, mtime: int): int
  {
    (now - mtime) / MicrosPerDay
  }

  /** Whether the call removes the log file. */
  predicate Removes(files: map<string, int>, logFile: string, removeAfter: int, now: int)
  {
    && logFile in files
    && (removeAfter == 1 || (removeAfter > 1 && AgeDays(now, files[logFile]) >= removeAfter))
  }

  /** The lines the call prints. */
  function Printed(files: map<string, int>, logFile: string, removeAfter: int, now: int): seq<string>
  {
    if removeAfter == 1 then ["Log file " + logFile + " has been removed."]
    else if Removes(files, logFile, removeAfter, now) then
      ["Log file " + logFile + " has been removed as it was older than " + IntToString(removeAfter) + " days."]
    else []
  }

  class Disk {
    /** Each existing path with its modification time. */
    var files: map<string, int>

    constructor (files: map<string, int>)
      ensures this.files == files
    {
      this.files := files;
    }

    /** `os.path.exists(path)` */
    function Exists(path: string): bool
      reads this
    {
      path in files
    }

    /** `os.remove(path)` on an existing path. */
    method Remove(path: string)
      requires path in files
      modifies this
      ensures files == old(files) - {path}
    {
      files := files - {path};
    }
  }

  /** `manage_log_file(LOG_FILE, REMOVE_LOGS_AFTER)` */
  method ManageLogFile(disk: Disk, logFile: string, removeAfter: int, now: int) returns (printed: seq<string>)
    modifies disk
    ensures disk.files == if Removes(old(disk.files), logFile, removeAfter, now) then old(disk.files) - {logFile}
                          else old(disk.files)
    ensures printed == Printed(old(disk.files), logFile, removeAfter, now)
  {
    printed := [];
    if removeAfter == 1 {
      if disk.Exists(logFile) {
        disk.Remove(logFile);
      }
      printed := ["Log file " + logFile + " has been removed."];
    } else if removeAfter > 1 {
      if disk.Exists(logFile) {
        var age := AgeDays(now, disk.files[logFile]);
        if age >= removeAfter {
          disk.Remove(logFile);
          printed := ["Log file " + logFile + " has been removed as it was older than " + IntToString(removeAfter) + " days."];
        }
      }
    }
  }

  /** The file system after the call. */
  function After(files: map<string, int>, logFile: string, removeAfter: int, now: int): map<string, int>
  {
    if Removes(files, logFile, removeAfter, now) then files - {logFile} else files
  }

  /** With a retention of one day the log file is gone afterwards, and the removal line is
      printed whether or not it existed; a retention of zero or less removes and prints
      nothing. */
  lemma RetentionOfOneAndBelow(files: map<string, int>, logFile: string, removeAfter: int, now: int)
    ensures removeAfter == 1 ==>
      logFile !in After(files, logFile, removeAfter, now) && |Printed(files, logFile, removeAfter, now)| == 1
    ensures removeAfter <= 0 ==>
      After(files, logFile, removeAfter, now) == files && Printed(files, logFile, removeAfter, now) == []
  {
  }

  /** With a longer retention the file goes exactly when it exists and is at least that
      many whole days old, and a line is printed exactly then. */
  lemma LongerRetention(files: map<string, int>, logFile: string, removeAfter: int, now: int)
    requires removeAfter > 1
    ensures logFile !in After(files, logFile, removeAfter, now) <==>
      logFile !in files || AgeDays(now, files[logFile]) >= removeAfter
    ensures Printed(files, logFile, removeAfter, now) != [] <==>
      logFile in files && AgeDays(now, files[logFile]) >= removeAfter
  {
  }

  /** No other path is touched, and a second call right after the first finds nothing
      more to remove. */
  lemma OnlyTheLogFile(files: map<string, int>, logFile: string, removeAfter: int, now: int)
    ensures var after := After(files, logFile, removeAfter, now);
      && (forall p :: p != logFile ==> (p in after <==> p in files))
      && (forall p :: p != logFile && p in files ==> after[p] == files[p])
      && After(after, logFile, removeAfter, now) == after
  {
  }

  /** Age is counted in whole days rounded down: a file one microsecond short of two days
      old is one day old and survives a retention of two. */
  lemma AgeRoundsDown(now: int)
    ensures AgeDays(now, now - 2 * MicrosPerDay + 1) == 1
    ensures AgeDays(now, now - 2 * MicrosPerDay) == 2
    ensures !Removes(map["app.log" := now - 2 * MicrosPerDay + 1], "app.log", 2, now)
    ensures Removes(map["app.log" := now - 2 * MicrosPerDay], "app.log", 2, now)
  {
  }
}
