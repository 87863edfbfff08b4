/**
 * The configuration strings read when the backend connects to its database
 * (Backend/database/db.go): the data-source name, the log level and the
 * auto-migrate switch. The environment is a parameter: each function takes
 * the variable's value, `""` when it is unset.
 */
module DbConfig {
  import opened JsText

  /** The persistent database file. */
  const PersistentDsn := "books.db"
  /** A shared in-memory database. */
  const MemoryDsn := "file::memory:?cache=shared"
  /** A temporary database file. */
  const TempDsn := "file:taskgo-temp.db?_fk=1"

  const PersistentAliases: set<string> := {"", "file", "prod"}
  const MemoryAliases: set<string> := {":memory:", "mem", "memory"}
  const TempAliases: set<string> := {"tmp", "tmpfile"}

  /** The `switch` key: lower-cased, then trimmed of Go whitespace. */
  function DsnKey(val: string): string {
    TrimSpace(ToLower(val))
  }

  /** `normalisedDSN`: an alias names one of the three databases; any other value is a path used as given. */
  function NormalisedDSN(val: string): (dsn: string)
    ensures dsn == PersistentDsn || dsn == MemoryDsn || dsn == TempDsn || dsn == val
    ensures DsnKey(val) in PersistentAliases ==> dsn == PersistentDsn
    ensures DsnKey(val) in MemoryAliases ==> dsn == MemoryDsn
    ensures DsnKey(val) in TempAliases ==> dsn == TempDsn
    ensures DsnKey(val) !in PersistentAliases + MemoryAliases + TempAliases ==> dsn == val
  {
    var key := DsnKey(val);
    if key in PersistentAliases then PersistentDsn
    else if key in MemoryAliases then MemoryDsn
    else if key in TempAliases then TempDsn
    else val
  }

  /** Lower-casing keeps Go whitespace where it is. */
  lemma ToLowerKeepsSpace(s: string, k: int)
    requires 0 <= k < |s| && IsGoSpace(s[k])
    ensures IsGoSpace(ToLower(s)[k])
  {
  }

  /** An unset, empty or whitespace-only value selects the persistent file. */
  lemma BlankDsnIsPersistent(val: string)
    requires forall k :: 0 <= k < |val| ==> IsGoSpace(val[k])
    ensures NormalisedDSN(val) == PersistentDsn
  {
    var lowered := ToLower(val);
    forall k | 0 <= k < |lowered| ensures IsSpace(lowered[k], GoSpace) {
      ToLowerKeepsSpace(val, k);
    }
    TrimByBlank(lowered, GoSpace);
  }

  /** Values with the same key get the same database: case and surrounding blanks of an alias do not matter. */
  lemma AliasesIgnoreCaseAndBlanks(a: string, b: string)
    requires DsnKey(a) == DsnKey(b)
    requires DsnKey(a) in PersistentAliases + MemoryAliases + TempAliases
    ensures NormalisedDSN(a) == NormalisedDSN(b)
    ensures NormalisedDSN(a) in {PersistentDsn, MemoryDsn, TempDsn}
  {
  }

  /**
   * A value of eight or more characters, with no blank at either end and not
   * starting with `:`, is no alias: its key is as long as the value itself.
   */
  lemma UnpaddedLongValueVerbatim(s: string)
    requires |s| >= 8 && !IsGoSpace(LowerChar(s[0])) && !IsGoSpace(LowerChar(s[|s| - 1]))
    requires LowerChar(s[0]) != ':'
    ensures NormalisedDSN(s) == s
  {
    TrimUntouched(ToLower(s), GoSpace);
    var key := DsnKey(s);
    assert |key| == |s| && key[0] == LowerChar(s[0]);
    assert key !in PersistentAliases && key !in TempAliases;
    assert key !in MemoryAliases by {
      assert ":memory:"[0] == ':';
    }
  }

  /** A value that is no alias is returned exactly as given, neither trimmed nor lower-cased. */
  lemma CustomDsnVerbatim()
    ensures NormalisedDSN(" Data.DB ") == " Data.DB "
  {
    var val := " Data.DB ";
    var lowered := ToLower(val);
    assert lowered[0] == ' ' && lowered[1] == 'd' && lowered[8] == ' ';
    var start := TrimStart(lowered, GoSpace);
    assert start == TrimStart(lowered[1..], GoSpace);
    assert start == lowered[1..];
    var key := TrimEnd(start, GoSpace);
    assert key == TrimEnd(start[..7], GoSpace);
    assert key == start[..7];
    assert |key| == 7 && key[0] == 'd';
  }

  /** None of the three databases' names is itself an alias. */
  lemma TargetIsNoAlias(dsn: string)
    requires dsn == PersistentDsn || dsn == MemoryDsn || dsn == TempDsn
    ensures NormalisedDSN(dsn) == dsn
  {
    if dsn == PersistentDsn {
      assert |dsn| == 8 && dsn[0] == 'b' && dsn[7] == 'b';
    } else if dsn == MemoryDsn {
      assert |dsn| == 26 && dsn[0] == 'f' && dsn[25] == 'd';
    } else {
      assert |dsn| == 25 && dsn[0] == 'f' && dsn[24] == '1';
    }
    UnpaddedLongValueVerbatim(dsn);
  }

  /** Normalising a normalised name changes nothing. */
  lemma NormalisedDSNIdempotent(val: string)
    ensures NormalisedDSN(NormalisedDSN(val)) == NormalisedDSN(val)
  {
    var dsn := NormalisedDSN(val);
    if dsn != val {
      TargetIsNoAlias(dsn);
    }
  }

  /** gorm's logger levels. */
  datatype LogLevel = Silent | Error | Warn | Info

  /** `parseLogLevel`: lower-cased but not trimmed; anything unrecognised, `"warn"` and `""` included, is `Warn`. */
  function ParseLogLevel(lvl: string): (level: LogLevel)
    ensures level == Warn <==> ToLower(lvl) !in {"silent", "error", "info"}
  {
    var key := ToLower(lvl);
    if key == "silent" then Silent
    else if key == "error" then Error
    else if key == "info" then Info
    else Warn
  }

  /** Each level's name, in lower case. */
  function LevelName(level: LogLevel): string {
    match level
    case Silent => "silent"
    case Error => "error"
    case Warn => "warn"
    case Info => "info"
  }

  /** Every level is selected by its own name, in any case. */
  lemma ParseLogLevelOfName(level: LogLevel, spelled: string)
    requires ToLower(spelled) == LevelName(level)
    ensures ParseLogLevel(spelled) == level
  {
  }

  /** A padded level name is not recognised. */
  lemma PaddedLevelIsWarn()
    ensures ParseLogLevel(" info") == Warn
    ensures ParseLogLevel("") == Warn
  {
    assert ToLower(" info")[0] == ' ';
  }

  /** `strings.ToLower(os.Getenv("DB_AUTO_MIGRATE")) != "false"`. */
  function AutoMigrate(env: string): (on: bool)
    ensures !on <==> |env| == 5 && forall i :: 0 <= i < 5 ==> LowerChar(env[i]) == "false"[i]
  {
    ToLower(env) != "false"
  }

  /** Auto-migration is on when the variable is unset, and off for "false" in any case but not for a padded one. */
  lemma AutoMigrateCases()
    ensures AutoMigrate("")
    ensures !AutoMigrate("false") && !AutoMigrate("FALSE")
    ensures AutoMigrate(" false") && AutoMigrate("0")
  {
    assert ToLower("false") == "false" by {
      var l := ToLower("false");
      assert l[0] == 'f' && l[1] == 'a' && l[2] == 'l' && l[3] == 's' && l[4] == 'e';
    }
    assert ToLower("FALSE") == "false" by {
      var l := ToLower("FALSE");
      assert l[0] == 'f' && l[1] == 'a' && l[2] == 'l' && l[3] == 's' && l[4] == 'e';
    }
  }
}
