/** The string handling of backend/scripts/backup.py: how `create_db_backup`
    takes the database URL apart and builds the `pg_dump` command, and what
    `upload_to_s3` does with the file. Running `pg_dump`, the S3 client and
    the file removal are not executed: the model states the command and
    the sequence of actions, with the upload's outcome as an input. */
module Backup {
  import opened Wrappers
  import opened Errors
  import opened PyText
  import AppConfig

  const Scheme := "postgresql://"
  const DefaultPort := "5432"

  /** The pieces `create_db_backup` reads out of the URL. */
  datatype DbParts = DbParts(user: string, password: string, host: string, port: string, db: string)

  /** Lines 19-22, 26 and 31-34: remove every "postgresql://", split on
      "@", the first piece on ":" and the second on "/" and its first piece
      on ":". Indexing a missing piece raises IndexError. */
  function ParseDatabaseUrl(url: string): (r: Result<DbParts, Exc>)
    ensures r.Err? ==> r.error == IndexError
    ensures '@' !in RemoveAll(url, Scheme) ==> r == Err(IndexError)
    ensures r.Ok? ==> ':' !in r.value.user && ':' !in r.value.password && '@' !in r.value.user
    ensures r.Ok? ==> ':' !in r.value.host && '/' !in r.value.host && '@' !in r.value.host
    ensures r.Ok? ==> '/' !in r.value.port && '/' !in r.value.db && '@' !in r.value.db
  {
    var stripped := RemoveAll(url, Scheme);
    var dbParts := Split(stripped, '@');
    SplitHasTwoPieces(stripped, '@');
    SplitPiecesFree(stripped, '@');
    var auth := Split(dbParts[0], ':');
    SplitPiecesFree(dbParts[0], ':');
    if |dbParts| < 2 then Err(IndexError)
    else
      var hostPortDb := Split(dbParts[1], '/');
      SplitPiecesFree(dbParts[1], '/');
      var hostPort := Split(hostPortDb[0], ':');
      SplitPiecesFree(hostPortDb[0], ':');
      if |auth| < 2 || |hostPortDb| < 2 then Err(IndexError)
      else
        assert forall c :: c in auth[0] ==> c in dbParts[0] by {
          SplitPiecesSub(dbParts[0], ':');
        }
        assert forall c :: c in auth[1] ==> c in dbParts[0] by {
          SplitPiecesSub(dbParts[0], ':');
        }
        assert forall c :: c in hostPortDb[0] ==> c in dbParts[1] by {
          SplitPiecesSub(dbParts[1], '/');
        }
        assert forall c :: c in hostPortDb[1] ==> c in dbParts[1] by {
          SplitPiecesSub(dbParts[1], '/');
        }
        assert forall c :: c in hostPort[0] ==> c in hostPortDb[0] by {
          SplitPiecesSub(hostPortDb[0], ':');
        }
        assert |hostPort| > 1 ==> forall c :: c in hostPort[1] ==> c in hostPortDb[0] by {
          SplitPiecesSub(hostPortDb[0], ':');
        }
        Ok(DbParts(auth[0], auth[1], hostPort[0], if |hostPort| > 1 then hostPort[1] else DefaultPort, hostPortDb[1]))
  }

  /** Every character of a piece occurs in the split string. */
  lemma {:induction false} SplitPiecesSub(s: string, c: char)
    ensures forall k, x :: 0 <= k < |Split(s, c)| && x in Split(s, c)[k] ==> x in s
    decreases |s|
  {
    if |s| > 0 {
      SplitPiecesSub(s[1..], c);
      assert forall x :: x in s[1..] ==> x in s;
    }
  }

  /** The command line and the environment the backup runs with. */
  datatype DumpPlan = DumpPlan(argv: seq<string>, pgPassword: string, backupFile: string)

  /** `create_db_backup` up to running `pg_dump`; `timestamp` is the
      formatted current time. */
  function CreateDbBackup(url: string, timestamp: string): (r: Result<DumpPlan, Exc>)
    ensures r.Err? <==> ParseDatabaseUrl(url).Err?
    ensures r.Err? ==> r.error == IndexError
    ensures r.Ok? ==>
      var p := ParseDatabaseUrl(url).value;
      && r.value.backupFile == "backup_" + timestamp + ".sql"
      && r.value.pgPassword == p.password
      && r.value.argv == ["pg_dump", "-h", p.host, "-p", p.port, "-U", p.user, "-d", p.db,
                          "-F", "c", "-f", r.value.backupFile]
  {
    var file := "backup_" + timestamp + ".sql";
    match ParseDatabaseUrl(url)
    case Err(e) => Err(e)
    case Ok(p) =>
      Ok(DumpPlan(["pg_dump", "-h", p.host, "-p", p.port, "-U", p.user, "-d", p.db, "-F", "c", "-f", file],
                  p.password, file))
  }

  /** The password reaches `pg_dump` only through PGPASSWORD: two URLs that
      differ only in the password give the same command line. */
  lemma PasswordOnlyInEnvironment(user: string, p1: string, p2: string, server: string, db: string, timestamp: string)
    requires PartFree(user) && PartFree(p1) && PartFree(p2) && PartFree(server) && PartFree(db)
    ensures var r1 := CreateDbBackup(AppConfig.DatabaseUri(user, p1, server, db), timestamp);
      var r2 := CreateDbBackup(AppConfig.DatabaseUri(user, p2, server, db), timestamp);
      && r1.Ok? && r2.Ok?
      && r1.value.argv == r2.value.argv
      && r1.value.pgPassword == p1 && r2.value.pgPassword == p2
  {
    UriRoundTrip(user, p1, server, db);
    UriRoundTrip(user, p2, server, db);
  }

  /** Free of the three separators the parser splits on. */
  predicate PartFree(s: string) {
    ':' !in s && '@' !in s && '/' !in s
  }

  /** A URI built by the settings' format parses back into its parts, with
      the default port. */
  lemma UriRoundTrip(user: string, password: string, server: string, db: string)
    requires PartFree(user) && PartFree(password) && PartFree(server) && PartFree(db)
    ensures ParseDatabaseUrl(AppConfig.DatabaseUri(user, password, server, db))
         == Ok(DbParts(user, password, server, DefaultPort, db))
  {
    var auth := user + ":" + password;
    var location := server + "/" + db;
    var rest := auth + "@" + location;
    assert AppConfig.DatabaseUri(user, password, server, db) == Scheme + rest;
    RemoveAllLeading(Scheme, rest);
    NoSchemeInRest(user, password, server, db);
    assert rest == user + ":" + password + "@" + server + "/" + db;
    RemoveAllUntouched(rest, Scheme);
    assert '@' !in auth;
    SplitAtFirst(auth, '@', location);
    SplitNoSeparator(location, '@');
    assert Split(rest, '@') == [auth, location];
    SplitAtFirst(user, ':', password);
    SplitNoSeparator(password, ':');
    assert Split(auth, ':') == [user, password];
    SplitAtFirst(server, '/', db);
    SplitNoSeparator(db, '/');
    assert Split(location, '/') == [server, db];
    SplitNoSeparator(server, ':');
  }

  /** The rest of such a URI holds a single '/', so no "postgresql://"
      (which needs two in a row) occurs in it. */
  lemma NoSchemeInRest(user: string, password: string, server: string, db: string)
    requires PartFree(user) && PartFree(password) && PartFree(server) && PartFree(db)
    ensures !HasSubstring(user + ":" + password + "@" + server + "/" + db, Scheme)
  {
    var rest := user + ":" + password + "@" + server + "/" + db;
    var slash := |user| + |password| + |server| + 2;
    forall j | 0 <= j < |rest| && j != slash ensures rest[j] != '/' {
      if j < |user| {
        assert rest[j] == user[j];
      } else if j < |user| + 1 + |password| && j > |user| {
        assert rest[j] == password[j - |user| - 1];
      } else if j < slash && j > |user| + 1 + |password| {
        assert rest[j] == server[j - |user| - |password| - 2];
      } else if j > slash {
        assert rest[j] == db[j - slash - 1];
      }
    }
    OneSlashHasNoScheme(rest, slash);
  }

  /** A string whose only '/' is at one position cannot hold "//". */
  lemma OneSlashHasNoScheme(rest: string, slash: int)
    requires forall j :: 0 <= j < |rest| && j != slash ==> rest[j] != '/'
    ensures !HasSubstring(rest, Scheme)
  {
    forall i ensures !OccursAt(rest, Scheme, i) {
      if 0 <= i && i + |Scheme| <= |rest| {
        var window := rest[i..i + |Scheme|];
        if i + 11 != slash {
          assert window[11] == rest[i + 11];
          assert window[11] != Scheme[11];
        } else {
          assert window[12] == rest[i + 12];
          assert window[12] != Scheme[12];
        }
      }
    }
    HasSubstringIff(rest, Scheme);
  }

  /** A URL without "@" fails with IndexError before `pg_dump` is built. */
  lemma NoAtSignFails(url: string, timestamp: string)
    requires '@' !in url
    ensures CreateDbBackup(url, timestamp) == Err(IndexError)
  {
    RemoveAllKeepsCharacters(url, Scheme);
  }

  /** The default `DATABASE_URL` of backend/config.py has no "@". */
  lemma SqliteDefaultFails(url: string)
    requires url == "sqlite:///./llm_eval.db"
    ensures CreateDbBackup(url, "") == Err(IndexError)
  {
    assert '@' !in url;
    NoAtSignFails(url, "");
  }

  /** What `upload_to_s3` does, in order. */
  datatype S3Action = UploadFile(localPath: string, bucket: string, key: string) | RemoveLocal(path: string)

  /** The actions, and the exception re-raised when the upload failed. */
  datatype UploadRun = UploadRun(actions: seq<S3Action>, raised: Option<Exc>)

  predicate Configured(s: Option<string>) { s.Some? && s.value != "" }

  /** `upload_to_s3(file_path)`; `uploadError` is what `upload_file` raised,
      if anything. */
  function UploadToS3(accessKey: Option<string>, secretKey: Option<string>, bucket: Option<string>,
                      filePath: string, uploadError: Option<Exc>): (r: UploadRun)
    ensures !(Configured(accessKey) && Configured(secretKey) && Configured(bucket)) ==> r == UploadRun([], None)
    ensures r.raised == (if r.actions == [] then None else uploadError)
    ensures Configured(accessKey) && Configured(secretKey) && Configured(bucket) ==>
      var upload := UploadFile(filePath, bucket.value, "backups/" + Basename(filePath));
      && r.raised == uploadError
      && (uploadError.Some? ==> r.actions == [upload])
      && (uploadError.None? ==> r.actions == [upload, RemoveLocal(filePath)])
  {
    if !(Configured(accessKey) && Configured(secretKey) && Configured(bucket)) then UploadRun([], None)
    else
      var upload := UploadFile(filePath, bucket.value, "backups/" + Basename(filePath));
      match uploadError
      case Some(e) => UploadRun([upload], Some(e))
      case None => UploadRun([upload, RemoveLocal(filePath)], None)
  }

  /** The object key is the file name alone under "backups/". */
  lemma UploadKey(accessKey: Option<string>, secretKey: Option<string>, bucket: Option<string>,
                  dir: string, name: string)
    requires Configured(accessKey) && Configured(secretKey) && Configured(bucket)
    requires '/' !in name
    ensures UploadToS3(accessKey, secretKey, bucket, dir + "/" + name, None).actions
         == [UploadFile(dir + "/" + name, bucket.value, "backups/" + name), RemoveLocal(dir + "/" + name)]
  {
    BasenameAfterSlash(dir, name);
  }

  lemma {:induction false} BasenameAfterSlash(dir: string, name: string)
    requires '/' !in name
    ensures Basename(dir + "/" + name) == name
    decreases |name|
  {
    var p := dir + "/" + name;
    if |name| == 0 {
      assert p[|p| - 1] == '/';
    } else {
      var n := |name| - 1;
      assert p[..|p| - 1] == dir + "/" + name[..n];
      assert '/' !in name[..n] by {
        assert forall x :: x in name[..n] ==> x in name;
      }
      BasenameAfterSlash(dir, name[..n]);
      assert p[|p| - 1] == name[n];
      assert name[..n] + [name[n]] == name;
    }
  }
}
