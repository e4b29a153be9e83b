/**
 * The migration runner: files in id order, the table of applied ones, up and down. Scripts act on an
 * abstract schema; a single script takes effect as a whole or not at all, its record with it only if
 * the runner wraps both in one transaction.
 */
module Migrations {
  import opened Ascii
  import opened Wrappers

  // ---------------------------------------------------------------- files

  datatype File = File(id: nat, filename: string, sql: string)

  predicate IsNameChar(c: char) { IsLower(c) || IsDigit(c) || c == '_' }

  // Four digits, an underscore, a non-empty name, then the extension.
  predicate Named(f: string, extension: string) {
    && |f| > 5 + |extension|
    && (forall i :: 0 <= i < 4 ==> IsDigit(f[i]))
    && f[4] == '_'
    && (forall i :: 5 <= i < |f| - |extension| ==> IsNameChar(f[i]))
    && f[|f| - |extension|..] == extension
  }

  predicate IsUpFile(f: string) { Named(f, ".sql") }

  predicate IsDownFile(f: string) { Named(f, ".down.sql") }

  function Digit(c: char): nat requires IsDigit(c) { c as int - '0' as int }

  function IdOf(f: string): nat
    requires |f| >= 4 && forall i :: 0 <= i < 4 ==> IsDigit(f[i])
  {
    Digit(f[0]) * 1000 + Digit(f[1]) * 100 + Digit(f[2]) * 10 + Digit(f[3])
  }

  // The order in which names are sorted.
  predicate Before(a: string, b: string) {
    if b == "" then false else a == "" || a[0] < b[0] || (a[0] == b[0] && Before(a[1..], b[1..]))
  }

  lemma {:induction false} BeforeIsTotal(a: string, b: string)
    ensures a == b || Before(a, b) || Before(b, a)
  {
    if a != "" && b != "" && a[0] == b[0] {
      BeforeIsTotal(a[1..], b[1..]);
      assert a == [a[0]] + a[1..] && b == [b[0]] + b[1..];
    }
  }

  // ---------------------------------------------------------------- names, said of their parts

  predicate AllIn(s: string, characters: string) { forall i :: 0 <= i < |s| ==> s[i] in characters }

  predicate IsNamed(f: string, id: string, name: string, extension: string) {
    && f == id + "_" + name + extension
    && |id| == 4 && AllIn(id, DIGITS) && name != "" && AllIn(name, SMALL_LETTERS + DIGITS + "_")
  }

  lemma NameCharIs(c: char)
    ensures IsNameChar(c) <==> c in SMALL_LETTERS + DIGITS + "_"
  {
    LettersAndDigits(c);
    assert c in SMALL_LETTERS + DIGITS + "_" <==> c in SMALL_LETTERS || c in DIGITS || c in "_";
  }

  lemma AllInIs(s: string)
    ensures AllIn(s, DIGITS) <==> forall i :: 0 <= i < |s| ==> IsDigit(s[i])
    ensures AllIn(s, SMALL_LETTERS + DIGITS + "_") <==> forall i :: 0 <= i < |s| ==> IsNameChar(s[i])
  {
    forall i | 0 <= i < |s|
      ensures (IsDigit(s[i]) <==> s[i] in DIGITS) && (IsNameChar(s[i]) <==> s[i] in SMALL_LETTERS + DIGITS + "_")
    {
      Digits(s[i]);
      NameCharIs(s[i]);
    }
  }

  lemma PartsOfNamed(f: string, extension: string)
    requires Named(f, extension)
    ensures IsNamed(f, f[..4], f[5..|f| - |extension|], extension)
  {
    var n := |f| - |extension|;
    AllInIs(f[..4]);
    AllInIs(f[5..n]);
    assert f == f[..4] + [f[4]] + f[5..n] + f[n..];
  }

  lemma NamedOfParts(f: string, id: string, name: string, extension: string)
    requires IsNamed(f, id, name, extension)
    ensures Named(f, extension)
  {
    AllInIs(id);
    AllInIs(name);
    var n := 5 + |name|;
    assert f[..4] == id && f[4] == '_' && f[5..n] == name && f[n..] == extension;
    forall i | 0 <= i < 4 ensures IsDigit(f[i]) { assert f[i] == f[..4][i]; }
    forall i | 5 <= i < n ensures IsNameChar(f[i]) { assert f[i] == f[5..n][i - 5]; }
  }

  // A migration file is called by four digits, an underscore, a name of small letters, digits and
  // underscores, and ".sql"; the file that rolls it back ends in ".down.sql" instead.
  lemma NamesAre(f: string)
    ensures IsUpFile(f) <==> exists id, name :: IsNamed(f, id, name, ".sql")
    ensures IsDownFile(f) <==> exists id, name :: IsNamed(f, id, name, ".down.sql")
  {
    if IsUpFile(f) { PartsOfNamed(f, ".sql"); }
    if IsDownFile(f) { PartsOfNamed(f, ".down.sql"); }
    if id, name :| IsNamed(f, id, name, ".sql") { NamedOfParts(f, id, name, ".sql"); }
    if id, name :| IsNamed(f, id, name, ".down.sql") { NamedOfParts(f, id, name, ".down.sql"); }
  }

  lemma DigitPrints(c: char)
    requires IsDigit(c)
    ensures Digit(c) < 10 && DIGITS[Digit(c)] == c
  {
  }

  lemma LastDigit(m: nat, d: nat)
    requires d < 10
    ensures (m * 10 + d) / 10 == m && (m * 10 + d) % 10 == d
  {
  }

  lemma PlacesOf(a: nat, b: nat, c: nat, d: nat)
    requires a < 10 && b < 10 && c < 10 && d < 10
    ensures var n := a * 1000 + b * 100 + c * 10 + d;
            n / 10 / 10 / 10 == a && n / 10 / 10 % 10 == b && n / 10 % 10 == c && n % 10 == d
  {
    LastDigit(a, b);
    LastDigit(a * 10 + b, c);
    LastDigit(a * 100 + b * 10 + c, d);
  }

  // The id is the number whose decimal digits are the four characters the name starts with.
  lemma IdPrintsAsPrefix(f: string)
    requires |f| >= 4 && forall i :: 0 <= i < 4 ==> IsDigit(f[i])
    ensures var id := IdOf(f);
            && id < 10000 && f[0] == DIGITS[id / 10 / 10 / 10] && f[1] == DIGITS[id / 10 / 10 % 10]
            && f[2] == DIGITS[id / 10 % 10] && f[3] == DIGITS[id % 10]
  {
    var a, b, c, d := Digit(f[0]), Digit(f[1]), Digit(f[2]), Digit(f[3]);
    DigitPrints(f[0]);
    DigitPrints(f[1]);
    DigitPrints(f[2]);
    DigitPrints(f[3]);
    PlacesOf(a, b, c, d);
    assert IdOf(f) == a * 1000 + b * 100 + c * 10 + d;
  }

  // ---------------------------------------------------------------- reading the directory

  datatype Kind = UpScript | DownScript

  predicate EndsWith(f: string, suffix: string) { |f| >= |suffix| && f[|f| - |suffix|..] == suffix }

  predicate Accepted(kind: Kind, f: string) {
    if kind.UpScript? then IsUpFile(f) && !EndsWith(f, ".down.sql") else IsDownFile(f)
  }

  // The second filter on up files is redundant: no down file matches the first pattern.
  lemma UpFilterIsRedundant(f: string)
    ensures Accepted(UpScript, f) <==> IsUpFile(f)
  {
    if IsUpFile(f) && |f| > 13 {
      assert f[|f| - 9..][0] == f[|f| - 9];
      assert f[|f| - 4..][0] == '.';
    }
  }

  lemma NamesSortById(a: string, b: string)
    requires |a| >= 4 && |b| >= 4 && Before(a, b)
    requires forall i :: 0 <= i < 4 ==> IsDigit(a[i]) && IsDigit(b[i])
    ensures IdOf(a) <= IdOf(b)
  {
    if a[0] == b[0] {
      assert Before(a[1..], b[1..]);
      if a[1] == b[1] {
        assert Before(a[1..][1..], b[1..][1..]);
        if a[2] == b[2] { assert Before(a[1..][1..][1..], b[1..][1..][1..]); }
      }
    }
  }

  // A directory entry with its contents.
  datatype Entry = Entry(filename: string, sql: string)

  function FileOf(kind: Kind, e: Entry): File
    requires Accepted(kind, e.filename)
  {
    File(IdOf(e.filename), e.filename, e.sql)
  }

  // The place of a file among files sorted by name.
  function Place(f: File, files: seq<File>): seq<File> {
    if files == [] || Before(f.filename, files[0].filename) then [f] + files
    else [files[0]] + Place(f, files[1..])
  }

  function ReadMigrations(kind: Kind, dir: seq<Entry>): seq<File> {
    if dir == [] then []
    else if Accepted(kind, dir[0].filename) then Place(FileOf(kind, dir[0]), ReadMigrations(kind, dir[1..]))
    else ReadMigrations(kind, dir[1..])
  }

  ghost predicate SortedById(files: seq<File>) {
    forall i, j :: 0 <= i < j < |files| ==> files[i].id < files[j].id
  }

  // The id of a file is the number its name starts with.
  predicate Parsed(f: File) {
    && |f.filename| >= 4
    && (forall i :: 0 <= i < 4 ==> IsDigit(f.filename[i]))
    && f.id == IdOf(f.filename)
  }

  lemma NamesCompareById(f: File, g: File)
    requires Parsed(f) && Parsed(g) && f.id != g.id
    ensures if Before(f.filename, g.filename) then f.id < g.id else g.id < f.id
  {
    BeforeIsTotal(f.filename, g.filename);
    if Before(f.filename, g.filename) {
      NamesSortById(f.filename, g.filename);
    } else {
      NamesSortById(g.filename, f.filename);
    }
  }

  lemma {:induction false} PlaceAdds(f: File, files: seq<File>)
    ensures forall g :: g in Place(f, files) <==> g == f || g in files
  {
    if files != [] {
      assert files == [files[0]] + files[1..];
      PlaceAdds(f, files[1..]);
    }
  }

  lemma ConsSorts(g: File, rest: seq<File>)
    requires SortedById(rest) && (rest != [] ==> g.id < rest[0].id)
    ensures SortedById([g] + rest)
  {
    forall i, j | 0 <= i < j < |[g] + rest| ensures ([g] + rest)[i].id < ([g] + rest)[j].id {
      assert i == 0 && j > 1 ==> rest[0].id < rest[j - 1].id;
    }
  }

  lemma {:induction false} PlaceSorts(f: File, files: seq<File>)
    requires SortedById(files) && Parsed(f) && forall g :: g in files ==> Parsed(g) && g.id != f.id
    ensures SortedById(Place(f, files))
  {
    if files != [] {
      var g := files[0];
      assert g in files && files == [g] + files[1..];
      NamesCompareById(f, g);
      if Before(f.filename, g.filename) {
        ConsSorts(f, files);
      } else {
        PlaceSorts(f, files[1..]);
        PlaceAdds(f, files[1..]);
        var rest := Place(f, files[1..]);
        forall x | x in rest ensures g.id < x.id {
          if x in files[1..] { var j :| 1 <= j < |files| && files[j] == x; }
        }
        ConsSorts(g, rest);
      }
    }
  }

  ghost predicate DistinctIds(kind: Kind, dir: seq<Entry>) {
    forall i, j :: 0 <= i < j < |dir| && Accepted(kind, dir[i].filename) && Accepted(kind, dir[j].filename)
      ==> IdOf(dir[i].filename) != IdOf(dir[j].filename)
  }

  // Sorting by name puts the files in increasing id order; exactly the matching entries are read.
  lemma {:induction false} ReadSortsById(kind: Kind, dir: seq<Entry>)
    requires DistinctIds(kind, dir)
    ensures SortedById(ReadMigrations(kind, dir))
    ensures forall f :: f in ReadMigrations(kind, dir)
              <==> exists e :: e in dir && Accepted(kind, e.filename) && f == FileOf(kind, e)
  {
    if dir != [] {
      var e, rest := dir[0], ReadMigrations(kind, dir[1..]);
      assert dir == [e] + dir[1..];
      ReadSortsById(kind, dir[1..]);
      forall g | g in rest ensures Parsed(g) && (Accepted(kind, e.filename) ==> g.id != IdOf(e.filename)) {
        var d :| d in dir[1..] && Accepted(kind, d.filename) && g == FileOf(kind, d);
        var j :| 1 <= j < |dir| && dir[j] == d;
      }
      if Accepted(kind, e.filename) {
        PlaceSorts(FileOf(kind, e), rest);
        PlaceAdds(FileOf(kind, e), rest);
      }
    }
  }

  // ---------------------------------------------------------------- the applied table

  datatype Record = Record(id: nat, filename: string, checksum: string)

  datatype Database<S> = Database(schema: S, applied: seq<Record>)

  function Lookup(applied: seq<Record>, id: nat): (r: Option<Record>)
    ensures r.Some? ==> r.value in applied && r.value.id == id
    ensures r.None? ==> forall i :: 0 <= i < |applied| ==> applied[i].id != id
  {
    FindFirst(applied, (r: Record) => r.id == id)
  }

  // The table is read in id order.
  function Insert(applied: seq<Record>, r: Record): seq<Record> {
    if applied == [] || applied[|applied| - 1].id < r.id then applied + [r]
    else Insert(applied[..|applied| - 1], r) + [applied[|applied| - 1]]
  }

  function Delete(applied: seq<Record>, id: nat): seq<Record> {
    if applied == [] then []
    else if applied[|applied| - 1].id == id then Delete(applied[..|applied| - 1], id)
    else Delete(applied[..|applied| - 1], id) + [applied[|applied| - 1]]
  }

  // ---------------------------------------------------------------- up and down

  // A failure to insert or delete a record undoes the script (RecordFailed, DeleteFailed) or leaves its
  // effect in place (SchemaAhead, SchemaBehind).
  datatype Error =
    | ChangedAfterApplication
    | ScriptFailed
    | NoDownFile
    | RecordFailed
    | SchemaAhead
    | DeleteFailed
    | SchemaBehind

  datatype Outcome<S> = Outcome(db: Database<S>, done: seq<string>, error: Option<Error>)

  // The same outcome after some files were already done.
  function After<S>(done: seq<string>, out: Outcome<S>): Outcome<S> { out.(done := done + out.done) }

  lemma AfterOneMore<S>(done: seq<string>, f: string, out: Outcome<S>)
    ensures After(done, After([f], out)) == After(done + [f], out)
  {
    assert done + ([f] + out.done) == done + [f] + out.done;
  }

  lemma AfterNone<S>(done: seq<string>, out: Outcome<S>)
    ensures After([], out) == out
    ensures out.done == [] ==> After(done, out) == out.(done := done)
  {
    assert [] + out.done == out.done;
    assert out.done == [] ==> done + out.done == done;
  }

  // The world a migration meets: what scripts do to a schema and whether they end the transaction they
  // are run in, the checksum, and whether inserting the record of a file or deleting a record fails.
  datatype Env<!S> = Env(run: (string, S) -> Option<S>, commits: string -> bool, digest: string -> string,
                         recordFails: File -> bool, deleteFails: Record -> bool)

  predicate IsWordChar(c: char) { IsLower(LowerChar(c)) || IsDigit(c) || c == '_' }

  predicate BeginAt(sql: string, i: nat) {
    && i + 5 <= |sql| && (forall k :: 0 <= k < 5 ==> LowerChar(sql[i + k]) == "begin"[k])
    && (i > 0 ==> !IsWordChar(sql[i - 1])) && (i + 5 < |sql| ==> !IsWordChar(sql[i + 5]))
  }

  // The word BEGIN anywhere: the file manages its own transaction, and the runner does not wrap it.
  predicate HasBegin(sql: string) { exists i: nat :: i < |sql| && BeginAt(sql, i) }

  // The word, in any case, with nothing before and after it that belongs to a word.
  predicate HasWord(sql: string, a: string, word: string, b: string) {
    && sql == a + word + b
    && |word| == 5 && (forall k :: 0 <= k < 5 ==> word[k] == "begin"[k] || word[k] == "BEGIN"[k])
    && (a != "" ==> a[|a| - 1] !in WORD_CHARACTERS) && (b != "" ==> b[0] !in WORD_CHARACTERS)
  }

  const WORD_CHARACTERS := SMALL_LETTERS + CAPITAL_LETTERS + DIGITS + "_"

  lemma WordCharIs(c: char)
    ensures IsWordChar(c) <==> c in WORD_CHARACTERS
  {
    LettersAndDigits(c);
    var letters := SMALL_LETTERS + CAPITAL_LETTERS;
    assert c in letters <==> c in SMALL_LETTERS || c in CAPITAL_LETTERS;
    assert c in WORD_CHARACTERS <==> c in letters || c in DIGITS || c in "_";
  }

  lemma BeginIsWord(sql: string, i: nat)
    requires BeginAt(sql, i)
    ensures HasWord(sql, sql[..i], sql[i..i + 5], sql[i + 5..])
  {
    forall k | 0 <= k < 5 ensures sql[i + k] == "begin"[k] || sql[i + k] == "BEGIN"[k] {
      assert LowerChar(sql[i + k]) == "begin"[k];
    }
    if i > 0 { WordCharIs(sql[i - 1]); }
    if i + 5 < |sql| { WordCharIs(sql[i + 5]); }
    assert sql == sql[..i] + sql[i..i + 5] + sql[i + 5..];
  }

  lemma WordIsBegin(sql: string, a: string, word: string, b: string)
    requires HasWord(sql, a, word, b)
    ensures BeginAt(sql, |a|)
  {
    if a != "" { WordCharIs(a[|a| - 1]); }
    if b != "" { WordCharIs(b[0]); }
    assert forall k :: 0 <= k < 5 ==> sql[|a| + k] == word[k];
    assert b != "" ==> sql[|a| + 5] == b[0];
  }

  // A file has its own BEGIN if and only if the word stands somewhere in it by itself.
  lemma HasBeginMeans(sql: string)
    ensures HasBegin(sql) <==> exists a, word, b :: HasWord(sql, a, word, b)
  {
    if i: nat :| i < |sql| && BeginAt(sql, i) { BeginIsWord(sql, i); }
    if a, word, b :| HasWord(sql, a, word, b) { WordIsBegin(sql, a, word, b); }
  }

  datatype Step<S> = Step(db: Database<S>, error: Option<Error>)

  // The script is over and done with before its record is inserted.
  predicate OwnTransaction<S>(env: Env<S>, sql: string) { HasBegin(sql) || env.commits(sql) }

  // One script and then its record. The runner puts both into one transaction unless the script names
  // BEGIN; the primary key refuses a second record of an id.
  function Apply<S>(env: Env<S>, db: Database<S>, f: File): Step<S> {
    var schema := env.run(f.sql, db.schema);
    if schema.None? then Step(db, Some(ScriptFailed))
    else if Lookup(db.applied, f.id).None? && !env.recordFails(f) then
      Step(Database(schema.value, Insert(db.applied, Record(f.id, f.filename, env.digest(f.sql)))), None)
    else if OwnTransaction(env, f.sql) then Step(Database(schema.value, db.applied), Some(SchemaAhead))
    else Step(db, Some(RecordFailed))
  }

  // The files from position i on; `known` is the applied table as read before the first file.
  function UpFrom<S>(env: Env<S>, db: Database<S>, known: seq<Record>, files: seq<File>, i: nat): Outcome<S>
    requires i <= |files|
    decreases |files| - i
  {
    if i == |files| then Outcome(db, [], None)
    else
      var f := files[i];
      var record := Lookup(known, f.id);
      if record.Some? then
        if record.value.checksum != env.digest(f.sql) then Outcome(db, [], Some(ChangedAfterApplication))
        else UpFrom(env, db, known, files, i + 1)
      else
        var next := Apply(env, db, f);
        if next.error.Some? then Outcome(next.db, [], next.error)
        else After([f.filename], UpFrom(env, next.db, known, files, i + 1))
  }

  function Up<S>(env: Env<S>, db: Database<S>, files: seq<File>): Outcome<S> {
    UpFrom(env, db, db.applied, files, 0)
  }

  function FindFile(files: seq<File>, id: nat): (r: Option<File>)
    ensures r.Some? ==> r.value in files && r.value.id == id
  {
    FindFirst(files, (f: File) => f.id == id)
  }

  // A down script and then the deletion of the record, always wrapped in one transaction, which the script
  // may end.
  function RollBack<S>(env: Env<S>, db: Database<S>, target: Record, f: File): Step<S> {
    var schema := env.run(f.sql, db.schema);
    if schema.None? then Step(db, Some(ScriptFailed))
    else if !env.deleteFails(target) then Step(Database(schema.value, Delete(db.applied, target.id)), None)
    else if env.commits(f.sql) then Step(Database(schema.value, db.applied), Some(SchemaBehind))
    else Step(db, Some(DeleteFailed))
  }

  // `known` holds the records still to roll back, the next one last.
  function DownFrom<S>(env: Env<S>, db: Database<S>, known: seq<Record>, downFiles: seq<File>, steps: nat): Outcome<S>
    decreases steps
  {
    if steps == 0 || known == [] then Outcome(db, [], None)
    else
      var target := known[|known| - 1];
      var f := FindFile(downFiles, target.id);
      if f.None? then Outcome(db, [], Some(NoDownFile))
      else
        var next := RollBack(env, db, target, f.value);
        if next.error.Some? then Outcome(next.db, [], next.error)
        else After([f.value.filename], DownFrom(env, next.db, known[..|known| - 1], downFiles, steps - 1))
  }

  // What is left to do after i turns of the loop.
  function DownRest<S>(env: Env<S>, db: Database<S>, known: seq<Record>, i: nat, downFiles: seq<File>,
                       steps: nat): Outcome<S>
    requires i <= steps && i <= |known|
  {
    DownFrom(env, db, known[..|known| - i], downFiles, steps - i)
  }

  // One turn, seen from the whole: a failure ends it, a success carries it on.
  lemma DownTurn<S>(env: Env<S>, total: Outcome<S>, done: seq<string>, db: Database<S>, known: seq<Record>, i: nat,
                    downFiles: seq<File>, steps: nat)
    requires i < steps && i < |known| && total == After(done, DownRest(env, db, known, i, downFiles, steps))
    ensures var target := known[|known| - 1 - i];
            var f := FindFile(downFiles, target.id);
            if f.None? then total == Outcome(db, done, Some(NoDownFile))
            else
              var next := RollBack(env, db, target, f.value);
              if next.error.Some? then total == Outcome(next.db, done, next.error)
              else total == After(done + [f.value.filename], DownRest(env, next.db, known, i + 1, downFiles, steps))
  {
    var target := known[|known| - 1 - i];
    assert known[..|known| - i][..|known| - i - 1] == known[..|known| - (i + 1)];
    var f := FindFile(downFiles, target.id);
    if f.None? {
      AfterNone(done, Outcome(db, [], Some(NoDownFile)));
    } else {
      var next := RollBack(env, db, target, f.value);
      if next.error.Some? {
        AfterNone(done, Outcome(next.db, [], next.error));
      } else {
        AfterOneMore(done, f.value.filename, DownRest(env, next.db, known, i + 1, downFiles, steps));
      }
    }
  }

  lemma DownBoundary<S>(env: Env<S>, done: seq<string>, db: Database<S>, known: seq<Record>, i: nat,
                        downFiles: seq<File>, steps: nat)
    requires i <= steps && i <= |known|
    ensures i == 0 ==>
              After([], DownRest(env, db, known, i, downFiles, steps)) == DownFrom(env, db, known, downFiles, steps)
    ensures i == steps || i == |known| ==>
              After(done, DownRest(env, db, known, i, downFiles, steps)) == Outcome(db, done, None)
  {
    assert known[..|known|] == known;
    AfterNone([], DownFrom(env, db, known, downFiles, steps));
    AfterNone(done, Outcome(db, [], None));
  }

  function Down<S>(env: Env<S>, db: Database<S>, downFiles: seq<File>, steps: nat): Outcome<S> {
    DownFrom(env, db, db.applied, downFiles, steps)
  }

  /** The runner's connection: the schema and the applied table it changes. */
  class Migrator<S> {
    var schema: S
    var applied: seq<Record>

    function View(): Database<S>
      reads this
    {
      Database(schema, applied)
    }

    constructor (schema: S)
      ensures View() == Database(schema, [])
    {
      this.schema, applied := schema, [];
    }

    // BEGIN unless the script has its own, the script, its record, COMMIT; on a failure ROLLBACK, which
    // undoes nothing when the script has committed by itself.
    method ApplyFile(env: Env<S>, f: File) returns (error: Option<Error>)
      modifies this
      ensures Step(View(), error) == Apply(env, old(View()), f)
    {
      var wrap := !HasBegin(f.sql);
      var before := schema;
      var next := env.run(f.sql, schema);
      if next.None? { return Some(ScriptFailed); }
      schema := next.value;
      var recorded := Lookup(applied, f.id);
      if recorded.Some? || env.recordFails(f) {
        if wrap && !env.commits(f.sql) {
          schema := before;
          return Some(RecordFailed);
        }
        return Some(SchemaAhead);
      }
      applied := Insert(applied, Record(f.id, f.filename, env.digest(f.sql)));
      return None;
    }

    // BEGIN, the down script, the deletion of its record, COMMIT; on a failure ROLLBACK, which undoes
    // nothing when the script has committed.
    method RollBackFile(env: Env<S>, target: Record, f: File) returns (error: Option<Error>)
      modifies this
      ensures Step(View(), error) == RollBack(env, old(View()), target, f)
    {
      var before := schema;
      var next := env.run(f.sql, schema);
      if next.None? { return Some(ScriptFailed); }
      schema := next.value;
      if env.deleteFails(target) {
        if env.commits(f.sql) { return Some(SchemaBehind); }
        schema := before;
        return Some(DeleteFailed);
      }
      applied := Delete(applied, target.id);
      return None;
    }

    method MigrateUp(env: Env<S>, files: seq<File>) returns (done: seq<string>, error: Option<Error>)
      modifies this
      ensures Outcome(View(), done, error) == Up(env, old(View()), files)
    {
      var known := applied;
      ghost var before := View();
      done := [];
      AfterNone([], Up(env, before, files));
      for i := 0 to |files|
        invariant Up(env, before, files) == After(done, UpFrom(env, View(), known, files, i))
      {
        AfterNone(done, Outcome(View(), [], Some(ChangedAfterApplication)));
        var f := files[i];
        var record := Lookup(known, f.id);
        if record.Some? {
          if record.value.checksum != env.digest(f.sql) { return done, Some(ChangedAfterApplication); }
        } else {
          ghost var step := Apply(env, View(), f);
          error := ApplyFile(env, f);
          if error.Some? {
            AfterNone(done, Outcome(step.db, [], step.error));
            return;
          }
          AfterOneMore(done, f.filename, UpFrom(env, View(), known, files, i + 1));
          done := done + [f.filename];
        }
      }
      AfterNone(done, Outcome(View(), [], None));
      error := None;
    }

    method MigrateDown(env: Env<S>, downFiles: seq<File>, steps: nat) returns (done: seq<string>, error: Option<Error>)
      modifies this
      ensures Outcome(View(), done, error) == Down(env, old(View()), downFiles, steps)
    {
      var known := applied;
      done := [];
      var i := 0;
      ghost var total := Down(env, View(), downFiles, steps);
      DownBoundary(env, [], View(), known, 0, downFiles, steps);
      while i < steps && i < |known|
        invariant i <= steps && i <= |known|
        invariant total == After(done, DownRest(env, View(), known, i, downFiles, steps))
      {
        var target := known[|known| - 1 - i];
        DownTurn(env, total, done, View(), known, i, downFiles, steps);
        var f := FindFile(downFiles, target.id);
        if f.None? { return done, Some(NoDownFile); }
        error := RollBackFile(env, target, f.value);
        if error.Some? { return; }
        done := done + [f.value.filename];
        i := i + 1;
      }
      DownBoundary(env, done, View(), known, i, downFiles, steps);
      error := None;
    }
  }

  // ---------------------------------------------------------------- the applied set is a prefix

  ghost predicate IsPrefix(applied: seq<Record>, files: seq<File>) {
    |applied| <= |files| && forall i :: 0 <= i < |applied| ==> applied[i].id == files[i].id
  }

  lemma InsertNext(applied: seq<Record>, files: seq<File>, r: Record)
    requires SortedById(files) && IsPrefix(applied, files) && |applied| < |files| && r.id == files[|applied|].id
    ensures Insert(applied, r) == applied + [r] && IsPrefix(applied + [r], files)
  {
  }

  lemma {:induction false} DeleteAbsent(applied: seq<Record>, id: nat)
    requires forall i :: 0 <= i < |applied| ==> applied[i].id != id
    ensures Delete(applied, id) == applied
  {
    if applied != [] {
      DeleteAbsent(applied[..|applied| - 1], id);
      assert applied == applied[..|applied| - 1] + [applied[|applied| - 1]];
    }
  }

  lemma DeleteLast(applied: seq<Record>, files: seq<File>)
    requires SortedById(files) && IsPrefix(applied, files) && applied != []
    ensures Delete(applied, applied[|applied| - 1].id) == applied[..|applied| - 1]
  {
    DeleteAbsent(applied[..|applied| - 1], applied[|applied| - 1].id);
  }

  lemma FoundInPrefix(applied: seq<Record>, files: seq<File>, i: nat)
    requires SortedById(files) && IsPrefix(applied, files) && i < |files|
    ensures Lookup(applied, files[i].id) == if i < |applied| then Some(applied[i]) else None
  {
    var r := Lookup(applied, files[i].id);
    assert i < |applied| ==> applied[i].id == files[i].id;
    if r.Some? {
      var k :| 0 <= k < |applied| && applied[k] == r.value;
      assert k == i;
    }
  }

  // A failing file leaves the table alone; another adds its record at the end.
  lemma ApplyNext<S>(env: Env<S>, db: Database<S>, files: seq<File>, i: nat)
    requires SortedById(files) && IsPrefix(db.applied, files) && |db.applied| == i < |files|
    ensures var step := Apply(env, db, files[i]);
            if step.error.Some? then step.db.applied == db.applied && step.error != Some(ChangedAfterApplication)
            else
              && env.run(files[i].sql, db.schema) == Some(step.db.schema)
              && step.db.applied == db.applied + [Record(files[i].id, files[i].filename, env.digest(files[i].sql))]
              && IsPrefix(step.db.applied, files)
  {
    FoundInPrefix(db.applied, files, i);
    InsertNext(db.applied, files, Record(files[i].id, files[i].filename, env.digest(files[i].sql)));
  }

  // From position i on, past the known records: the next file is applied, or nothing more happens.
  lemma UpNext<S>(env: Env<S>, db: Database<S>, known: seq<Record>, files: seq<File>, i: nat)
    requires SortedById(files) && |known| <= i < |files| && IsPrefix(known, files)
    ensures var out, next := UpFrom(env, db, known, files, i), Apply(env, db, files[i]);
            if next.error.Some? then out == Outcome(next.db, [], next.error)
            else
              var rest := UpFrom(env, next.db, known, files, i + 1);
              out.db == rest.db && |out.done| == |rest.done| + 1 && out.error == rest.error
  {
    FoundInPrefix(known, files, i);
  }

  // Before that, a known file is skipped if its checksum still matches.
  lemma UpSkips<S>(env: Env<S>, db: Database<S>, known: seq<Record>, files: seq<File>, i: nat)
    requires SortedById(files) && i < |known| && IsPrefix(known, files)
    ensures UpFrom(env, db, known, files, i)
            == if known[i].checksum == env.digest(files[i].sql) then UpFrom(env, db, known, files, i + 1)
               else Outcome(db, [], Some(ChangedAfterApplication))
  {
    FoundInPrefix(known, files, i);
  }

  // What up leaves behind: the old records with some of the next files after them.
  ghost predicate Grown<S>(out: Outcome<S>, db: Database<S>, files: seq<File>) {
    && IsPrefix(out.db.applied, files)
    && |out.db.applied| == |db.applied| + |out.done|
    && out.db.applied[..|db.applied|] == db.applied
    && (out.error.None? ==> |out.db.applied| == |files|)
  }

  lemma GrownByOne<S>(out: Outcome<S>, rest: Outcome<S>, next: Database<S>, db: Database<S>, files: seq<File>)
    requires Grown(rest, next, files) && |next.applied| == |db.applied| + 1 && db.applied <= next.applied
    requires out.db == rest.db && |out.done| == |rest.done| + 1 && out.error == rest.error
    ensures Grown(out, db, files)
  {
    var n := |db.applied|;
    assert rest.db.applied[..n] == rest.db.applied[..n + 1][..n];
  }

  lemma OneMoreApplied<S>(env: Env<S>, db: Database<S>, files: seq<File>, i: nat)
    requires SortedById(files) && IsPrefix(db.applied, files) && |db.applied| == i < |files|
    ensures var next := Apply(env, db, files[i]);
            next.error.None? ==> IsPrefix(next.db.applied, files) && |next.db.applied| == i + 1
  {
    ApplyNext(env, db, files, i);
  }

  lemma GrownBySkip<S>(env: Env<S>, db: Database<S>, known: seq<Record>, files: seq<File>, i: nat)
    requires SortedById(files) && IsPrefix(known, files) && IsPrefix(db.applied, files) && i < |known|
    requires Grown(UpFrom(env, db, known, files, i + 1), db, files)
    ensures Grown(UpFrom(env, db, known, files, i), db, files)
  {
    UpSkips(env, db, known, files, i);
    assert Grown(Outcome(db, [], Some(ChangedAfterApplication)), db, files);
  }

  lemma GrownByNext<S>(env: Env<S>, db: Database<S>, known: seq<Record>, files: seq<File>, i: nat)
    requires SortedById(files) && IsPrefix(known, files) && IsPrefix(db.applied, files)
    requires |known| <= |db.applied| == i < |files|
    requires var next := Apply(env, db, files[i]);
             next.error.None? ==> Grown(UpFrom(env, next.db, known, files, i + 1), next.db, files)
    ensures Grown(UpFrom(env, db, known, files, i), db, files)
  {
    UpNext(env, db, known, files, i);
    ApplyNext(env, db, files, i);
    var next := Apply(env, db, files[i]);
    if next.error.None? {
      var rest := UpFrom(env, next.db, known, files, i + 1);
      GrownByOne(UpFrom(env, db, known, files, i), rest, next.db, db, files);
    }
  }

  // From position i on, everything before it already applied.
  lemma {:induction false} UpKeepsPrefix<S>(env: Env<S>, db: Database<S>, known: seq<Record>, files: seq<File>, i: nat)
    requires SortedById(files) && i <= |files| && IsPrefix(known, files) && IsPrefix(db.applied, files)
    requires |db.applied| == if i < |known| then |known| else i
    ensures Grown(UpFrom(env, db, known, files, i), db, files)
    decreases |files| - i
  {
    if i < |known| {
      UpKeepsPrefix(env, db, known, files, i + 1);
      GrownBySkip(env, db, known, files, i);
    } else if i < |files| {
      OneMoreApplied(env, db, files, i);
      if Apply(env, db, files[i]).error.None? {
        UpKeepsPrefix(env, Apply(env, db, files[i]).db, known, files, i + 1);
      }
      GrownByNext(env, db, known, files, i);
    } else {
      assert Grown(Outcome(db, [], None), db, files);
    }
  }

  // A checksum is refused before anything is applied: past the known records none is compared.
  lemma {:induction false} RefusedUntouched<S>(env: Env<S>, db: Database<S>, known: seq<Record>, files: seq<File>,
                                               i: nat)
    requires SortedById(files) && i <= |files| && IsPrefix(known, files)
    ensures var out := UpFrom(env, db, known, files, i);
            out.error == Some(ChangedAfterApplication) ==> i < |known| && out.db == db && out.done == []
    decreases |files| - i
  {
    if i < |files| {
      FoundInPrefix(known, files, i);
      if i < |known| {
        RefusedUntouched(env, db, known, files, i + 1);
      } else {
        var next := Apply(env, db, files[i]);
        if next.error.None? { RefusedUntouched(env, next.db, known, files, i + 1); }
      }
    }
  }

  // The last applied migration is rolled back.
  function Revert<S>(env: Env<S>, db: Database<S>, downFiles: seq<File>): Step<S>
    requires db.applied != []
  {
    var target := db.applied[|db.applied| - 1];
    var f := FindFile(downFiles, target.id);
    if f.None? then Step(db, Some(NoDownFile)) else RollBack(env, db, target, f.value)
  }

  lemma RevertsLast<S>(env: Env<S>, db: Database<S>, downFiles: seq<File>, files: seq<File>)
    requires SortedById(files) && IsPrefix(db.applied, files) && db.applied != []
    ensures var next := Revert(env, db, downFiles);
            next.db.applied == if next.error.Some? then db.applied else db.applied[..|db.applied| - 1]
  {
    DeleteLast(db.applied, files);
  }

  // Down rolls back the last migration and goes on from there.
  lemma DownFirst<S>(env: Env<S>, db: Database<S>, downFiles: seq<File>, steps: nat, files: seq<File>)
    requires SortedById(files) && IsPrefix(db.applied, files) && steps > 0 && db.applied != []
    ensures var out, next := Down(env, db, downFiles, steps), Revert(env, db, downFiles);
            if next.error.Some? then out == Outcome(next.db, [], next.error)
            else
              var rest := Down(env, next.db, downFiles, steps - 1);
              out.db == rest.db && |out.done| == |rest.done| + 1 && out.error == rest.error
  {
    RevertsLast(env, db, downFiles, files);
  }

  lemma {:induction false} DownKeepsPrefix<S>(env: Env<S>, db: Database<S>, downFiles: seq<File>, steps: nat,
                                              files: seq<File>)
    requires SortedById(files) && IsPrefix(db.applied, files)
    ensures var out := Down(env, db, downFiles, steps);
            && IsPrefix(out.db.applied, files)
            && |out.db.applied| == |db.applied| - |out.done|
            && out.db.applied == db.applied[..|db.applied| - |out.done|]
    decreases steps
  {
    if steps > 0 && db.applied != [] {
      DownFirst(env, db, downFiles, steps, files);
      RevertsLast(env, db, downFiles, files);
      var next := Revert(env, db, downFiles);
      if next.error.None? {
        DownKeepsPrefix(env, next.db, downFiles, steps - 1, files);
        var left := |next.db.applied| - |Down(env, next.db, downFiles, steps - 1).done|;
        assert db.applied[..|db.applied| - 1][..left] == db.applied[..left];
      }
    }
  }

  // The same world, except that no deletion of a record fails.
  function Reliable<S>(env: Env<S>): Env<S> { env.(deleteFails := (r: Record) => false) }

  // The schema falls behind the table only through a down script that ends the runner's transaction and
  // whose record is not deleted.
  ghost predicate BehindBy<S>(env: Env<S>, db: Database<S>, downFiles: seq<File>) {
    && db.applied != []
    && var target := db.applied[|db.applied| - 1];
       var f := FindFile(downFiles, target.id);
       env.deleteFails(target) && f.Some? && env.commits(f.value.sql)
  }

  // What is to be done after a rollback that stopped at a record: nothing, or delete the record by hand.
  ghost function Mended<S>(out: Outcome<S>): Database<S> {
    if out.error == Some(SchemaBehind) && out.db.applied != []
    then out.db.(applied := out.db.applied[..|out.db.applied| - 1]) else out.db
  }

  // A rollback stopped by a record can be finished: once mended, going on from there for the remaining
  // steps with deletions that succeed ends as if none had ever failed.
  ghost predicate CanBeFinished<S>(env: Env<S>, db: Database<S>, downFiles: seq<File>, steps: nat) {
    var out, all := Down(env, db, downFiles, steps), Down(Reliable(env), db, downFiles, steps);
    if out.error != Some(DeleteFailed) && out.error != Some(SchemaBehind) then out == all
    else
      && |out.done| < steps
      && (out.error == Some(SchemaBehind) ==> BehindBy(env, out.db, downFiles))
      && var undone := |out.done| + if out.error == Some(SchemaBehind) then 1 else 0;
         var rest := Down(Reliable(env), Mended(out), downFiles, steps - undone);
         rest.db == all.db && rest.error == all.error
  }

  lemma FinishedAfterOneMore<S>(env: Env<S>, db: Database<S>, downFiles: seq<File>, steps: nat, files: seq<File>)
    requires SortedById(files) && IsPrefix(db.applied, files) && steps > 0 && db.applied != []
    requires Revert(env, db, downFiles).error.None?
    requires CanBeFinished(env, Revert(env, db, downFiles).db, downFiles, steps - 1)
    ensures CanBeFinished(env, db, downFiles, steps)
  {
    var next := Revert(env, db, downFiles);
    assert Revert(Reliable(env), db, downFiles) == next;
    DownAddsName(env, db, downFiles, steps, files);
    DownAddsName(Reliable(env), db, downFiles, steps, files);
  }

  lemma DownAddsName<S>(env: Env<S>, db: Database<S>, downFiles: seq<File>, steps: nat, files: seq<File>)
    requires SortedById(files) && IsPrefix(db.applied, files) && steps > 0 && db.applied != []
    requires Revert(env, db, downFiles).error.None?
    ensures var f := FindFile(downFiles, db.applied[|db.applied| - 1].id);
            f.Some? && Down(env, db, downFiles, steps)
                       == After([f.value.filename], Down(env, Revert(env, db, downFiles).db, downFiles, steps - 1))
  {
    RevertsLast(env, db, downFiles, files);
  }

  lemma FinishedFromHere<S>(env: Env<S>, db: Database<S>, downFiles: seq<File>, steps: nat, files: seq<File>)
    requires SortedById(files) && IsPrefix(db.applied, files) && steps > 0 && db.applied != []
    requires Revert(env, db, downFiles).error.Some?
    ensures CanBeFinished(env, db, downFiles, steps)
  {
    DownFirst(env, db, downFiles, steps, files);
    var next := Revert(env, db, downFiles);
    if next.error == Some(SchemaBehind) {
      DownFirst(Reliable(env), db, downFiles, steps, files);
      RevertsLast(Reliable(env), db, downFiles, files);
    } else if next.error != Some(DeleteFailed) {
      DownFirst(Reliable(env), db, downFiles, steps, files);
    }
  }

  lemma {:induction false} InterruptedDownFinishes<S>(env: Env<S>, db: Database<S>, downFiles: seq<File>, steps: nat,
                                                      files: seq<File>)
    requires SortedById(files) && IsPrefix(db.applied, files)
    ensures CanBeFinished(env, db, downFiles, steps)
    decreases steps
  {
    if steps > 0 && db.applied != [] {
      var next := Revert(env, db, downFiles);
      if next.error.None? {
        RevertsLast(env, db, downFiles, files);
        InterruptedDownFinishes(env, next.db, downFiles, steps - 1, files);
        FinishedAfterOneMore(env, db, downFiles, steps, files);
      } else {
        FinishedFromHere(env, db, downFiles, steps, files);
      }
    }
  }

  // Each command meets its own world: a script or a record may fail in one and succeed in the next.
  datatype Command<!S> =
    | MigrateUp(env: Env<S>, files: seq<File>)
    | MigrateDown(env: Env<S>, downFiles: seq<File>, steps: nat)

  // The ids present at some point; later directories only add larger ones at the end. Contents may
  // change, which is what the checksum is there to notice.
  ghost predicate Extends(files: seq<File>, ids: seq<nat>) {
    |ids| <= |files| && forall i :: 0 <= i < |ids| ==> files[i].id == ids[i]
  }

  ghost predicate GrowingFiles<S>(commands: seq<Command<S>>) {
    && (forall k :: 0 <= k < |commands| && commands[k].MigrateUp? ==> SortedById(commands[k].files))
    && (forall k, l :: 0 <= k < l < |commands| && commands[k].MigrateUp? && commands[l].MigrateUp?
          ==> Extends(commands[l].files, Ids(commands[k].files)))
  }

  function Ids(files: seq<File>): seq<nat> { seq(|files|, i requires 0 <= i < |files| => files[i].id) }

  function RunCommands<S>(db: Database<S>, commands: seq<Command<S>>): Database<S> {
    if commands == [] then db
    else
      var before := RunCommands(db, commands[..|commands| - 1]);
      match commands[|commands| - 1]
      case MigrateUp(env, files) => Up(env, before, files).db
      case MigrateDown(env, downFiles, steps) => Down(env, before, downFiles, steps).db
  }

  // In every run of ups and downs, failing ones included, the applied set is a prefix of the files
  // in id order.
  lemma {:induction false} AppliedIsAlwaysPrefix<S>(schema: S, commands: seq<Command<S>>, latest: seq<File>)
    requires GrowingFiles(commands) && SortedById(latest)
    requires forall k :: 0 <= k < |commands| && commands[k].MigrateUp? ==> Extends(latest, Ids(commands[k].files))
    ensures IsPrefix(RunCommands(Database(schema, []), commands).applied, latest)
  {
    if commands != [] {
      var n := |commands| - 1;
      var init := commands[..n];
      match commands[n]
      case MigrateUp(env, files) =>
        AppliedIsAlwaysPrefix(schema, init, files);
        var db := RunCommands(Database(schema, []), init);
        UpKeepsPrefix(env, db, db.applied, files, 0);
        var applied := Up(env, db, files).db.applied;
        forall i | 0 <= i < |applied| ensures applied[i].id == latest[i].id { assert Ids(files)[i] == files[i].id; }
      case MigrateDown(env, downFiles, steps) =>
        AppliedIsAlwaysPrefix(schema, init, latest);
        DownKeepsPrefix(env, RunCommands(Database(schema, []), init), downFiles, steps, latest);
    }
  }

  // A checksum refusal changes nothing, although it may come after many files were visited.
  lemma RefusalChangesNothing<S>(env: Env<S>, db: Database<S>, files: seq<File>)
    requires SortedById(files) && IsPrefix(db.applied, files)
    requires Up(env, db, files).error == Some(ChangedAfterApplication)
    ensures Up(env, db, files).db == db && Up(env, db, files).done == []
  {
    RefusedUntouched(env, db, db.applied, files, 0);
  }

  // ---------------------------------------------------------------- repeating and undoing

  // The recorded checksums are those of the files' present contents.
  ghost predicate ChecksumsMatch(digest: string -> string, applied: seq<Record>, files: seq<File>)
    requires IsPrefix(applied, files)
  {
    forall i :: 0 <= i < |applied| ==> applied[i].checksum == digest(files[i].sql)
  }

  lemma RecordMatches<S>(env: Env<S>, db: Database<S>, known: seq<Record>, files: seq<File>, i: nat)
    requires SortedById(files) && IsPrefix(db.applied, files) && |known| <= |db.applied| == i < |files|
    requires db.applied[..|known|] == known && ChecksumsMatch(env.digest, db.applied, files)
    requires Apply(env, db, files[i]).error.None?
    ensures var next := Apply(env, db, files[i]).db;
            && |next.applied| == i + 1 && next.applied[..|known|] == known
            && IsPrefix(next.applied, files) && ChecksumsMatch(env.digest, next.applied, files)
  {
    ApplyNext(env, db, files, i);
    assert Apply(env, db, files[i]).db.applied[..|known|] == db.applied[..|known|];
  }

  lemma {:induction false} UpRecordsChecksums<S>(env: Env<S>, db: Database<S>, known: seq<Record>, files: seq<File>,
                                                 i: nat)
    requires SortedById(files) && i <= |files| && IsPrefix(known, files) && IsPrefix(db.applied, files)
    requires |db.applied| == if i < |known| then |known| else i
    requires db.applied[..|known|] == known
    requires forall k :: 0 <= k < |db.applied| && (k < i || k >= |known|) ==>
                           db.applied[k].checksum == env.digest(files[k].sql)
    requires UpFrom(env, db, known, files, i).error.None?
    ensures IsPrefix(UpFrom(env, db, known, files, i).db.applied, files)
    ensures ChecksumsMatch(env.digest, UpFrom(env, db, known, files, i).db.applied, files)
    decreases |files| - i
  {
    if i < |files| {
      if i < |known| {
        UpSkips(env, db, known, files, i);
        assert db.applied[i] == db.applied[..|known|][i];
        UpRecordsChecksums(env, db, known, files, i + 1);
      } else {
        UpNext(env, db, known, files, i);
        RecordMatches(env, db, known, files, i);
        UpRecordsChecksums(env, Apply(env, db, files[i]).db, known, files, i + 1);
      }
    }
  }

  lemma {:induction false} NothingLeft<S>(env: Env<S>, db: Database<S>, files: seq<File>, i: nat)
    requires SortedById(files) && i <= |files| == |db.applied| && IsPrefix(db.applied, files)
    requires ChecksumsMatch(env.digest, db.applied, files)
    ensures UpFrom(env, db, db.applied, files, i) == Outcome(db, [], None)
    decreases |files| - i
  {
    if i < |files| {
      UpSkips(env, db, db.applied, files, i);
      NothingLeft(env, db, files, i + 1);
    }
  }

  // After a successful up, a second one applies nothing.
  lemma SecondUpAppliesNothing<S>(env: Env<S>, db: Database<S>, files: seq<File>)
    requires SortedById(files) && IsPrefix(db.applied, files) && Up(env, db, files).error.None?
    ensures var db' := Up(env, db, files).db;
            Up(env, db', files) == Outcome(db', [], None)
  {
    UpKeepsPrefix(env, db, db.applied, files, 0);
    UpRecordsChecksums(env, db, db.applied, files, 0);
    NothingLeft(env, Up(env, db, files).db, files, 0);
  }

  // Every up script has a down file that undoes it, whatever schema it ran on.
  ghost predicate Inverts<S(!new)>(env: Env<S>, files: seq<File>, downFiles: seq<File>) {
    forall i {:trigger InvertsFile(env, files[i], downFiles)} ::
      0 <= i < |files| ==> InvertsFile(env, files[i], downFiles)
  }

  ghost predicate InvertsFile<S(!new)>(env: Env<S>, f: File, downFiles: seq<File>) {
    && FindFile(downFiles, f.id).Some?
    && forall s :: env.run(f.sql, s).Some? ==>
                     env.run(FindFile(downFiles, f.id).value.sql, env.run(f.sql, s).value) == Some(s)
  }

  // Rolling back in two stretches is rolling back in one.
  lemma {:induction false} DownSplits<S>(env: Env<S>, db: Database<S>, downFiles: seq<File>, a: nat, b: nat,
                                         files: seq<File>)
    requires SortedById(files) && IsPrefix(db.applied, files)
    requires Down(env, db, downFiles, a).error.None? && a <= |db.applied|
    ensures Down(env, db, downFiles, a + b).db == Down(env, Down(env, db, downFiles, a).db, downFiles, b).db
    ensures Down(env, db, downFiles, a + b).error == Down(env, Down(env, db, downFiles, a).db, downFiles, b).error
    decreases a
  {
    if a > 0 {
      DownFirst(env, db, downFiles, a, files);
      DownFirst(env, db, downFiles, a + b, files);
      RevertsLast(env, db, downFiles, files);
      DownSplits(env, Revert(env, db, downFiles).db, downFiles, a - 1, b, files);
    }
  }

  lemma DownOne<S(!new)>(env: Env<S>, db: Database<S>, files: seq<File>, downFiles: seq<File>, i: nat, schema: S)
    requires SortedById(files) && IsPrefix(db.applied, files) && |db.applied| == i + 1 <= |files|
    requires InvertsFile(env, files[i], downFiles) && env.run(files[i].sql, schema) == Some(db.schema)
    ensures Down(Reliable(env), db, downFiles, 1).db == Database(schema, db.applied[..i])
            && Down(Reliable(env), db, downFiles, 1).error.None?
  {
    DownFirst(Reliable(env), db, downFiles, 1, files);
    RevertsLast(Reliable(env), db, downFiles, files);
    assert db.applied[i].id == files[i].id;
    assert Revert(Reliable(env), db, downFiles) == Step(Database(schema, db.applied[..i]), None);
  }

  // Rolling back as many steps as were applied, all records deleted, leads back to `db`.
  ghost predicate Undone<S(!new)>(env: Env<S>, out: Database<S>, downFiles: seq<File>, steps: nat, db: Database<S>) {
    var undone := Down(Reliable(env), out, downFiles, steps);
    undone.db == db && undone.error.None?
  }

  // If the later files can be undone back to `next`, one more step undoes the file that led there.
  lemma DownOneMore<S(!new)>(env: Env<S>, db: Database<S>, files: seq<File>, downFiles: seq<File>, i: nat,
                             out: Outcome<S>)
    requires SortedById(files) && IsPrefix(db.applied, files) && |db.applied| == i < |files|
    requires InvertsFile(env, files[i], downFiles)
    requires Apply(env, db, files[i]).error.None? && |out.db.applied| >= |out.done|
    requires IsPrefix(out.db.applied, files) && |out.db.applied| == i + 1 + |out.done|
    requires Undone(env, out.db, downFiles, |out.done|, Apply(env, db, files[i]).db)
    ensures Undone(env, out.db, downFiles, |out.done| + 1, db)
  {
    ApplyNext(env, db, files, i);
    var next := Apply(env, db, files[i]).db;
    DownSplits(Reliable(env), out.db, downFiles, |out.done|, 1, files);
    DownOne(env, next, files, downFiles, i, db.schema);
    assert next.applied[..i] == db.applied;
  }

  // A script with its own transaction whose record failed is undone by hand: its down script, nothing
  // else. Any other outcome is taken as it is.
  ghost function Repaired<S(!new)>(env: Env<S>, out: Outcome<S>, files: seq<File>, downFiles: seq<File>): Outcome<S> {
    if out.error != Some(SchemaAhead) || |out.db.applied| >= |files| then out
    else
      var f := FindFile(downFiles, files[|out.db.applied|].id);
      if f.None? || env.run(f.value.sql, out.db.schema).None? then out
      else out.(db := Database(env.run(f.value.sql, out.db.schema).value, out.db.applied))
  }

  lemma RepairedStep<S(!new)>(env: Env<S>, db: Database<S>, files: seq<File>, downFiles: seq<File>, i: nat,
                              out: Outcome<S>, rest: Outcome<S>)
    requires SortedById(files) && IsPrefix(db.applied, files) && |db.applied| == i < |files|
    requires InvertsFile(env, files[i], downFiles) && Apply(env, db, files[i]).error.None?
    requires Grown(rest, Apply(env, db, files[i]).db, files)
    requires out.db == rest.db && |out.done| == |rest.done| + 1 && out.error == rest.error
    requires Undone(env, Repaired(env, rest, files, downFiles).db, downFiles, |rest.done|, Apply(env, db, files[i]).db)
    ensures Undone(env, Repaired(env, out, files, downFiles).db, downFiles, |out.done|, db)
  {
    ApplyNext(env, db, files, i);
    DownOneMore(env, db, files, downFiles, i, Repaired(env, rest, files, downFiles));
  }

  ghost predicate Undoes<S(!new)>(env: Env<S>, out: Outcome<S>, files: seq<File>, downFiles: seq<File>,
                                  db: Database<S>) {
    Undone(env, Repaired(env, out, files, downFiles).db, downFiles, |out.done|, db)
  }

  lemma FailedIsRepaired<S(!new)>(env: Env<S>, db: Database<S>, known: seq<Record>, files: seq<File>,
                                  downFiles: seq<File>, i: nat)
    requires SortedById(files) && IsPrefix(db.applied, files) && IsPrefix(known, files)
    requires |known| <= |db.applied| == i < |files|
    requires Inverts(env, files, downFiles) && Apply(env, db, files[i]).error.Some?
    ensures Undoes(env, UpFrom(env, db, known, files, i), files, downFiles, db)
  {
    assert InvertsFile(env, files[i], downFiles);
    FoundInPrefix(db.applied, files, i);
    UpNext(env, db, known, files, i);
    var next := Apply(env, db, files[i]);
    assert Repaired(env, Outcome(next.db, [], next.error), files, downFiles).db == db;
  }

  lemma AppliedIsUndone<S(!new)>(env: Env<S>, db: Database<S>, known: seq<Record>, files: seq<File>,
                                 downFiles: seq<File>, i: nat)
    requires SortedById(files) && IsPrefix(db.applied, files) && IsPrefix(known, files)
    requires |known| <= |db.applied| == i < |files|
    requires Inverts(env, files, downFiles) && Apply(env, db, files[i]).error.None?
    requires var next := Apply(env, db, files[i]).db;
             Undoes(env, UpFrom(env, next, known, files, i + 1), files, downFiles, next)
    ensures Undoes(env, UpFrom(env, db, known, files, i), files, downFiles, db)
  {
    UpNext(env, db, known, files, i);
    ApplyNext(env, db, files, i);
    var next := Apply(env, db, files[i]).db;
    assert InvertsFile(env, files[i], downFiles);
    UpKeepsPrefix(env, next, known, files, i + 1);
    var out, rest := UpFrom(env, db, known, files, i), UpFrom(env, next, known, files, i + 1);
    RepairedStep(env, db, files, downFiles, i, out, rest);
  }

  lemma NothingToUndo<S(!new)>(env: Env<S>, db: Database<S>, known: seq<Record>, files: seq<File>,
                               downFiles: seq<File>)
    ensures Undoes(env, UpFrom(env, db, known, files, |files|), files, downFiles, db)
  {
    assert Undoes(env, Outcome(db, [], None), files, downFiles, db);
  }

  // Undoing what UpFrom did from position i on, where i >= |known|.
  lemma {:induction false} DownUndoesFrom<S(!new)>(env: Env<S>, db: Database<S>, known: seq<Record>, files: seq<File>,
                                                   downFiles: seq<File>, i: nat)
    requires SortedById(files) && |known| <= i <= |files| && IsPrefix(known, files) && IsPrefix(db.applied, files)
    requires |db.applied| == i && Inverts(env, files, downFiles)
    ensures Undoes(env, UpFrom(env, db, known, files, i), files, downFiles, db)
    decreases |files| - i
  {
    if i < |files| {
      if Apply(env, db, files[i]).error.None? {
        OneMoreApplied(env, db, files, i);
        DownUndoesFrom(env, Apply(env, db, files[i]).db, known, files, downFiles, i + 1);
        AppliedIsUndone(env, db, known, files, downFiles, i);
      } else {
        FailedIsRepaired(env, db, known, files, downFiles, i);
      }
    } else {
      NothingToUndo(env, db, known, files, downFiles);
    }
  }

  // Skipping the known files leads to the same place as starting after them.
  lemma {:induction false} UpSkipsKnown<S>(env: Env<S>, db: Database<S>, files: seq<File>, i: nat)
    requires SortedById(files) && IsPrefix(db.applied, files) && i <= |db.applied|
    requires UpFrom(env, db, db.applied, files, i).error != Some(ChangedAfterApplication)
    ensures UpFrom(env, db, db.applied, files, i) == UpFrom(env, db, db.applied, files, |db.applied|)
    decreases |db.applied| - i
  {
    if i < |db.applied| {
      UpSkips(env, db, db.applied, files, i);
      UpSkipsKnown(env, db, files, i + 1);
    }
  }

  // When down scripts invert up scripts, rolling back the files an up applied restores the schema and the
  // table, after a failure midway too; only if a script with its own transaction went through and its
  // record did not, that script has to be undone by hand first.
  lemma DownUndoesUp<S(!new)>(env: Env<S>, db: Database<S>, files: seq<File>, downFiles: seq<File>)
    requires SortedById(files) && IsPrefix(db.applied, files) && Inverts(env, files, downFiles)
    ensures Undoes(env, Up(env, db, files), files, downFiles, db)
    ensures var out := Up(env, db, files);
            out.error != Some(SchemaAhead) ==> Undone(env, out.db, downFiles, |out.done|, db)
  {
    RefusedUntouched(env, db, db.applied, files, 0);
    if Up(env, db, files).error != Some(ChangedAfterApplication) {
      UpSkipsKnown(env, db, files, 0);
      DownUndoesFrom(env, db, db.applied, files, downFiles, |db.applied|);
    }
  }

  // If the schema is ahead of the table, then by the next file, which has its own transaction and whose
  // record failed.
  ghost predicate AheadExplained<S>(env: Env<S>, out: Outcome<S>, files: seq<File>) {
    out.error == Some(SchemaAhead) ==>
      var n := |out.db.applied|;
      n < |files| && OwnTransaction(env, files[n].sql) && env.recordFails(files[n])
  }

  lemma AheadByNext<S>(env: Env<S>, db: Database<S>, known: seq<Record>, files: seq<File>, i: nat)
    requires SortedById(files) && IsPrefix(known, files) && IsPrefix(db.applied, files)
    requires |known| <= |db.applied| == i < |files|
    requires var next := Apply(env, db, files[i]);
             next.error.None? ==> AheadExplained(env, UpFrom(env, next.db, known, files, i + 1), files)
    ensures AheadExplained(env, UpFrom(env, db, known, files, i), files)
  {
    UpNext(env, db, known, files, i);
    ApplyNext(env, db, files, i);
    FoundInPrefix(db.applied, files, i);
  }

  // The schema gets ahead of the table only through a file with its own transaction whose record fails.
  lemma {:induction false} AheadNeedsOwnTransaction<S>(env: Env<S>, db: Database<S>, known: seq<Record>,
                                                       files: seq<File>, i: nat)
    requires SortedById(files) && i <= |files| && IsPrefix(known, files) && IsPrefix(db.applied, files)
    requires |db.applied| == if i < |known| then |known| else i
    ensures AheadExplained(env, UpFrom(env, db, known, files, i), files)
    decreases |files| - i
  {
    if i < |known| {
      AheadNeedsOwnTransaction(env, db, known, files, i + 1);
      UpSkips(env, db, known, files, i);
    } else if i < |files| {
      OneMoreApplied(env, db, files, i);
      if Apply(env, db, files[i]).error.None? {
        AheadNeedsOwnTransaction(env, Apply(env, db, files[i]).db, known, files, i + 1);
      }
      AheadByNext(env, db, known, files, i);
    }
  }

  // A schema that counts how often up scripts ran and goes down by one with every down script, all of
  // which commit by themselves; records fail or not.
  function Counting(fails: bool): Env<int> {
    Env((sql: string, n: int) => Some(if sql == "BEGIN; DOWN; COMMIT" then n - 1 else n + 1), (sql: string) => true,
        (sql: string) => sql, (f: File) => fails, (r: Record) => fails)
  }

  // The record of a file with its own BEGIN fails: the next up runs the script a second time.
  lemma OwnTransactionRunsTwice()
    ensures var files := [File(1, "0001_a.sql", "BEGIN; UP; COMMIT")];
            var first := Up(Counting(true), Database(0, []), files);
            && first == Outcome(Database(1, []), [], Some(SchemaAhead))
            && Up(Counting(false), first.db, files).db.schema == 2
            && Up(Counting(false), first.db, files).done == ["0001_a.sql"]
  {
    var f := File(1, "0001_a.sql", "BEGIN; UP; COMMIT");
    var again, db := Up(Counting(false), Database(1, []), [f]), Apply(Counting(false), Database(1, []), f).db;
    assert again == After([f.filename], UpFrom(Counting(false), db, [], [f], 1));
  }

  // The deletion of a record fails after a down script with its own COMMIT: the next down runs the script
  // a second time.
  lemma OwnCommitRollsBackTwice()
    ensures var downFiles := [File(1, "0001_a.down.sql", "BEGIN; DOWN; COMMIT")];
            var db := Database(1, [Record(1, "0001_a.sql", "UP")]);
            var first := Down(Counting(true), db, downFiles, 1);
            && first == Outcome(Database(0, db.applied), [], Some(SchemaBehind))
            && Down(Counting(false), first.db, downFiles, 1).db == Database(-1, [])
            && Down(Counting(false), first.db, downFiles, 1).done == ["0001_a.down.sql"]
  {
    var f, r := File(1, "0001_a.down.sql", "BEGIN; DOWN; COMMIT"), Record(1, "0001_a.sql", "UP");
    assert [r][..0] == [] && Delete([r], 1) == Delete([], 1) == [];
    assert RollBack(Counting(false), Database(0, [r]), r, f) == Step(Database(-1, []), None);
    var again := Down(Counting(false), Database(0, [r]), [f], 1);
    assert again == After([f.filename], DownFrom(Counting(false), Database(-1, []), [], [f], 0));
  }
}
