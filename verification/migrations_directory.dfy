/** The migrations directory of the migration engine
    (migration-engine/connectors/migration-connector/src/migrations_directory.rs):
    the lock file that pins the database provider, the `{timestamp}_{name}`
    naming of new migration directories, and the listing rule.

    The file system is an input: the lock file is its content (absent when
    it cannot be read), the directory listing is what `read_dir` yields, and
    the clock is the already formatted timestamp. */
module MigrationsDirectory {
  import opened Wrappers
  import opened Strings

  datatype IoErrorKind = NotFound | AlreadyExists | OtherKind

  datatype IoError = IoError(kind: IoErrorKind, message: string)

  // ---------------------------------------------------------------------
  // Lines of text

  /** The length of the first line of `s`: the index of its first `\n`, or `|s|`. */
  function LineEnd(s: string): (k: nat)
    ensures k <= |s|
    ensures k < |s| ==> s[k] == '\n'
    ensures forall j :: 0 <= j < k ==> s[j] != '\n'
  {
    if s == [] || s[0] == '\n' then 0 else 1 + LineEnd(s[1..])
  }

  /** A line ended by `\r\n` loses its `\r`. */
  function StripCr(line: string): string {
    if |line| > 0 && line[|line| - 1] == '\r' then line[..|line| - 1] else line
  }

  /** `str::lines` as Rust before 1.77 defines it: the text split at each
      `\n`, a final `\n` ending the last line rather than starting an empty
      one, and one trailing `\r` dropped from every line, the last included. */
  function Lines(s: string): (ls: seq<string>)
    ensures s == [] <==> ls == []
    ensures forall i :: 0 <= i < |ls| ==> '\n' !in ls[i]
    ensures |ls| <= |s|
    decreases |s|
  {
    if s == [] then []
    else
      var k := LineEnd(s);
      if k == |s| then
        assert forall j :: 0 <= j < |s| ==> s[j] != '\n';
        assert StripCr(s) == s || StripCr(s) == s[..|s| - 1];
        [StripCr(s)]
      else
        var line := StripCr(s[..k]);
        assert line == s[..k] || line == s[..k][..k - 1];
        assert '\n' !in line;
        var rest := Lines(s[k + 1..]);
        assert forall i :: 1 <= i < |rest| + 1 ==> ([line] + rest)[i] == rest[i - 1];
        [line] + rest
  }

  /** A last line ended by a bare `\r` loses it too. */
  lemma LastLineDropsCr(line: string)
    requires '\n' !in line
    ensures Lines(line + "\r") == [line]
  {
    var s := line + "\r";
    LineEndOf(s, []);
    assert s + [] == s;
    assert s[..|s| - 1] == line;
  }

  /** Lines joined by `\n`, none of them holding a line break, read back as
      themselves, provided none ends in `\r` and the last is not empty. */
  lemma {:induction false} LinesOfJoined(ls: seq<string>)
    requires |ls| > 0
    requires forall i :: 0 <= i < |ls| ==> '\n' !in ls[i]
    requires |ls[|ls| - 1]| > 0
    requires forall i :: 0 <= i < |ls| ==> (|ls[i]| == 0 || ls[i][|ls[i]| - 1] != '\r')
    ensures Lines(Joined(ls)) == ls
    decreases |ls|
  {
    if |ls| > 1 {
      assert forall i :: 0 <= i < |ls| - 1 ==> ls[1..][i] == ls[i + 1];
      LinesOfJoined(ls[1..]);
      JoinedStep(ls);
    } else {
      assert Joined(ls) == ls[0] + [];
      LineEndOf(ls[0], []);
      assert StripCr(ls[0]) == ls[0];
    }
  }

  /** One more line in front: if the rest reads back, so does the whole. */
  lemma JoinedStep(ls: seq<string>)
    requires |ls| > 1 && '\n' !in ls[0] && (|ls[0]| == 0 || ls[0][|ls[0]| - 1] != '\r')
    requires Lines(Joined(ls[1..])) == ls[1..]
    ensures Lines(Joined(ls)) == ls
  {
    var tail := Joined(ls[1..]);
    assert Joined(ls) == ls[0] + (['\n'] + tail);
    LinesCons(ls[0], tail);
    assert StripCr(ls[0]) == ls[0];
    assert ls == [ls[0]] + ls[1..];
  }

  /** A line without a break, then a break, splits off as the first line,
      less a `\r` it ends in. */
  lemma LinesCons(first: string, tail: string)
    requires '\n' !in first
    ensures Lines(first + (['\n'] + tail)) == [StripCr(first)] + Lines(tail)
  {
    var s := first + (['\n'] + tail);
    LineEndOf(first, ['\n'] + tail);
    assert s[..|first|] == first;
    assert s[|first| + 1..] == tail;
  }

  /** A line ended by `\r\n` reads as the line alone, whatever it holds. */
  lemma CrlfLine(line: string, tail: string)
    requires '\n' !in line
    ensures Lines(line + "\r\n" + tail) == [line] + Lines(tail)
  {
    var first := line + ['\r'];
    assert '\n' !in first;
    CrlfRegroup(line, tail);
    LinesCons(first, tail);
    assert first[..|first| - 1] == line;
  }

  lemma CrlfRegroup(line: string, tail: string)
    ensures line + "\r\n" + tail == (line + ['\r']) + (['\n'] + tail)
  {
    assert "\r\n" == ['\r'] + ['\n'];
    AppendAssoc(line, ['\r'], ['\n']);
    AppendAssoc(line + ['\r'], ['\n'], tail);
  }

  /** The line break after a line without one is found right after it. */
  lemma LineEndOf(line: string, rest: string)
    requires '\n' !in line
    requires rest == [] || rest[0] == '\n'
    ensures LineEnd(line + rest) == |line|
  {
    var s := line + rest;
    assert forall j :: 0 <= j < |line| ==> s[j] == line[j] && line[j] in line;
    if rest != [] {
      assert s[|line|] == '\n';
    }
  }

  /** Lines joined with `\n` between them. */
  function Joined(ls: seq<string>): string {
    if ls == [] then []
    else if |ls| == 1 then ls[0]
    else ls[0] + ['\n'] + Joined(ls[1..])
  }

  /** `Iterator::find` with `str::starts_with`: the first line with the prefix. */
  function FindLine(lines: seq<string>, prefix: string): (r: Option<string>)
    ensures r.None? <==> forall i :: 0 <= i < |lines| ==> !StartsWith(lines[i], prefix)
    ensures r.Some? ==> exists i :: 0 <= i < |lines| && lines[i] == r.value && StartsWith(r.value, prefix)
                                    && forall j :: 0 <= j < i ==> !StartsWith(lines[j], prefix)
  {
    if lines == [] then None
    else if StartsWith(lines[0], prefix) then Some(lines[0])
    else
      var r := FindLine(lines[1..], prefix);
      assert forall i :: 1 <= i < |lines| ==> lines[i] == lines[1..][i - 1];
      if r.Some? then
        var i :| 0 <= i < |lines[1..]| && lines[1..][i] == r.value && StartsWith(r.value, prefix)
                 && forall j :: 0 <= j < i ==> !StartsWith(lines[1..][j], prefix);
        assert lines[i + 1] == r.value;
        r
      else r
  }

  // ---------------------------------------------------------------------
  // Trimming

  /** `k` copies of `pat`, one after another. */
  function Rep(pat: string, k: nat): string {
    if k == 0 then [] else pat + Rep(pat, k - 1)
  }

  /** One more copy of `pat` in front of a string made of `k` copies and a rest. */
  lemma RepStep(s: string, pat: string, r: string)
    requires |pat| <= |s| && s[..|pat|] == pat
    requires exists k: nat :: s[|pat|..] == Rep(pat, k) + r
    ensures exists k: nat :: s == Rep(pat, k) + r
  {
    var k: nat :| s[|pat|..] == Rep(pat, k) + r;
    RepCons(s, pat, Rep(pat, k) + r);
    assert Rep(pat, k + 1) == pat + Rep(pat, k);
    AppendAssoc(pat, Rep(pat, k), r);
  }

  lemma RepCons(s: string, pat: string, t: string)
    requires |pat| <= |s| && s[..|pat|] == pat && s[|pat|..] == t
    ensures s == pat + t
  {
    assert s == s[..|pat|] + s[|pat|..];
  }

  lemma {:induction false} RepSnoc(pat: string, k: nat)
    ensures Rep(pat, k) + pat == Rep(pat, k + 1)
  {
    if k > 0 {
      RepSnoc(pat, k - 1);
    }
  }

  /** `str::trim_start_matches` with a string pattern: every leading copy
      removed and nothing else. */
  function TrimStartMatches(s: string, pat: string): (r: string)
    ensures exists k: nat :: s == Rep(pat, k) + r
    ensures pat != [] ==> !StartsWith(r, pat)
    decreases |s|
  {
    if pat != [] && StartsWith(s, pat) then
      var r := TrimStartMatches(s[|pat|..], pat);
      RepStep(s, pat, r);
      r
    else
      assert s == Rep(pat, 0) + s;
      s
  }

  function TrimStart(s: string, c: char): (r: string)
    ensures exists a: nat :: s == Rep([c], a) + r
    ensures r == [] || r[0] != c
  {
    if s != [] && s[0] == c then
      var r := TrimStart(s[1..], c);
      RepStep(s, [c], r);
      r
    else
      assert s == Rep([c], 0) + s;
      s
  }

  function TrimEnd(s: string, c: char): (r: string)
    ensures exists b: nat :: s == r + Rep([c], b)
    ensures r == [] || r[|r| - 1] != c
  {
    if s != [] && s[|s| - 1] == c then
      var r := TrimEnd(s[..|s| - 1], c);
      var b: nat :| s[..|s| - 1] == r + Rep([c], b);
      RepSnoc([c], b);
      assert s == s[..|s| - 1] + [c];
      assert s == r + Rep([c], b + 1);
      r
    else
      assert s == s + Rep([c], 0);
      s
  }

  /** `str::trim_matches` with a character: every leading and trailing copy
      removed and nothing else; a string already free of them at both ends
      is kept whole. */
  function TrimMatches(s: string, c: char): (r: string)
    ensures exists a: nat, b: nat :: s == Rep([c], a) + r + Rep([c], b)
    ensures r == [] || (r[0] != c && r[|r| - 1] != c)
    ensures (s == [] || (s[0] != c && s[|s| - 1] != c)) ==> r == s
  {
    TrimBoth(s, c);
    TrimEnd(TrimStart(s, c), c)
  }

  /** Trimming the start and then the end leaves a middle with only `c` around it. */
  lemma TrimBoth(s: string, c: char)
    ensures var r := TrimEnd(TrimStart(s, c), c);
      && (exists a: nat, b: nat :: s == Rep([c], a) + r + Rep([c], b))
      && (r == [] || (r[0] != c && r[|r| - 1] != c))
      && ((s == [] || (s[0] != c && s[|s| - 1] != c)) ==> r == s)
  {
    var t := TrimStart(s, c);
    var r := TrimEnd(t, c);
    var a: nat :| s == Rep([c], a) + t;
    var b: nat :| t == r + Rep([c], b);
    assert s == Rep([c], a) + r + Rep([c], b);
    if r != [] {
      assert r[0] == t[0];
    }
  }

  lemma TrimStartCons(c: char, x: string)
    ensures TrimStart([c] + x, c) == TrimStart(x, c)
  {
    assert ([c] + x)[1..] == x;
  }

  lemma TrimEndSnoc(c: char, x: string)
    ensures TrimEnd(x + [c], c) == TrimEnd(x, c)
  {
    assert (x + [c])[..|x|] == x;
  }

  /** Quoting a string not already quoted and trimming the quotes gives it back. */
  lemma TrimMatchesQuoted(p: string, c: char)
    requires p == [] || (p[0] != c && p[|p| - 1] != c)
    ensures TrimMatches([c] + p + [c], c) == p
  {
    assert [c] + p + [c] == [c] + (p + [c]);
    TrimStartCons(c, p + [c]);
    if p == [] {
      assert p + [c] == [c] + [];
      TrimStartCons(c, []);
    } else {
      assert (p + [c])[0] == p[0];
      TrimEndSnoc(c, p);
    }
  }

  // ---------------------------------------------------------------------
  // The lock file

  const LockHeader1 := "# Please do not edit this file manually"
  const LockHeader2 := "# It should be added in your " + "version-control system (i.e. Git)"
  const ProviderNotFound := "<PROVIDER NOT FOUND>"

  function ProviderLine(provider: string): string {
    "provider = \"" + provider + "\""
  }

  /** `write_migration_lock_file`'s content: two comment lines and the provider
      line, with no line break after the last one. */
  function LockFileContent(provider: string): (content: string)
    ensures '\n' !in provider ==> Lines(content) == [LockHeader1, LockHeader2, ProviderLine(provider)]
    ensures |content| > 0 && content[|content| - 1] == '"'
  {
    LockFileLines(provider);
    var head := LockHeader1 + "\n" + LockHeader2 + "\n";
    assert (head + ProviderLine(provider))[|head + ProviderLine(provider)| - 1] == ProviderLine(provider)[|ProviderLine(provider)| - 1];
    head + ProviderLine(provider)
  }

  /** A provider without a line break gives exactly the three lines. */
  lemma LockFileLines(provider: string)
    ensures '\n' !in provider ==>
              Lines(LockHeader1 + "\n" + LockHeader2 + "\n" + ProviderLine(provider))
                == [LockHeader1, LockHeader2, ProviderLine(provider)]
  {
    if '\n' !in provider {
      var line := ProviderLine(provider);
      assert '\n' !in line && |line| > 0 && line[|line| - 1] == '"';
      HeadersAreLines();
      ThreeLines(LockHeader1, LockHeader2, line);
    }
  }

  /** Three lines joined by line breaks read back as themselves. */
  lemma ThreeLines(h1: string, h2: string, line: string)
    requires '\n' !in h1 && '\n' !in h2 && '\n' !in line && |line| > 0 && line[|line| - 1] != '\r'
    requires |h1| > 0 && h1[|h1| - 1] != '\r' && |h2| > 0 && h2[|h2| - 1] != '\r'
    ensures Lines(h1 + "\n" + h2 + "\n" + line) == [h1, h2, line]
  {
    ThreeLinesShape(h1, h2, line);
    LinesOfJoined([h1, h2, line]);
    JoinedThree(h1, h2, line);
  }

  /** The three lines meet the conditions under which splitting undoes joining. */
  lemma ThreeLinesShape(h1: string, h2: string, line: string)
    requires '\n' !in h1 && '\n' !in h2 && '\n' !in line && |line| > 0 && line[|line| - 1] != '\r'
    requires |h1| > 0 && h1[|h1| - 1] != '\r' && |h2| > 0 && h2[|h2| - 1] != '\r'
    ensures var ls := [h1, h2, line];
      && (forall i :: 0 <= i < |ls| ==> '\n' !in ls[i])
      && |ls[|ls| - 1]| > 0
      && (forall i :: 0 <= i < |ls| ==> (|ls[i]| == 0 || ls[i][|ls[i]| - 1] != '\r'))
  {
    var ls := [h1, h2, line];
    forall i | 0 <= i < |ls|
      ensures '\n' !in ls[i]
      ensures |ls[i]| == 0 || ls[i][|ls[i]| - 1] != '\r'
    {
      assert ls[i] == if i == 0 then h1 else if i == 1 then h2 else line;
    }
  }

  lemma JoinedThree(h1: string, h2: string, line: string)
    ensures Joined([h1, h2, line]) == h1 + "\n" + h2 + "\n" + line
  {
    var ls := [h1, h2, line];
    assert Joined(ls[1..][1..]) == line;
    assert Joined(ls[1..]) == h2 + ['\n'] + line;
    AppendAssoc(h1 + ['\n'], h2 + ['\n'], line);
    AppendAssoc(h1, ['\n'], h2 + ['\n'] + line);
  }

  lemma HeadersAreLines()
    ensures '\n' !in LockHeader1 && '\n' !in LockHeader2
    ensures LockHeader1[|LockHeader1| - 1] != '\r' && LockHeader2[|LockHeader2| - 1] != '\r'
  {
    FirstHeaderIsLine();
    SecondHeaderIsLine();
  }

  lemma FirstHeaderIsLine()
    ensures '\n' !in LockHeader1
  {
  }

  lemma SecondHeaderIsLine()
    ensures '\n' !in LockHeader2
  {
  }

  const ProviderPrefix := "provider = "

  /** A provider line read back: `line` is some copies of `provider = `,
      then the value wrapped in some quotes, where the value neither starts
      nor ends with a quote and the part after the prefixes does not start
      with another prefix. These conditions pin `value` down uniquely. */
  ghost predicate UnwrapsTo(line: string, value: string) {
    && (value == [] || (value[0] != '"' && value[|value| - 1] != '"'))
    && exists k: nat, a: nat, b: nat ::
         && line == Rep(ProviderPrefix, k) + (Rep("\"", a) + value + Rep("\"", b))
         && !StartsWith(Rep("\"", a) + value + Rep("\"", b), ProviderPrefix)
  }

  /** The provider a lock file names: the first line starting with `provider`,
      stripped of its `provider = ` prefixes and of surrounding quotes; a fixed
      marker when there is no such line. */
  function FoundProvider(content: string): (r: string)
    ensures FindLine(Lines(content), "provider").None? ==> r == ProviderNotFound
    ensures FindLine(Lines(content), "provider").Some? ==> UnwrapsTo(FindLine(Lines(content), "provider").value, r)
  {
    match FindLine(Lines(content), "provider")
    case None => ProviderNotFound
    case Some(line) =>
      var rest := TrimStartMatches(line, ProviderPrefix);
      var r := TrimMatches(rest, '"');
      UnwrapsTrimmed(line, rest, r);
      r
  }

  lemma UnwrapsTrimmed(line: string, rest: string, r: string)
    requires rest == TrimStartMatches(line, ProviderPrefix)
    requires r == TrimMatches(rest, '"')
    ensures UnwrapsTo(line, r)
  {
    var k: nat :| line == Rep(ProviderPrefix, k) + rest;
    var a: nat, b: nat :| rest == Rep("\"", a) + r + Rep("\"", b);
    assert line == Rep(ProviderPrefix, k) + (Rep("\"", a) + r + Rep("\"", b));
  }

  /** `match_provider_in_lock_file`: nothing when the lock file cannot be read,
      a match, or the provider the lock file names instead. */
  function MatchProviderInLockFile(content: Option<string>, provider: string): (r: Option<Result<Unit, string>>)
    ensures r.None? <==> content.None?
    ensures r.Some? ==> (r.value.Ok? <==> FoundProvider(content.value) == provider)
    ensures r.Some? && r.value.Err? ==> r.value.error == FoundProvider(content.value)
  {
    match content
    case None => None
    case Some(text) =>
      var found := FoundProvider(text);
      Some(if found == provider then Ok(Unit) else Err(found))
  }

  datatype ProviderSwitched = ProviderSwitched(provider: string, expectedProvider: string)

  /** `error_on_changed_provider`: fine without a readable lock file or with a
      matching one; otherwise an error naming both providers. */
  function ErrorOnChangedProvider(content: Option<string>, provider: string): (r: Result<Unit, ProviderSwitched>)
    ensures r.Ok? <==> content.None? || FoundProvider(content.value) == provider
    ensures r.Err? ==> r.error == ProviderSwitched(provider, FoundProvider(content.value))
  {
    match MatchProviderInLockFile(content, provider)
    case None => Ok(Unit)
    case Some(Err(expectedProvider)) => Err(ProviderSwitched(provider, expectedProvider))
    case Some(Ok(_)) => Ok(Unit)
  }

  /** In the written lock file the provider line is the first to start with `provider`. */
  lemma LockFileProviderLine(provider: string)
    requires '\n' !in provider
    ensures FindLine(Lines(LockFileContent(provider)), "provider") == Some(ProviderLine(provider))
  {
    var ls := Lines(LockFileContent(provider));
    assert ls == [LockHeader1, LockHeader2, ProviderLine(provider)];
    CommentIsNotProvider(LockHeader1);
    CommentIsNotProvider(LockHeader2);
    assert StartsWith(ls[2], "provider") by { assert ls[2][..8] == "provider"; }
    assert ls[1..][1..] == [ProviderLine(provider)];
  }

  /** A comment line, such as either header, does not start with `provider`. */
  lemma CommentIsNotProvider(line: string)
    requires |line| > 0 && line[0] == '#'
    ensures !StartsWith(line, "provider")
  {
    if |line| >= 8 {
      assert line[..8][0] == '#';
    }
  }

  /** The provider line yields back the unquoted provider. */
  lemma ProviderLineValue(provider: string)
    requires provider == [] || (provider[0] != '"' && provider[|provider| - 1] != '"')
    ensures TrimMatches(TrimStartMatches(ProviderLine(provider), "provider = "), '"') == provider
  {
    var line := ProviderLine(provider);
    var rest := "\"" + provider + "\"";
    assert line == "provider = " + rest;
    assert StartsWith(line, "provider = ");
    assert line[11..] == rest;
    assert TrimStartMatches(line, "provider = ") == rest by {
      assert !StartsWith(rest, "provider = ") by { assert rest[0] == '"'; }
    }
    TrimMatchesQuoted(provider, '"');
    assert ['"'] + provider + ['"'] == rest;
  }

  /** A provider written to the lock file is read back, provided it is on one
      line and not itself quoted. */
  lemma LockFileRoundTrip(provider: string)
    requires '\n' !in provider
    requires provider == [] || (provider[0] != '"' && provider[|provider| - 1] != '"')
    ensures FoundProvider(LockFileContent(provider)) == provider
    ensures MatchProviderInLockFile(Some(LockFileContent(provider)), provider) == Some(Ok(Unit))
    ensures ErrorOnChangedProvider(Some(LockFileContent(provider)), provider) == Ok(Unit)
  {
    LockFileProviderLine(provider);
    ProviderLineValue(provider);
  }

  /** The lock file with every line break written as `\r\n`, as a checkout
      that converts line endings leaves it. */
  function CrlfLockFileContent(provider: string): string {
    LockHeader1 + "\r\n" + LockHeader2 + "\r\n" + ProviderLine(provider)
  }

  /** The `\r\n` lock file splits into the same lines as the one written. */
  lemma CrlfLockFileLines(provider: string)
    requires '\n' !in provider
    ensures Lines(CrlfLockFileContent(provider)) == Lines(LockFileContent(provider))
  {
    var line := ProviderLine(provider);
    HeadersAreLines();
    assert '\n' !in line && |line| > 0 && line[|line| - 1] == '"';
    CrlfThreeLines(LockHeader1, LockHeader2, line);
  }

  /** Three lines joined by `\r\n` read back as themselves. */
  lemma CrlfThreeLines(h1: string, h2: string, line: string)
    requires '\n' !in h1 && '\n' !in h2 && '\n' !in line && |line| > 0 && line[|line| - 1] != '\r'
    ensures Lines(h1 + "\r\n" + h2 + "\r\n" + line) == [h1, h2, line]
  {
    CrlfLine(h2, line);
    CrlfLine(h1, h2 + "\r\n" + line);
    LineEndOf(line, []);
    assert line + [] == line;
    AppendAssoc(h1 + "\r\n", h2 + "\r\n", line);
    AppendAssoc(h1 + "\r\n", h2, "\r\n");
  }

  /** A lock file whose line breaks became `\r\n` still names the provider written. */
  lemma CrlfLockFileRoundTrip(provider: string)
    requires '\n' !in provider
    requires provider == [] || (provider[0] != '"' && provider[|provider| - 1] != '"')
    ensures FoundProvider(CrlfLockFileContent(provider)) == provider
    ensures ErrorOnChangedProvider(Some(CrlfLockFileContent(provider)), provider) == Ok(Unit)
  {
    CrlfLockFileLines(provider);
    LockFileRoundTrip(provider);
  }

  /** Writing one provider and checking another reports the written one. */
  lemma LockFileSwitch(written: string, current: string)
    requires '\n' !in written
    requires written == [] || (written[0] != '"' && written[|written| - 1] != '"')
    requires current != written
    ensures ErrorOnChangedProvider(Some(LockFileContent(written)), current) == Err(ProviderSwitched(current, written))
  {
    LockFileRoundTrip(written);
  }

  // ---------------------------------------------------------------------
  // Migration directories

  /** A migration directory, known by its file name `{timestamp}_{name}`. */
  datatype MigrationDirectory = MigrationDirectory(name: string)

  function DirectoryName(timestamp: string, migrationName: string): string {
    timestamp + "_" + migrationName
  }

  /** `create_migration_directory`: refuses a name already present in the
      migrations directory; otherwise creates it, failing as the creation does. */
  function CreateMigrationDirectory(existing: set<string>, timestamp: string, migrationName: string,
                                    createDirAll: Result<Unit, IoError>): (r: Result<MigrationDirectory, IoError>)
    ensures DirectoryName(timestamp, migrationName) in existing ==> r.Err? && r.error.kind == AlreadyExists
    ensures DirectoryName(timestamp, migrationName) !in existing && createDirAll.Err? ==> r == Err(createDirAll.error)
    ensures r.Ok? <==> DirectoryName(timestamp, migrationName) !in existing && createDirAll.Ok?
    ensures r.Ok? ==> StartsWith(r.value.name, timestamp) && r.value.name[|timestamp|..] == "_" + migrationName
  {
    var directoryName := DirectoryName(timestamp, migrationName);
    if directoryName in existing then
      Err(IoError(AlreadyExists, "The migration directory already exists at " + directoryName))
    else match createDirAll
      case Err(e) => Err(e)
      case Ok(_) => Ok(MigrationDirectory(directoryName))
  }

  /** Timestamps of one fixed width order the directories they start,
      whatever the migration names: a listing sorted by name is sorted by time. */
  lemma NamesFollowTimestamps(t1: string, n1: string, t2: string, n2: string)
    requires |t1| == |t2| && LexLt(t1, t2)
    ensures LexLt(DirectoryName(t1, n1), DirectoryName(t2, n2))
  {
    LexLtAppend(t1, t2, "_" + n1, "_" + n2);
    assert DirectoryName(t1, n1) == t1 + ("_" + n1);
    assert DirectoryName(t2, n2) == t2 + ("_" + n2);
  }

  // ---------------------------------------------------------------------
  // Listing

  datatype FileType = Directory | File | Symlink

  /** An entry of the listing, with its file type as looking it up yields it. */
  datatype DirEntry = DirEntry(name: string, fileType: Result<FileType, IoError>)

  /** What `read_dir` yields: a failure to open the directory, or its entries. */
  datatype ReadDir = Failed(error: IoError) | Listing(entries: seq<Result<DirEntry, IoError>>)

  datatype ListMigrationsError = ListMigrationsError(cause: IoError)

  /** What one entry contributes: itself when it is a directory, nothing
      for any other file type, or the error reading it or its type. */
  function EntryStep(e: Result<DirEntry, IoError>): Result<seq<MigrationDirectory>, IoError> {
    match e
    case Err(err) => Err(err)
    case Ok(entry) =>
      match entry.fileType
      case Err(err) => Err(err)
      case Ok(t) => Ok(if t == Directory then [MigrationDirectory(entry.name)] else [])
  }

  /** The directories among the entries in listing order, or the first error
      met while reading an entry or its type. */
  function Directories(entries: seq<Result<DirEntry, IoError>>): (r: Result<seq<MigrationDirectory>, IoError>)
    ensures r.Ok? ==> |r.value| <= |entries|
  {
    if entries == [] then Ok([])
    else
      match Directories(entries[..|entries| - 1])
      case Err(e) => Err(e)
      case Ok(prefix) =>
        match EntryStep(entries[|entries| - 1])
        case Err(e) => Err(e)
        case Ok(more) => Ok(prefix + more)
  }

  /** The listing fails exactly when some entry fails, and then with the
      error of the first entry that does. */
  lemma {:induction false} DirectoriesFirstError(entries: seq<Result<DirEntry, IoError>>)
    ensures Directories(entries).Err? <==> exists i :: 0 <= i < |entries| && EntryStep(entries[i]).Err?
    ensures Directories(entries).Err? ==>
              exists i :: 0 <= i < |entries| && EntryStep(entries[i]) == Err(Directories(entries).error)
                          && forall j :: 0 <= j < i ==> EntryStep(entries[j]).Ok?
    decreases |entries|
  {
    if entries != [] {
      var n := |entries| - 1;
      DirectoriesFirstError(entries[..n]);
      assert forall i :: 0 <= i < n ==> entries[..n][i] == entries[i];
      if Directories(entries[..n]).Ok? && EntryStep(entries[n]).Err? {
        assert forall j :: 0 <= j < n ==> EntryStep(entries[j]).Ok?;
      }
    }
  }

  /** Reading one more entry: an earlier error stays, else the entry's step decides. */
  lemma DirectoriesSnoc(init: seq<Result<DirEntry, IoError>>, last: Result<DirEntry, IoError>)
    ensures Directories(init + [last]) ==
              match Directories(init)
              case Err(e) => Err(e)
              case Ok(prefix) =>
                match EntryStep(last)
                case Err(e) => Err(e)
                case Ok(more) => Ok(prefix + more)
  {
    assert (init + [last])[..|init|] == init;
  }

  /** Once an error has been met, later entries do not matter. */
  lemma {:induction false} DirectoriesErrorStays(prefix: seq<Result<DirEntry, IoError>>, suffix: seq<Result<DirEntry, IoError>>)
    requires Directories(prefix).Err?
    ensures Directories(prefix + suffix) == Directories(prefix)
    decreases |suffix|
  {
    if suffix == [] {
      assert prefix + suffix == prefix;
    } else {
      var init := suffix[..|suffix| - 1];
      DirectoriesErrorStays(prefix, init);
      assert prefix + suffix == (prefix + init) + [suffix[|suffix| - 1]];
      DirectoriesSnoc(prefix + init, suffix[|suffix| - 1]);
    }
  }

  /** Listed migrations in `str::cmp` order of their names. */
  ghost predicate SortedByName(ms: seq<MigrationDirectory>) {
    forall i, j :: 0 <= i < j < |ms| ==> LexLe(ms[i].name, ms[j].name)
  }

  lemma SortedCons(x: MigrationDirectory, rest: seq<MigrationDirectory>)
    requires SortedByName(rest)
    requires forall j :: 0 <= j < |rest| ==> LexLe(x.name, rest[j].name)
    ensures SortedByName([x] + rest)
  {
    forall i, j | 0 <= i < j < |[x] + rest|
      ensures LexLe(([x] + rest)[i].name, ([x] + rest)[j].name)
    {
      if i == 0 {
        assert ([x] + rest)[j] == rest[j - 1];
      } else {
        assert ([x] + rest)[i] == rest[i - 1] && ([x] + rest)[j] == rest[j - 1];
      }
    }
  }

  /** A lower bound of a list and of an inserted element bounds the result. */
  lemma InsertKeepsBound(lo: string, m: MigrationDirectory, sorted: seq<MigrationDirectory>, r: seq<MigrationDirectory>)
    requires forall j :: 0 <= j < |sorted| ==> LexLe(lo, sorted[j].name)
    requires LexLe(lo, m.name)
    requires multiset(r) == multiset(sorted) + multiset{m}
    ensures forall j :: 0 <= j < |r| ==> LexLe(lo, r[j].name)
  {
    forall j | 0 <= j < |r|
      ensures LexLe(lo, r[j].name)
    {
      assert r[j] in multiset(r);
      if r[j] != m {
        assert r[j] in multiset(sorted);
        var k :| 0 <= k < |sorted| && sorted[k] == r[j];
      }
    }
  }

  lemma SmallestFirst(m: MigrationDirectory, sorted: seq<MigrationDirectory>)
    requires SortedByName(sorted) && sorted != [] && LexLe(m.name, sorted[0].name)
    ensures forall j :: 0 <= j < |sorted| ==> LexLe(m.name, sorted[j].name)
  {
    forall j | 0 < j < |sorted|
      ensures LexLe(m.name, sorted[j].name)
    {
      LexLeTransitive(m.name, sorted[0].name, sorted[j].name);
    }
  }

  /** Places `m` after every entry not greater than it, as a stable sort does. */
  function InsertByName(m: MigrationDirectory, sorted: seq<MigrationDirectory>): (r: seq<MigrationDirectory>)
    requires SortedByName(sorted)
    ensures SortedByName(r)
    ensures multiset(r) == multiset(sorted) + multiset{m}
  {
    if sorted == [] then [m]
    else if LexLt(m.name, sorted[0].name) then
      SmallestFirst(m, sorted);
      SortedCons(m, sorted);
      [m] + sorted
    else
      var rest := InsertByName(m, sorted[1..]);
      InsertAfterFirst(m, sorted, rest);
      [sorted[0]] + rest
  }

  /** An element not below the head goes behind it. */
  lemma InsertAfterFirst(m: MigrationDirectory, sorted: seq<MigrationDirectory>, rest: seq<MigrationDirectory>)
    requires SortedByName(sorted) && sorted != [] && !LexLt(m.name, sorted[0].name)
    requires SortedByName(rest) && multiset(rest) == multiset(sorted[1..]) + multiset{m}
    ensures SortedByName([sorted[0]] + rest)
    ensures multiset([sorted[0]] + rest) == multiset(sorted) + multiset{m}
  {
    LexLeTotal(m.name, sorted[0].name);
    assert sorted == [sorted[0]] + sorted[1..];
    InsertKeepsBound(sorted[0].name, m, sorted[1..], rest);
    SortedCons(sorted[0], rest);
  }

  /** `list_migrations`: a missing directory lists nothing; any other read
      failure is an error; otherwise the directory entries, sorted by name,
      unless reading an entry or its type fails first. */
  method ListMigrations(dir: ReadDir) returns (r: Result<seq<MigrationDirectory>, ListMigrationsError>)
    ensures dir.Failed? && dir.error.kind == NotFound ==> r == Ok([])
    ensures dir.Failed? && dir.error.kind != NotFound ==> r == Err(ListMigrationsError(dir.error))
    ensures dir.Listing? && Directories(dir.entries).Err? ==> r == Err(ListMigrationsError(Directories(dir.entries).error))
    ensures dir.Listing? && Directories(dir.entries).Ok? ==>
              r.Ok? && SortedByName(r.value) && multiset(r.value) == multiset(Directories(dir.entries).value)
  {
    match dir {
      case Failed(err) =>
        if err.kind == NotFound {
          return Ok([]);
        }
        return Err(ListMigrationsError(err));
      case Listing(listing) =>
        var collected := CollectDirectories(listing);
        match collected {
          case Err(e) =>
            return Err(ListMigrationsError(e));
          case Ok(entries) =>
            var sorted := SortByName(entries);
            return Ok(sorted);
        }
    }
  }

  /** The `for` loop over the entries: each entry's contribution pushed in
      turn, and the first error reading an entry or its type returned at once. */
  method CollectDirectories(listing: seq<Result<DirEntry, IoError>>) returns (r: Result<seq<MigrationDirectory>, IoError>)
    ensures r == Directories(listing)
  {
    var entries: seq<MigrationDirectory> := [];
    var i := 0;
    while i < |listing|
      invariant 0 <= i <= |listing|
      invariant Directories(listing[..i]) == Ok(entries)
    {
      assert listing[..i + 1] == listing[..i] + [listing[i]];
      DirectoriesSnoc(listing[..i], listing[i]);
      var step := EntryStep(listing[i]);
      if step.Err? {
        DirectoriesErrorStays(listing[..i + 1], listing[i + 1..]);
        assert listing[..i + 1] + listing[i + 1..] == listing;
        return Err(step.error);
      }
      entries := entries + step.value;
      i := i + 1;
    }
    assert listing[..i] == listing;
    return Ok(entries);
  }

  /** `sort_by` on the migration names: a stable insertion sort. */
  method SortByName(ms: seq<MigrationDirectory>) returns (sorted: seq<MigrationDirectory>)
    ensures SortedByName(sorted)
    ensures multiset(sorted) == multiset(ms)
  {
    sorted := [];
    var i := 0;
    while i < |ms|
      invariant 0 <= i <= |ms|
      invariant SortedByName(sorted)
      invariant multiset(sorted) == multiset(ms[..i])
    {
      sorted := InsertByName(ms[i], sorted);
      assert ms[..i + 1] == ms[..i] + [ms[i]];
      i := i + 1;
    }
    assert ms[..i] == ms;
  }

  /** The listing holds only directories: a migration is listed exactly
      when a directory entry of that name was read. */
  lemma {:induction false} DirectoriesAreDirectories(entries: seq<Result<DirEntry, IoError>>, m: MigrationDirectory)
    requires Directories(entries).Ok?
    ensures m in Directories(entries).value <==>
              exists i :: 0 <= i < |entries| && IsDirectoryNamed(entries[i], m.name)
    decreases |entries|
  {
    if entries != [] {
      var n := |entries| - 1;
      var init := entries[..n];
      DirectoriesAreDirectories(init, m);
      assert forall i :: 0 <= i < n ==> init[i] == entries[i];
      if exists i :: 0 <= i < |entries| && IsDirectoryNamed(entries[i], m.name) {
        var i :| 0 <= i < |entries| && IsDirectoryNamed(entries[i], m.name);
        if i < n {
          assert IsDirectoryNamed(init[i], m.name);
        }
      }
    }
  }

  predicate IsDirectoryNamed(e: Result<DirEntry, IoError>, name: string) {
    e.Ok? && e.value.fileType == Ok(Directory) && e.value.name == name
  }
}
