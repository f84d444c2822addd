/** Choosing the unit tests for a change (`ci/run-pr-tests.py`). */
module TestTargets {
  import opened Wrappers
  import opened Sequences
  import opened Text

  function Normalized(path: string): string {
    var slashed := seq(|path|, i requires 0 <= i < |path| => if path[i] == '\\' then '/' else path[i]);
    if "./" <= slashed then slashed[2..] else slashed
  }

  predicate Normal(target: string) {
    Normalized(target) == target
  }

  predicate EndsWith(s: string, suffix: string) {
    |suffix| <= |s| && s[|s| - |suffix|..] == suffix
  }

  predicate IsDirectory(target: string) {
    target != "" && target[|target| - 1] == '/'
  }

  /** A target without its trailing slashes. */
  function Key(target: string): string {
    RStrip(Normalized(target), '/')
  }

  predicate Under(target: string, directory: string) {
    Key(directory) != "" && Key(directory) + "/" <= Key(target)
  }

  /** Some directory target among them contains the target. */
  predicate Contained(target: string, among: seq<string>) {
    exists d <- among :: IsDirectory(d) && Under(target, d)
  }

  predicate Covered(target: string, kept: seq<string>) {
    target in kept || Contained(target, kept)
  }

  /** The first occurrences, in order. */
  function Deduped<T(==)>(items: seq<T>): seq<T> {
    if items == [] then []
    else
      var before, last := Deduped(items[..|items| - 1]), items[|items| - 1];
      if last in items[..|items| - 1] then before else before + [last]
  }

  function Collapsed(targets: seq<string>): seq<string> {
    Filter(Deduped(targets), t => !Contained(t, targets))
  }

  // ---------------------------------------------------------------- what collapsing keeps

  lemma {:induction false} DedupedMember<T>(items: seq<T>, x: T)
    ensures x in Deduped(items) <==> x in items
  {
    if items != [] {
      assert items == items[..|items| - 1] + [items[|items| - 1]];
      DedupedMember(items[..|items| - 1], x);
    }
  }

  lemma {:induction false} DedupedIsDistinct<T>(items: seq<T>)
    ensures Distinct(Deduped(items))
  {
    if items != [] {
      DedupedIsDistinct(items[..|items| - 1]);
      DedupedMember(items[..|items| - 1], items[|items| - 1]);
    }
  }

  lemma {:induction false} DedupedOfDistinct<T>(items: seq<T>)
    requires Distinct(items)
    ensures Deduped(items) == items
  {
    if items != [] {
      assert items == items[..|items| - 1] + [items[|items| - 1]];
      DedupedOfDistinct(items[..|items| - 1]);
    }
  }

  /** Elements stay in the order of their first occurrences. */
  lemma {:induction false} DedupedKeepsOrder<T>(items: seq<T>, x: T, y: T)
    requires x in items && y in items
    ensures x in Deduped(items) && y in Deduped(items)
    ensures IndexOf(Deduped(items), x) < IndexOf(Deduped(items), y) <==> IndexOf(items, x) < IndexOf(items, y)
  {
    DedupedMember(items, x);
    DedupedMember(items, y);
    var before, last := items[..|items| - 1], items[|items| - 1];
    assert items == before + [last];
    DedupedMember(before, x);
    DedupedMember(before, y);
    IndexInLonger(before, last, x);
    IndexInLonger(before, last, y);
    if last !in before {
      IndexInLonger(Deduped(before), last, x);
      IndexInLonger(Deduped(before), last, y);
    }
    if x in before && y in before {
      DedupedKeepsOrder(before, x, y);
    }
  }

  lemma UnderIsTransitive(a: string, b: string, c: string)
    requires Under(a, b) && Under(b, c)
    ensures Under(a, c) && |Key(c)| < |Key(b)|
  {
  }

  /** A contained target lies under a directory that is contained in none. */
  lemma {:induction false} OutermostDirectory(target: string, d: string, among: seq<string>) returns (top: string)
    requires d in among && IsDirectory(d) && Under(target, d)
    ensures top in among && IsDirectory(top) && Under(target, top) && !Contained(top, among)
    decreases |Key(d)|
  {
    top := d;
    if Contained(d, among) {
      var e :| e in among && IsDirectory(e) && Under(d, e);
      UnderIsTransitive(target, d, e);
      top := OutermostDirectory(target, e, among);
    }
  }

  /** Exactly the targets outside every directory target are kept. */
  lemma CollapsedMember(targets: seq<string>, t: string)
    ensures t in Collapsed(targets) <==> t in targets && !Contained(t, targets)
  {
    FilterMember(Deduped(targets), u => !Contained(u, targets), t);
    DedupedMember(targets, t);
  }

  /** Every target is kept or lies under a kept directory, even if its own directory was
      dropped for one further out. */
  lemma CollapsedCovers(targets: seq<string>, t: string)
    requires t in targets
    ensures Covered(t, Collapsed(targets))
  {
    CollapsedMember(targets, t);
    if Contained(t, targets) {
      var d :| d in targets && IsDirectory(d) && Under(t, d);
      var top := OutermostDirectory(t, d, targets);
      CollapsedMember(targets, top);
    }
  }

  /** No kept target lies under a kept directory, and each is kept once. */
  lemma CollapsedIsFlat(targets: seq<string>)
    ensures forall t <- Collapsed(targets) :: !Contained(t, Collapsed(targets))
    ensures Distinct(Collapsed(targets))
  {
    forall t | t in Collapsed(targets) ensures !Contained(t, Collapsed(targets)) {
      CollapsedMember(targets, t);
      forall d | d in Collapsed(targets) ensures d in targets {
        CollapsedMember(targets, d);
      }
    }
    DedupedIsDistinct(targets);
    FilterDistinct(Deduped(targets), u => !Contained(u, targets));
  }

  lemma CollapsedKeepsOrder(targets: seq<string>, x: string, y: string)
    requires x in Collapsed(targets) && y in Collapsed(targets)
    ensures x in targets && y in targets
    ensures IndexOf(Collapsed(targets), x) < IndexOf(Collapsed(targets), y) <==> IndexOf(targets, x) < IndexOf(targets, y)
  {
    CollapsedMember(targets, x);
    CollapsedMember(targets, y);
    DedupedIsDistinct(targets);
    FilterKeepsOrder(Deduped(targets), u => !Contained(u, targets), x, y);
    DedupedKeepsOrder(targets, x, y);
  }

  lemma CollapsedTwice(targets: seq<string>)
    ensures Collapsed(Collapsed(targets)) == Collapsed(targets)
  {
    CollapsedIsFlat(targets);
    DedupedOfDistinct(Collapsed(targets));
    FilterAll(Collapsed(targets), u => !Contained(u, Collapsed(targets)));
  }

  lemma CoverIsTransitive(t: string, c: string, kept: seq<string>)
    requires t == c || (IsDirectory(c) && Under(t, c))
    requires Covered(c, kept)
    ensures Covered(t, kept)
  {
    if t != c && c !in kept {
      var d :| d in kept && IsDirectory(d) && Under(c, d);
      UnderIsTransitive(t, c, d);
    }
  }

  // ---------------------------------------------------------------- what containment is

  /** `d` is a name followed by slashes only, and `t` goes on behind that name and a slash. */
  predicate Inside(t: string, d: string) {
    exists n | 0 < n < |d| :: EndsAt(d, n) && GoesOn(t, d[..n])
  }

  predicate EndsAt(d: string, n: nat) {
    0 < n < |d| && d[n - 1] != '/' && forall i | n <= i < |d| :: d[i] == '/'
  }

  predicate GoesOn(t: string, name: string) {
    name + "/" <= t && exists i | |name| < i < |t| :: t[i] != '/'
  }

  lemma InsideNamed(t: string, d: string, n: nat)
    requires EndsAt(d, n)
    ensures Inside(t, d) <==> GoesOn(t, d[..n])
  {
    forall k: nat | EndsAt(d, k) ensures k == n {
    }
  }

  lemma StripGoesOn(t: string, m: nat, name: string)
    requires m <= |t| && (m == 0 || t[m - 1] != '/') && forall i | m <= i < |t| :: t[i] == '/'
    ensures GoesOn(t, name) <==> name + "/" <= t[..m]
  {
    if name + "/" <= t[..m] {
      assert (t[..m])[|name|] == '/' == t[|name|] && t[m - 1] != '/';
      assert name + "/" <= t;
    }
    if GoesOn(t, name) {
      var i :| |name| < i < |t| && t[i] != '/';
      assert i < m;
    }
  }

  /** Backslashes become slashes, and one leading `./` goes. */
  lemma NormalizedAt(path: string, i: nat)
    ensures var skipped := if |path| >= 2 && path[0] == '.' && (path[1] == '/' || path[1] == '\\') then 2 else 0;
            && |Normalized(path)| == |path| - skipped
            && (i < |Normalized(path)| ==> Normalized(path)[i] == if path[i + skipped] == '\\' then '/' else path[i + skipped])
  {
    var slashed := seq(|path|, j requires 0 <= j < |path| => if path[j] == '\\' then '/' else path[j]);
    assert "./" <= slashed <==> |slashed| >= 2 && slashed[0] == '.' && slashed[1] == '/';
  }

  lemma {:induction false} StripsSome(s: string, c: char) returns (n: nat)
    ensures n <= |s| && (n == 0 || s[n - 1] != c) && forall i | n <= i < |s| :: s[i] == c
    ensures RStrip(s, c) == s[..n]
    decreases |s|
  {
    if s != "" && s[|s| - 1] == c {
      n := StripsSome(s[..|s| - 1], c);
      assert s[..|s| - 1][..n] == s[..n];
    } else {
      n := |s|;
      assert s[..n] == s;
    }
  }

  /** Containment in a directory target, in terms of the characters of the two normalized paths. */
  lemma UnderIff(target: string, d: string)
    requires IsDirectory(d)
    ensures Under(target, d) <==> Inside(Normalized(target), Normalized(d))
  {
    var t, e := Normalized(target), Normalized(d);
    DirectoryStaysOne(d);
    var n := StripsSome(e, '/');
    var m := StripsSome(t, '/');
    StripGoesOn(t, m, e[..n]);
    if n > 0 {
      InsideNamed(t, e, n);
    } else {
      assert forall k: nat :: !EndsAt(e, k);
    }
  }

  lemma DirectoryStaysOne(d: string)
    requires IsDirectory(d)
    ensures Normalized(d) == "" || Normalized(d)[|Normalized(d)| - 1] == '/'
  {
    NormalizedAt(d, if |Normalized(d)| > 0 then |Normalized(d)| - 1 else 0);
  }

  /** A target is kept exactly if it lies inside no directory target, as the characters of the
      normalized paths say. */
  lemma CollapsedIff(targets: seq<string>, t: string)
    ensures t in Collapsed(targets) <==>
              t in targets && forall d <- targets | d != "" && d[|d| - 1] == '/' :: !Inside(Normalized(t), Normalized(d))
  {
    CollapsedMember(targets, t);
    forall d | d in targets && IsDirectory(d) ensures Under(t, d) <==> Inside(Normalized(t), Normalized(d)) {
      UnderIff(t, d);
    }
  }

  lemma NormalTogether(d: string, rest: string)
    requires Normal(d + rest) && |d| >= 2
    ensures Normal(d)
  {
    forall i | 0 <= i < |d| ensures d[i] != '\\' {
      NormalizedAt(d + rest, i);
      assert (d + rest)[i] == d[i];
    }
    assert (d + rest)[0] == d[0] && (d + rest)[1] == d[1];
    NormalizedAt(d + rest, 0);
    NormalizedAt(d, 0);
    assert seq(|d|, i requires 0 <= i < |d| => if d[i] == '\\' then '/' else d[i]) == d;
  }

  /** A directory and something in it are never both kept, however its name ends. */
  lemma NeverKeepsBoth(targets: seq<string>, name: string, rest: string)
    requires Normal(name + "/" + rest) && name != "" && name[|name| - 1] != '/' && rest != "" && rest[0] != '/'
    requires name + "/" in targets
    ensures name + "/" + rest !in Collapsed(targets)
  {
    var d := name + "/";
    var t := d + rest;
    NormalTogether(d, rest);
    assert d[..|name|] == name && t[|d|] == rest[0];
    InsideNamed(t, d, |name|);
    CollapsedIff(targets, t);
  }

  lemma SiblingIsOutside(name: string, rest: string)
    requires name != "" && name[|name| - 1] != '/' && rest != "" && rest[0] != '/'
    ensures !Inside(name + rest, name + "/")
  {
    assert (name + "/")[..|name|] == name && (name + rest)[|name|] == rest[0];
    InsideNamed(name + rest, name + "/", |name|);
  }

  /** Names that only start alike do not contain each other. */
  lemma SiblingIsKept(targets: seq<string>, name: string, rest: string)
    requires Normal(name + "/") && Normal(name + rest) && name != "" && name[|name| - 1] != '/' && rest != "" && rest[0] != '/'
    requires name + rest in targets && forall d <- targets | d != "" && d[|d| - 1] == '/' :: d == name + "/"
    ensures name + rest in Collapsed(targets)
  {
    SiblingIsOutside(name, rest);
    CollapsedIff(targets, name + rest);
  }

  /** What was dropped lies inside a directory that was kept. */
  lemma DroppedIsInsideKept(targets: seq<string>, t: string)
    requires t in targets && t !in Collapsed(targets)
    ensures exists d <- Collapsed(targets) :: IsDirectory(d) && Inside(Normalized(t), Normalized(d))
  {
    CollapsedCovers(targets, t);
    var d :| d in Collapsed(targets) && IsDirectory(d) && Under(t, d);
    UnderIff(t, d);
  }

  // ---------------------------------------------------------------- selecting and filtering

  datatype Rule = Rule(prefix: string, target: string)

  /** Everything before the last slash, or all of a string without one. */
  function BeforeLastSlash(s: string): (r: string)
    ensures r <= s
  {
    if '/' !in s then s else if s[|s| - 1] == '/' then s[..|s| - 1] else BeforeLastSlash(s[..|s| - 1])
  }

  function FirstMatch(path: string, table: seq<Rule>): Option<Rule> {
    if table == [] then None else if table[0].prefix <= path then Some(table[0]) else FirstMatch(path, table[1..])
  }

  const UNIT_TESTS := "tests/unit_tests/"

  /** The target a changed file asks for, if any. */
  function Wanted(path: string, table: seq<Rule>): Option<string> {
    var normalized := Normalized(path);
    if normalized == "" then None
    else if UNIT_TESTS <= normalized then
      if EndsWith(normalized, ".py") then Some(normalized)
      else
        var parent := BeforeLastSlash(RStrip(normalized, '/'));
        Some(if parent != "" then parent + "/" else UNIT_TESTS)
    else
      match FirstMatch(normalized, table)
      case None => None
      case Some(rule) => Some(rule.target)
  }

  function AllWanted(changed: seq<string>, table: seq<Rule>): seq<string> {
    if changed == [] then []
    else
      var before, last := AllWanted(changed[..|changed| - 1], table), Wanted(changed[|changed| - 1], table);
      if last.Some? then before + [last.value] else before
  }

  /** What the file system answers. */
  datatype Files = Files(isDirectory: string -> bool, present: string -> bool)

  predicate Existing(files: Files, target: string) {
    if IsDirectory(target) then files.isDirectory(target) else files.present(target)
  }

  function Filtered(paths: seq<string>, files: Files): seq<string> {
    Collapsed(Filter(paths, t => Existing(files, t)))
  }

  function Resolved(changed: seq<string>, table: seq<Rule>, files: Files): seq<string> {
    Filtered(Collapsed(AllWanted(changed, table)), files)
  }

  /** Where something exists, the directories around it exist. */
  ghost predicate Hierarchical(files: Files) {
    forall t, d | Normal(t) && Normal(d) && IsDirectory(d) && Inside(t, d) && Existing(files, t) :: files.isDirectory(d)
  }

  predicate NormalTable(table: seq<Rule>) {
    forall rule <- table :: Normal(rule.target) && "tests/" <= rule.target
  }

  lemma {:induction false} FirstMatchIsARule(path: string, table: seq<Rule>)
    ensures FirstMatch(path, table).Some? ==> FirstMatch(path, table).value in table && FirstMatch(path, table).value.prefix <= path
  {
    if table != [] && !(table[0].prefix <= path) {
      FirstMatchIsARule(path, table[1..]);
    }
  }

  lemma PrefixIsNormal(path: string, t: string)
    requires t <= Normalized(path) && "tests" <= t
    ensures Normal(t) && Normal(t + "/")
  {
    assert t[0] == 't';
    assert '\\' !in t;
    assert seq(|t|, i requires 0 <= i < |t| => if t[i] == '\\' then '/' else t[i]) == t;
  }

  /** Every target asked for is normalized and below `tests/`. */
  lemma WantedIsNormal(path: string, table: seq<Rule>)
    requires NormalTable(table) && Wanted(path, table).Some?
    ensures Normal(Wanted(path, table).value) && "tests/" <= Wanted(path, table).value
  {
    var normalized := Normalized(path);
    if UNIT_TESTS <= normalized {
      assert "tests/" <= UNIT_TESTS;
      if EndsWith(normalized, ".py") {
        PrefixIsNormal(path, normalized);
      } else {
        ParentOfTest(normalized);
        PrefixIsNormal(path, BeforeLastSlash(RStrip(normalized, '/')));
      }
    } else {
      FirstMatchIsARule(normalized, table);
    }
  }

  lemma ParentOfTest(path: string)
    requires UNIT_TESTS <= path
    ensures var parent := BeforeLastSlash(RStrip(path, '/'));
            parent <= path && "tests" <= parent && "tests/" <= parent + "/"
  {
    StripKeeps(path, "tests/unit_tests");
    BeforeLastKeeps(RStrip(path, '/'), "tests");
  }

  lemma {:induction false} StripKeeps(s: string, p: string)
    requires p <= s && p != "" && p[|p| - 1] != '/'
    ensures p <= RStrip(s, '/')
    decreases |s|
  {
    if s[|s| - 1] == '/' {
      StripKeeps(s[..|s| - 1], p);
    }
  }

  lemma {:induction false} BeforeLastKeeps(s: string, p: string)
    requires p + "/" <= s
    ensures p <= BeforeLastSlash(s)
    decreases |s|
  {
    assert s[|p|] == '/';
    if s[|s| - 1] != '/' {
      BeforeLastKeeps(s[..|s| - 1], p);
    }
  }

  lemma {:induction false} StripsSlashes(s: string, slashes: string)
    requires s != "" && s[|s| - 1] != '/' && forall i | 0 <= i < |slashes| :: slashes[i] == '/'
    ensures RStrip(s + slashes, '/') == s
  {
    var path, n := s + slashes, |slashes|;
    if n == 0 {
      assert path == s;
    } else {
      assert path[..|path| - 1] == s + slashes[..n - 1] && path[|path| - 1] == slashes[n - 1];
      StripsSlashes(s, slashes[..n - 1]);
    }
  }

  lemma {:induction false} BeforeLastPart(directory: string, name: string)
    requires '/' !in name
    ensures BeforeLastSlash(directory + "/" + name) == directory
  {
    var path, n := directory + "/" + name, |name|;
    assert path[|directory|] == '/';
    if n == 0 {
      assert path[..|path| - 1] == directory;
    } else {
      assert path[..|path| - 1] == directory + "/" + name[..n - 1] && path[|path| - 1] == name[n - 1];
      BeforeLastPart(directory, name[..n - 1]);
    }
  }

  lemma ParentOf(directory: string, name: string, slashes: string)
    requires name != "" && '/' !in name && forall i | 0 <= i < |slashes| :: slashes[i] == '/'
    ensures BeforeLastSlash(RStrip(directory + "/" + name + slashes, '/')) == directory
  {
    var inner := directory + "/" + name;
    assert inner[|inner| - 1] == name[|name| - 1];
    StripsSlashes(inner, slashes);
    BeforeLastPart(directory, name);
  }

  /** A test file stands for itself. Any other file among the unit tests stands for the directory
      it is in, `name` being the last part of its path and slashes behind it not counting. */
  lemma UnitTestIsWanted(directory: string, name: string, slashes: string, table: seq<Rule>)
    requires Normal(directory + "/" + name + slashes) && name != "" && '/' !in name
    requires "tests/unit_tests/" <= directory + "/" && forall i | 0 <= i < |slashes| :: slashes[i] == '/'
    ensures var path := directory + "/" + name + slashes;
            Wanted(path, table) == Some(if |path| >= 3 && path[|path| - 3..] == ".py" then path else directory + "/")
  {
    ParentOf(directory, name, slashes);
    assert |directory| > 0;
  }

  /** Any other file asks for the target of the first rule whose prefix its path has. */
  lemma RuleIsWanted(path: string, table: seq<Rule>, i: nat)
    requires path != "" && !("tests/unit_tests/" <= Normalized(path)) && i < |table| && table[i].prefix <= Normalized(path)
    requires Normalized(path) != "" && forall j | 0 <= j < i :: !(table[j].prefix <= Normalized(path))
    ensures Wanted(path, table) == Some(table[i].target)
  {
    assert table[i] in table;
    var k := FirstMatchAt(Normalized(path), table);
  }

  /** A file that no rule matches, or an empty path, asks for nothing. */
  lemma NothingIsWanted(path: string, table: seq<Rule>)
    requires !("tests/unit_tests/" <= Normalized(path))
    requires Normalized(path) == "" || forall rule <- table :: !(rule.prefix <= Normalized(path))
    ensures Wanted(path, table) == None
  {
    FirstMatchIsARule(Normalized(path), table);
  }

  lemma {:induction false} AllWantedMember(changed: seq<string>, table: seq<Rule>, t: string)
    ensures t in AllWanted(changed, table) <==> exists path <- changed :: Wanted(path, table) == Some(t)
  {
    if changed != [] {
      assert changed == changed[..|changed| - 1] + [changed[|changed| - 1]];
      AllWantedMember(changed[..|changed| - 1], table, t);
    }
  }

  lemma AllWantedIsNormal(changed: seq<string>, table: seq<Rule>, t: string)
    requires NormalTable(table) && t in AllWanted(changed, table)
    ensures Normal(t)
  {
    AllWantedMember(changed, table, t);
    var path :| path in changed && Wanted(path, table) == Some(t);
    WantedIsNormal(path, table);
  }

  lemma ResolvedKeepsCover(changed: seq<string>, table: seq<Rule>, files: Files, t: string)
    requires NormalTable(table) && Hierarchical(files) && t in AllWanted(changed, table) && Existing(files, t)
    ensures Covered(t, Resolved(changed, table, files))
  {
    var wanted := AllWanted(changed, table);
    var selected := Collapsed(wanted);
    var existing := Filter(selected, u => Existing(files, u));
    CollapsedCovers(wanted, t);
    var c := t;
    if t !in selected {
      c :| c in selected && IsDirectory(c) && Under(t, c);
      CollapsedMember(wanted, c);
      ParentExists(changed, table, files, t, c);
    }
    FilterMember(selected, u => Existing(files, u), c);
    CollapsedCovers(existing, c);
    CoverIsTransitive(t, c, Resolved(changed, table, files));
  }

  lemma ParentExists(changed: seq<string>, table: seq<Rule>, files: Files, t: string, c: string)
    requires NormalTable(table) && Hierarchical(files) && Existing(files, t) && IsDirectory(c) && Under(t, c)
    requires t in AllWanted(changed, table) && c in AllWanted(changed, table)
    ensures Existing(files, c)
  {
    AllWantedIsNormal(changed, table, t);
    AllWantedIsNormal(changed, table, c);
    UnderIff(t, c);
  }

  /** Through selecting, collapsing, filtering and collapsing again, every existing target some
      changed file asks for is kept or lies inside a kept directory. */
  lemma ResolvedCovers(changed: seq<string>, table: seq<Rule>, files: Files, path: string, t: string)
    requires NormalTable(table) && Hierarchical(files)
    requires path in changed && Wanted(path, table) == Some(t)
    requires if t != "" && t[|t| - 1] == '/' then files.isDirectory(t) else files.present(t)
    ensures var kept := Resolved(changed, table, files);
            t in kept || exists d <- kept :: IsDirectory(d) && Inside(t, d)
  {
    AllWantedMember(changed, table, t);
    AllWantedIsNormal(changed, table, t);
    ResolvedKeepsCover(changed, table, files, t);
    if t !in Resolved(changed, table, files) {
      CoveredIsInside(changed, table, files, t);
    }
  }

  lemma CoveredIsInside(changed: seq<string>, table: seq<Rule>, files: Files, t: string)
    requires NormalTable(table) && Normal(t) && Covered(t, Resolved(changed, table, files)) && t !in Resolved(changed, table, files)
    ensures exists d <- Resolved(changed, table, files) :: IsDirectory(d) && Inside(t, d)
  {
    var d :| d in Resolved(changed, table, files) && IsDirectory(d) && Under(t, d);
    ResolvedIsWanted(changed, table, files, d);
    AllWantedMember(changed, table, d);
    AllWantedIsNormal(changed, table, d);
    UnderIff(t, d);
  }

  /** Only existing targets that some changed file asks for are left, each of them once, and
      none inside another. */
  lemma ResolvedIsWanted(changed: seq<string>, table: seq<Rule>, files: Files, t: string)
    requires t in Resolved(changed, table, files)
    ensures if t != "" && t[|t| - 1] == '/' then files.isDirectory(t) else files.present(t)
    ensures exists path <- changed :: Wanted(path, table) == Some(t)
    ensures forall d <- Resolved(changed, table, files) | IsDirectory(d) :: !Inside(Normalized(t), Normalized(d))
    ensures Distinct(Resolved(changed, table, files))
  {
    var selected := Collapsed(AllWanted(changed, table));
    var existing := Filter(selected, u => Existing(files, u));
    CollapsedMember(existing, t);
    FilterMember(selected, u => Existing(files, u), t);
    CollapsedMember(AllWanted(changed, table), t);
    AllWantedMember(changed, table, t);
    CollapsedIsFlat(existing);
    forall d | d in Resolved(changed, table, files) && IsDirectory(d) ensures !Inside(Normalized(t), Normalized(d)) {
      UnderIff(t, d);
    }
  }

  // ---------------------------------------------------------------- first match and longest match

  predicate Longest(path: string, table: seq<Rule>, rule: Rule) {
    rule in table && rule.prefix <= path && forall other <- table :: other.prefix <= path ==> |other.prefix| <= |rule.prefix|
  }

  /** The rule the loop stops at is one with the longest matching prefix, whatever the path. */
  ghost predicate PicksLongest(table: seq<Rule>) {
    forall path :: FirstMatch(path, table).Some? ==> Longest(path, table, FirstMatch(path, table).value)
  }

  /** Every proper extension of a prefix has come before it. */
  ghost predicate SpecificFirst(table: seq<Rule>) {
    forall i, j | 0 <= i < |table| && 0 <= j < |table| && table[i].prefix < table[j].prefix ::
      exists k | 0 <= k < i :: table[k].prefix == table[j].prefix
  }

  lemma {:induction false} FirstMatchAt(path: string, table: seq<Rule>) returns (i: nat)
    requires exists rule <- table :: rule.prefix <= path
    ensures i < |table| && FirstMatch(path, table) == Some(table[i]) && table[i].prefix <= path
    ensures forall j | 0 <= j < i :: !(table[j].prefix <= path)
  {
    if table[0].prefix <= path {
      i := 0;
    } else {
      var rule :| rule in table && rule.prefix <= path;
      assert table == [table[0]] + table[1..];
      assert rule in table[1..];
      var k := FirstMatchAt(path, table[1..]);
      i := k + 1;
    }
  }

  lemma PrefixesCompare(a: string, b: string, path: string)
    requires a <= path && b <= path && |a| < |b|
    ensures a < b
  {
  }

  lemma NoLongerMatch(path: string, table: seq<Rule>, i: nat, j: nat)
    requires SpecificFirst(table) && i < |table| && j < |table|
    requires table[i].prefix <= path && forall k | 0 <= k < i :: !(table[k].prefix <= path)
    requires table[j].prefix <= path
    ensures |table[j].prefix| <= |table[i].prefix|
  {
    assert !(table[i].prefix < table[j].prefix);
    if |table[i].prefix| < |table[j].prefix| {
      PrefixesCompare(table[i].prefix, table[j].prefix, path);
    }
  }

  lemma FirstIsLongest(path: string, table: seq<Rule>)
    requires SpecificFirst(table) && FirstMatch(path, table).Some?
    ensures Longest(path, table, FirstMatch(path, table).value)
  {
    FirstMatchIsARule(path, table);
    var i := FirstMatchAt(path, table);
    forall other | other in table && other.prefix <= path ensures |other.prefix| <= |table[i].prefix| {
      var j :| 0 <= j < |table| && table[j] == other;
      NoLongerMatch(path, table, i, j);
    }
  }

  lemma LongestIsEarly(table: seq<Rule>, i: nat, j: nat)
    requires PicksLongest(table) && i < |table| && j < |table| && table[i].prefix < table[j].prefix
    ensures exists k | 0 <= k < i :: table[k].prefix == table[j].prefix
  {
    var k := FirstMatchAt(table[j].prefix, table);
    assert Longest(table[j].prefix, table, table[k]);
    assert table[k].prefix == table[j].prefix;
  }

  /** Taking the first matching rule is taking one with the longest prefix for every path
      exactly when prefixes come after their proper extensions. */
  lemma PicksLongestIff(table: seq<Rule>)
    ensures PicksLongest(table) <==> SpecificFirst(table)
  {
    if SpecificFirst(table) {
      forall path | FirstMatch(path, table).Some? ensures Longest(path, table, FirstMatch(path, table).value) {
        FirstIsLongest(path, table);
      }
    }
    if PicksLongest(table) {
      forall i, j | 0 <= i < |table| && 0 <= j < |table| && table[i].prefix < table[j].prefix
        ensures exists k | 0 <= k < i :: table[k].prefix == table[j].prefix
      {
        LongestIsEarly(table, i, j);
      }
    }
  }

  // ---------------------------------------------------------------- the loops

  method DedupePreserve(items: seq<string>) returns (ordered: seq<string>)
    ensures ordered == Deduped(items)
  {
    var seen: set<string> := {};
    ordered := [];
    for i := 0 to |items|
      invariant ordered == Deduped(items[..i]) && (forall x :: x in seen <==> x in items[..i])
    {
      assert items[..i + 1][..i] == items[..i];
      if items[i] !in seen {
        seen := seen + {items[i]};
        ordered := ordered + [items[i]];
      }
    }
    assert items[..|items|] == items;
  }

  method Collapse(targets: seq<string>) returns (collapsed: seq<string>)
    ensures collapsed == Collapsed(targets)
  {
    var deduped := DedupePreserve(targets);
    var parentDirs := Filter(deduped, t => IsDirectory(t));
    ParentsDecide(targets);
    if parentDirs == [] {
      FilterAll(deduped, t => !Contained(t, targets));
      return deduped;
    }
    collapsed := [];
    for i := 0 to |deduped|
      invariant collapsed == Filter(deduped[..i], t => !Contained(t, targets))
    {
      assert deduped[..i + 1][..i] == deduped[..i];
      if exists d <- parentDirs :: Under(deduped[i], d) {
        continue;
      }
      collapsed := collapsed + [deduped[i]];
    }
    assert deduped[..|deduped|] == deduped;
  }

  /** Looking through the directory targets only is looking through all targets. */
  lemma ParentsDecide(targets: seq<string>)
    ensures var parents := Filter(Deduped(targets), t => IsDirectory(t));
            forall t :: Contained(t, targets) <==> exists d <- parents :: Under(t, d)
  {
    forall d ensures d in Filter(Deduped(targets), t => IsDirectory(t)) <==> d in targets && IsDirectory(d) {
      FilterMember(Deduped(targets), t => IsDirectory(t), d);
      DedupedMember(targets, d);
    }
  }

  method SelectTarget(path: string, table: seq<Rule>) returns (r: Option<string>)
    ensures r == Wanted(path, table)
  {
    var normalized := Normalized(path);
    if normalized == "" {
      return None;
    }
    if UNIT_TESTS <= normalized {
      if EndsWith(normalized, ".py") {
        return Some(normalized);
      }
      var parent := BeforeLastSlash(RStrip(normalized, '/'));
      return Some(if parent != "" then parent + "/" else UNIT_TESTS);
    }
    r := None;
    for i := 0 to |table|
      invariant r == None && FirstMatch(normalized, table) == FirstMatch(normalized, table[i..])
    {
      if table[i].prefix <= normalized {
        r := Some(table[i].target);
        break;
      }
    }
  }

  method SelectImpacted(changed: seq<string>, table: seq<Rule>) returns (selected: seq<string>)
    ensures selected == Collapsed(AllWanted(changed, table))
  {
    var impacted := [];
    for i := 0 to |changed|
      invariant impacted == AllWanted(changed[..i], table)
    {
      assert changed[..i + 1][..i] == changed[..i];
      var target := SelectTarget(changed[i], table);
      if target.Some? {
        impacted := impacted + [target.value];
      }
    }
    assert changed[..|changed|] == changed;
    selected := Collapse(impacted);
  }

  method FilterExisting(paths: seq<string>, files: Files) returns (filtered: seq<string>)
    ensures filtered == Filtered(paths, files)
  {
    var existing := [];
    for i := 0 to |paths|
      invariant existing == Filter(paths[..i], t => Existing(files, t))
    {
      assert paths[..i + 1][..i] == paths[..i];
      if IsDirectory(paths[i]) {
        if files.isDirectory(paths[i]) {
          existing := existing + [paths[i]];
        }
      } else if files.present(paths[i]) {
        existing := existing + [paths[i]];
      }
    }
    assert paths[..|paths|] == paths;
    filtered := Collapse(existing);
  }

  method ResolveImpacted(changed: seq<string>, table: seq<Rule>, files: Files) returns (targets: seq<string>)
    ensures targets == Resolved(changed, table, files)
  {
    var impacted := SelectImpacted(changed, table);
    targets := FilterExisting(impacted, files);
  }
}
