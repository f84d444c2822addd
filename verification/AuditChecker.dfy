/** The check for assertions on some branches only (`ci/audit_tests.py`), against what the
    branches of a test can do when they run. */
module AuditChecker {
  import opened Sequences

  /** A statement, as far as the check tells statements apart. `If` nodes carry their identity. */
  datatype Stmt =
    | Assert
    | AssertCall
    | With(raises: bool, inner: seq<Stmt>)
    | Pass
    | Ellipsis
    | Docstring
    | Jump
    | Simple
    | Call
    | Block(inner: seq<Stmt>)
    | If(id: nat, body: seq<Stmt>, orelse: seq<Stmt>)

  // ---------------------------------------------------------------- what the linter decides

  predicate IsVerifier(s: Stmt) {
    s.Assert? || (s.With? && s.raises) || s.AssertCall?
  }

  predicate IsFiller(s: Stmt) {
    s.Pass? || s.Ellipsis?
  }

  datatype Label = Verified | Empty | Opaque

  function Undocumented(body: seq<Stmt>): seq<Stmt> {
    if body != [] && body[0].Docstring? then body[1..] else body
  }

  function Classified(body: seq<Stmt>): Label {
    var rest := Undocumented(body);
    if exists s <- rest :: IsVerifier(s) then Verified
    else if forall s <- rest :: IsFiller(s) then Empty
    else Opaque
  }

  predicate IsElif(orelse: seq<Stmt>) {
    |orelse| == 1 && orelse[0].If?
  }

  function Branches(n: Stmt): seq<seq<Stmt>>
    requires n.If?
    decreases n
  {
    [n.body] + (if IsElif(n.orelse) then Branches(n.orelse[0]) else if n.orelse != [] then [n.orelse] else [])
  }

  predicate HasElse(n: Stmt)
    requires n.If?
    decreases n
  {
    if IsElif(n.orelse) then HasElse(n.orelse[0]) else n.orelse != []
  }

  function Chained(n: Stmt): seq<Stmt>
    requires n.If?
    decreases n
  {
    if IsElif(n.orelse) then [n.orelse[0]] + Chained(n.orelse[0]) else []
  }

  /** The branch taken for each outcome of the conditions; the last one may be to take none. */
  function Paths(n: Stmt): seq<seq<Stmt>>
    requires n.If?
  {
    if HasElse(n) then Branches(n) else Branches(n) + [[]]
  }

  /** Some path verifies, some path is empty and none is opaque. */
  predicate Partial(paths: seq<seq<Stmt>>) {
    && (exists path <- paths :: Classified(path) == Verified)
    && (exists path <- paths :: Classified(path) == Empty)
    && (forall path <- paths :: Classified(path) != Opaque)
  }

  predicate Flagged(n: Stmt)
    requires n.If?
  {
    Partial(Paths(n))
  }

  // ---------------------------------------------------------------- what running a branch can do

  /** Whether something was checked, and whether control went on behind the statement. */
  datatype Outcome = Outcome(checked: bool, completes: bool)

  const SILENT := Outcome(false, true)

  function Then(a: set<Outcome>, b: set<Outcome>): set<Outcome> {
    (set x <- a | !x.completes) + (set x <- a, y <- b | x.completes :: Outcome(x.checked || y.checked, y.completes))
  }

  /** A check may fail, a simple statement may raise, and calls and blocks may do anything. */
  function Runs(s: Stmt): set<Outcome>
    decreases s
  {
    match s
    case Assert => {Outcome(true, true), Outcome(true, false)}
    case AssertCall => {Outcome(true, true), Outcome(true, false)}
    case With(raises, inner) => if raises then {Outcome(true, true), Outcome(true, false)} else RunsAll(inner)
    case Pass => {SILENT}
    case Ellipsis => {SILENT}
    case Docstring => {SILENT}
    case Jump => {Outcome(false, false)}
    case Simple => {SILENT, Outcome(false, false)}
    case Call => {SILENT, Outcome(false, false), Outcome(true, true), Outcome(true, false)}
    case Block(_) => {SILENT, Outcome(false, false), Outcome(true, true), Outcome(true, false)}
    case If(_, body, orelse) => RunsAll(body) + RunsAll(orelse)
  }

  function RunsAll(body: seq<Stmt>): set<Outcome>
    decreases body
  {
    if body == [] then {SILENT} else Then(Runs(body[0]), RunsAll(body[1..]))
  }

  // ---------------------------------------------------------------- branches

  lemma ThenMember(a: set<Outcome>, b: set<Outcome>, o: Outcome)
    ensures o in Then(a, b) <==>
            || (!o.completes && o in a)
            || (exists x, y | x in a && y in b :: x.completes && o == Outcome(x.checked || y.checked, y.completes))
  {
  }

  lemma ThenSilent(b: set<Outcome>)
    ensures Then({SILENT}, b) == b
  {
    forall o ensures o in Then({SILENT}, b) <==> o in b {
      ThenMember({SILENT}, b, o);
      if o in b {
        assert o == Outcome(SILENT.checked || o.checked, o.completes);
      }
    }
  }

  lemma ThenCompletes(a: set<Outcome>, b: set<Outcome>, o: Outcome) returns (x: Outcome, y: Outcome)
    requires o in Then(a, b) && o.completes
    ensures x in a && y in b && y.completes && o.checked == (x.checked || y.checked)
  {
    x, y :| x in a && y in b && x.completes && o == Outcome(x.checked || y.checked, y.completes);
  }

  lemma VerifierChecks(s: Stmt, o: Outcome)
    requires IsVerifier(s) && o in Runs(s)
    ensures o.checked
  {
  }

  /** Every run that gets to the end of a verified branch has checked something. */
  lemma {:induction false} VerifiedRuns(body: seq<Stmt>, o: Outcome)
    requires (exists s <- body :: IsVerifier(s)) && o in RunsAll(body) && o.completes
    ensures o.checked
    decreases |body|
  {
    var x, y := ThenCompletes(Runs(body[0]), RunsAll(body[1..]), o);
    if IsVerifier(body[0]) {
      VerifierChecks(body[0], x);
    } else {
      assert body == [body[0]] + body[1..];
      VerifiedRuns(body[1..], y);
    }
  }

  /** An empty branch does nothing and is always passed. */
  lemma {:induction false} FillerRuns(body: seq<Stmt>)
    requires forall s <- body :: IsFiller(s)
    ensures RunsAll(body) == {SILENT}
    decreases |body|
  {
    if body != [] {
      FillerRuns(body[1..]);
      assert Runs(body[0]) == {SILENT} by {
        assert IsFiller(body[0]);
      }
      ThenSilent(RunsAll(body[1..]));
    }
  }

  lemma DocstringRuns(body: seq<Stmt>)
    ensures RunsAll(Undocumented(body)) == RunsAll(body)
  {
    if body != [] && body[0].Docstring? {
      ThenSilent(RunsAll(body[1..]));
    }
  }

  lemma VerifiedBranch(body: seq<Stmt>, o: Outcome)
    requires Classified(body) == Verified && o in RunsAll(body)
    ensures o != SILENT
  {
    DocstringRuns(body);
    if o.completes {
      VerifiedRuns(Undocumented(body), o);
    }
  }

  lemma EmptyBranch(body: seq<Stmt>)
    requires Classified(body) == Empty
    ensures RunsAll(body) == {SILENT}
  {
    DocstringRuns(body);
    FillerRuns(Undocumented(body));
  }

  lemma {:induction false} SomethingRuns(s: Stmt)
    ensures Runs(s) != {}
    decreases s
  {
    if s.With? && !s.raises {
      SomethingRunsAll(s.inner);
    } else if s.If? {
      SomethingRunsAll(s.body);
    } else {
      assert SILENT in Runs(s) || Outcome(true, true) in Runs(s) || Outcome(false, false) in Runs(s);
    }
  }

  lemma {:induction false} SomethingRunsAll(body: seq<Stmt>)
    ensures RunsAll(body) != {}
    decreases body
  {
    if body != [] {
      SomethingRuns(body[0]);
      SomethingRunsAll(body[1..]);
      var x, y :| x in Runs(body[0]) && y in RunsAll(body[1..]);
      assert (if x.completes then Outcome(x.checked || y.checked, y.completes) else x) in Then(Runs(body[0]), RunsAll(body[1..]));
    } else {
      assert SILENT in RunsAll(body);
    }
  }

  /** The direct verifiers are the statements that are no blocks to look into and check on every
      run; the fillers are those that do nothing, but for a docstring. */
  lemma VerifierIff(s: Stmt)
    ensures IsVerifier(s) <==> !s.If? && !(s.With? && !s.raises) && forall o <- Runs(s) :: o.checked
    ensures IsFiller(s) <==> !s.If? && !(s.With? && !s.raises) && !s.Docstring? && Runs(s) == {SILENT}
  {
    if !s.If? && !(s.With? && !s.raises) {
      assert Outcome(true, true) in Runs(s) || Outcome(false, false) in Runs(s) || Runs(s) == {SILENT};
      assert Outcome(false, false) != SILENT && SILENT != Outcome(true, true);
      assert !IsVerifier(s) ==> SILENT in Runs(s) || Outcome(false, false) in Runs(s);
    }
  }

  /** The labels in terms of the statements of a branch. */
  lemma LabelsIff(body: seq<Stmt>)
    ensures Classified(body) == Verified <==>
              exists i | 0 <= i < |body| :: body[i].Assert? || body[i].AssertCall? || (body[i].With? && body[i].raises)
    ensures Classified(body) == Empty <==>
              forall i | 0 <= i < |body| :: body[i].Pass? || body[i].Ellipsis? || (i == 0 && body[i].Docstring?)
  {
    var rest := Undocumented(body);
    var k := |body| - |rest|;
    assert forall i | 0 <= i < |rest| :: rest[i] == body[i + k];
    assert forall i | k <= i < |body| :: body[i] == rest[i - k] && body[i] in rest;
  }

  // ---------------------------------------------------------------- chains

  lemma RunsOne(s: Stmt)
    ensures RunsAll([s]) == Runs(s)
  {
    assert RunsAll([s]) == Then(Runs(s), {SILENT});
    forall o ensures o in Then(Runs(s), {SILENT}) <==> o in Runs(s) {
      ThenMember(Runs(s), {SILENT}, o);
      if o in Runs(s) && o.completes {
        assert o == Outcome(o.checked || SILENT.checked, SILENT.completes);
      }
    }
  }

  lemma PathsOf(n: Stmt)
    requires n.If?
    ensures Paths(n) == [n.body] + (if IsElif(n.orelse) then Paths(n.orelse[0]) else [n.orelse])
  {
  }

  /** A chain runs one of its paths: flattening it into paths loses no behaviour and adds none. */
  lemma {:induction false} ChainRunsAPath(n: Stmt, o: Outcome)
    requires n.If?
    ensures o in Runs(n) <==> exists path <- Paths(n) :: o in RunsAll(path)
    decreases n
  {
    PathsOf(n);
    var rest := if IsElif(n.orelse) then Paths(n.orelse[0]) else [n.orelse];
    if IsElif(n.orelse) {
      ChainRunsAPath(n.orelse[0], o);
      RunsOne(n.orelse[0]);
      assert n.orelse == [n.orelse[0]];
    } else {
      assert rest[0] == n.orelse;
    }
    assert o in RunsAll(n.orelse) <==> exists path <- rest :: o in RunsAll(path);
    assert n.body in Paths(n);
  }

  predicate NothingOpaque(n: Stmt)
    requires n.If?
  {
    forall path <- Paths(n) :: Classified(path) != Opaque
  }

  /** A flagged chain has a path on which every completed run has checked something, and
      another on which every run completes without a check. */
  lemma FlaggedIsPartial(n: Stmt) returns (p: seq<Stmt>, q: seq<Stmt>)
    requires n.If? && Flagged(n)
    ensures p in Paths(n) && forall o <- RunsAll(p) :: o.completes ==> o.checked
    ensures q in Paths(n) && RunsAll(q) == {SILENT}
  {
    p :| p in Paths(n) && Classified(p) == Verified;
    q :| q in Paths(n) && Classified(q) == Empty;
    EmptyBranch(q);
    forall o | o in RunsAll(p) ensures o.completes ==> o.checked {
      VerifiedBranch(p, o);
    }
  }

  /** A chain with no opaque branch is left alone only if on all paths every completed run has
      checked something, or no path ever checks anything. */
  lemma UnflaggedIsUniform(n: Stmt)
    requires n.If? && NothingOpaque(n) && !Flagged(n)
    ensures (forall path <- Paths(n) :: forall o <- RunsAll(path) :: o.completes ==> o.checked)
         || (forall path <- Paths(n) :: RunsAll(path) == {SILENT})
  {
    if exists path <- Paths(n) :: Classified(path) == Verified {
      forall path | path in Paths(n) ensures forall o <- RunsAll(path) :: o.completes ==> o.checked {
        forall o | o in RunsAll(path) ensures o.completes ==> o.checked {
          VerifiedBranch(path, o);
        }
      }
    } else {
      forall path | path in Paths(n) ensures RunsAll(path) == {SILENT} {
        EmptyBranch(path);
      }
    }
  }

  lemma PassedSilently(n: Stmt)
    requires n.If? && NothingOpaque(n)
    ensures SILENT in Runs(n) <==> exists path <- Paths(n) :: Classified(path) == Empty
  {
    ChainRunsAPath(n, SILENT);
    forall path | path in Paths(n) ensures SILENT in RunsAll(path) <==> Classified(path) == Empty {
      if Classified(path) == Empty {
        EmptyBranch(path);
      } else if SILENT in RunsAll(path) {
        VerifiedBranch(path, SILENT);
      }
    }
  }

  lemma NotAlwaysSilently(n: Stmt)
    requires n.If? && NothingOpaque(n)
    ensures Runs(n) <= {SILENT} <==> !exists path <- Paths(n) :: Classified(path) == Verified
  {
    if path :| path in Paths(n) && Classified(path) == Verified {
      SomethingRunsAll(path);
      var o :| o in RunsAll(path);
      VerifiedBranch(path, o);
      ChainRunsAPath(n, o);
    } else {
      forall o | o in Runs(n) ensures o == SILENT {
        ChainRunsAPath(n, o);
        var path :| path in Paths(n) && o in RunsAll(path);
        EmptyBranch(path);
      }
    }
  }

  /** A chain with no opaque branch is flagged exactly when it can be passed without a check but
      is not always passed like that. */
  lemma FlaggedIff(n: Stmt)
    requires n.If? && NothingOpaque(n)
    ensures Flagged(n) <==> SILENT in Runs(n) && Runs(n) != {SILENT}
  {
    PassedSilently(n);
    NotAlwaysSilently(n);
    SomethingRuns(n);
  }

  predicate Verifies(body: seq<Stmt>) {
    exists i | 0 <= i < |body| :: body[i].Assert? || body[i].AssertCall? || (body[i].With? && body[i].raises)
  }

  predicate DoesNothing(body: seq<Stmt>) {
    forall i | 0 <= i < |body| :: body[i].Pass? || body[i].Ellipsis? || (i == 0 && body[i].Docstring?)
  }

  /** On any chain: it is flagged exactly when one path verifies, one does nothing and every one
      does either. */
  lemma FlaggedExactly(n: Stmt)
    requires n.If?
    ensures Flagged(n) <==>
              && (exists path <- Paths(n) :: Verifies(path)) && (exists path <- Paths(n) :: DoesNothing(path))
              && (forall path <- Paths(n) :: Verifies(path) || DoesNothing(path))
  {
    forall path | path in Paths(n)
      ensures Classified(path) == Verified <==> Verifies(path)
      ensures Classified(path) == Empty <==> DoesNothing(path)
    {
      LabelsIff(path);
    }
  }

  // ---------------------------------------------------------------- does a flagged chain check at all?

  predicate CanPass(s: Stmt)
    decreases s
  {
    match s
    case Jump => false
    case With(raises, inner) => raises || CanPassAll(inner)
    case If(_, body, orelse) => CanPassAll(body) || CanPassAll(orelse)
    case _ => true
  }

  predicate CanPassAll(body: seq<Stmt>)
    decreases body
  {
    body == [] || (CanPass(body[0]) && CanPassAll(body[1..]))
  }

  predicate CanCheck(s: Stmt)
    decreases s
  {
    match s
    case With(raises, inner) => raises || CanCheckAll(inner)
    case If(_, body, orelse) => CanCheckAll(body) || CanCheckAll(orelse)
    case _ => s.Assert? || s.AssertCall? || s.Call? || s.Block?
  }

  predicate CanCheckAll(body: seq<Stmt>)
    decreases body
  {
    body != [] && (CanCheck(body[0]) || (CanPass(body[0]) && CanCheckAll(body[1..])))
  }

  lemma {:induction false} CanPassIff(s: Stmt)
    ensures CanPass(s) <==> exists o <- Runs(s) :: o.completes
    decreases s
  {
    if s.With? && !s.raises {
      CanPassAllIff(s.inner);
    } else if s.If? {
      CanPassAllIff(s.body);
      CanPassAllIff(s.orelse);
    } else if !s.Jump? {
      assert SILENT in Runs(s) || Outcome(true, true) in Runs(s);
    }
  }

  lemma {:induction false} CanPassAllIff(body: seq<Stmt>)
    ensures CanPassAll(body) <==> exists o <- RunsAll(body) :: o.completes
    decreases body
  {
    if body == [] {
      assert SILENT in RunsAll(body);
    } else {
      CanPassIff(body[0]);
      CanPassAllIff(body[1..]);
      ThenPasses(Runs(body[0]), RunsAll(body[1..]));
    }
  }

  lemma ThenPasses(a: set<Outcome>, b: set<Outcome>)
    ensures (exists o <- Then(a, b) :: o.completes) <==> (exists x <- a :: x.completes) && (exists y <- b :: y.completes)
  {
    if x, y :| x in a && x.completes && y in b && y.completes {
      assert Outcome(x.checked || y.checked, y.completes) in Then(a, b);
    }
  }

  lemma ThenChecks(a: set<Outcome>, b: set<Outcome>)
    requires b != {}
    ensures (exists o <- Then(a, b) :: o.checked) <==>
            (exists x <- a :: x.checked) || ((exists x <- a :: x.completes) && (exists y <- b :: y.checked))
  {
    if x :| x in a && x.checked {
      var y :| y in b;
      assert (if x.completes then Outcome(x.checked || y.checked, y.completes) else x) in Then(a, b);
    } else if x, y :| x in a && x.completes && y in b && y.checked {
      assert Outcome(x.checked || y.checked, y.completes) in Then(a, b);
    }
  }

  lemma {:induction false} CanCheckIff(s: Stmt)
    ensures CanCheck(s) <==> exists o <- Runs(s) :: o.checked
    decreases s
  {
    if s.With? && !s.raises {
      CanCheckAllIff(s.inner);
    } else if s.If? {
      CanCheckAllIff(s.body);
      CanCheckAllIff(s.orelse);
    } else if CanCheck(s) {
      assert Outcome(true, true) in Runs(s);
    }
  }

  /** Some run of the statements checks something exactly when a check comes before every
      unavoidable jump. */
  lemma {:induction false} CanCheckAllIff(body: seq<Stmt>)
    ensures CanCheckAll(body) <==> exists o <- RunsAll(body) :: o.checked
    decreases body
  {
    if body != [] {
      CanCheckIff(body[0]);
      CanPassIff(body[0]);
      CanCheckAllIff(body[1..]);
      SomethingRunsAll(body[1..]);
      ThenChecks(Runs(body[0]), RunsAll(body[1..]));
    }
  }

  /** A chain has a run that checks something exactly when one of its paths can; being flagged
      does not promise it. */
  lemma ChecksSomewhereIff(n: Stmt)
    requires n.If?
    ensures (exists o <- Runs(n) :: o.checked) <==> exists path <- Paths(n) :: CanCheckAll(path)
  {
    forall path | path in Paths(n) ensures CanCheckAll(path) <==> exists o <- RunsAll(path) :: o.checked {
      CanCheckAllIff(path);
    }
    forall o ensures o in Runs(n) <==> exists path <- Paths(n) :: o in RunsAll(path) {
      ChainRunsAPath(n, o);
    }
  }

  lemma ReturnBeforeAssert()
    ensures Classified([Jump, Assert]) == Verified && !CanCheckAll([Jump, Assert])
    ensures Classified([]) == Empty && !CanCheckAll([])
  {
    var body := [Jump, Assert];
    assert Undocumented(body) == body && IsVerifier(body[1]);
    var none: seq<Stmt> := [];
    assert Undocumented(none) == [];
  }

  lemma TwoPathsFlagged(n: Stmt)
    requires n.If? && !IsElif(n.orelse) && Classified(n.body) == Verified && Classified(n.orelse) == Empty
    ensures Flagged(n)
  {
    PathsOf(n);
    assert Paths(n)[0] == n.body && Paths(n)[1] == n.orelse;
  }

  lemma TwoPathsUnchecked(n: Stmt)
    requires n.If? && !IsElif(n.orelse) && !CanCheckAll(n.body) && !CanCheckAll(n.orelse)
    ensures forall o <- Runs(n) :: !o.checked
  {
    PathsOf(n);
    ChecksSomewhereIff(n);
  }

  /** `if x: return; assert y` is flagged although the assertion is never reached. */
  lemma FlaggedWithoutAnyCheck()
    ensures var n := If(0, [Jump, Assert], []);
            Flagged(n) && forall o <- Runs(n) :: !o.checked
  {
    ReturnBeforeAssert();
    TwoPathsFlagged(If(0, [Jump, Assert], []));
    TwoPathsUnchecked(If(0, [Jump, Assert], []));
  }

  // ---------------------------------------------------------------- walking the tree

  function Ids(s: Stmt): set<nat>
    decreases s
  {
    match s
    case If(id, body, orelse) => {id} + IdsAll(body) + IdsAll(orelse)
    case With(_, inner) => IdsAll(inner)
    case Block(inner) => IdsAll(inner)
    case _ => {}
  }

  function IdsAll(body: seq<Stmt>): set<nat>
    decreases body
  {
    if body == [] then {} else Ids(body[0]) + IdsAll(body[1..])
  }

  /** No two `if` nodes are the same object. */
  predicate Separate(s: Stmt)
    decreases s
  {
    match s
    case If(id, body, orelse) =>
      && id !in IdsAll(body) && id !in IdsAll(orelse) && IdsAll(body) !! IdsAll(orelse)
      && SeparateAll(body) && SeparateAll(orelse)
    case With(_, inner) => SeparateAll(inner)
    case Block(inner) => SeparateAll(inner)
    case _ => true
  }

  predicate SeparateAll(body: seq<Stmt>)
    decreases body
  {
    body == [] || (Ids(body[0]) !! IdsAll(body[1..]) && Separate(body[0]) && SeparateAll(body[1..]))
  }

  /** The `if` nodes of a statement that start a chain, in source order; `head` is whether the
      statement itself does. */
  function Heads(s: Stmt, head: bool): seq<Stmt>
    decreases s
  {
    match s
    case If(_, body, orelse) =>
      var below := HeadsAll(body) + (if IsElif(orelse) then Heads(orelse[0], false) else HeadsAll(orelse));
      if head then [s] + below else below
    case With(_, inner) => HeadsAll(inner)
    case Block(inner) => HeadsAll(inner)
    case _ => []
  }

  function HeadsAll(body: seq<Stmt>): seq<Stmt>
    decreases body
  {
    if body == [] then [] else Heads(body[0], true) + HeadsAll(body[1..])
  }

  predicate IsFlagged(n: Stmt) {
    n.If? && Flagged(n)
  }

  function ChainIds(n: Stmt): set<nat>
    requires n.If?
    decreases n
  {
    if IsElif(n.orelse) then {n.orelse[0].id} + ChainIds(n.orelse[0]) else {}
  }

  lemma {:induction false} ChainIdsBelow(n: Stmt)
    requires n.If?
    ensures ChainIds(n) <= IdsAll(n.orelse)
    decreases n
  {
    if IsElif(n.orelse) {
      ChainIdsBelow(n.orelse[0]);
      assert n.orelse == [n.orelse[0]];
      assert Ids(n.orelse[0]) <= IdsAll(n.orelse);
    }
  }

  // ---------------------------------------------------------------- every chain, once

  function Ifs(s: Stmt): seq<Stmt>
    decreases s
  {
    match s
    case If(id, body, orelse) => [s] + IfsAll(body) + IfsAll(orelse)
    case With(_, inner) => IfsAll(inner)
    case Block(inner) => IfsAll(inner)
    case _ => []
  }

  function IfsAll(body: seq<Stmt>): seq<Stmt>
    decreases body
  {
    if body == [] then [] else Ifs(body[0]) + IfsAll(body[1..])
  }

  /** The nodes of the chains with these heads. */
  function Members(heads: seq<Stmt>): seq<Stmt> {
    if heads == [] then []
    else
      var n := heads[0];
      if n.If? then [n] + Chained(n) + Members(heads[1..]) else Members(heads[1..])
  }

  lemma {:induction false} MembersTogether(a: seq<Stmt>, b: seq<Stmt>)
    ensures Members(a + b) == Members(a) + Members(b)
  {
    if a == [] {
      assert a + b == b;
    } else {
      assert (a + b)[1..] == a[1..] + b;
      MembersTogether(a[1..], b);
    }
  }

  lemma HeadOnTop(s: Stmt)
    requires s.If?
    ensures Members(Heads(s, true)) == [s] + Chained(s) + Members(Heads(s, false))
  {
    assert ([s] + Heads(s, false))[1..] == Heads(s, false);
  }

  lemma Regrouped(n: Stmt, a: seq<Stmt>, a': seq<Stmt>, b: seq<Stmt>, c: seq<Stmt>, d: seq<Stmt>)
    requires multiset(a) == multiset(a') && multiset(b) + multiset(c) == multiset(d)
    ensures multiset(a + b) + multiset([n] + c) == multiset([n] + a' + d)
  {
  }

  /** Every `if` node of the tree belongs to exactly one chain with a head, as the head or as
      one of its `elif` nodes. */
  lemma {:induction false} ChainsPartitionIfs(s: Stmt)
    ensures multiset(Members(Heads(s, true))) == multiset(Ifs(s))
    decreases s, 1
  {
    if s.If? {
      HeadOnTop(s);
      ChainsBelow(s);
    } else if s.With? || s.Block? {
      ChainsPartitionAll(s.inner);
    }
  }

  lemma {:induction false} ChainsBelow(s: Stmt)
    requires s.If?
    ensures multiset(Members(Heads(s, false))) + multiset([s] + Chained(s)) == multiset(Ifs(s))
    decreases s, 0
  {
    var heads, ifs := Members(HeadsAll(s.body)), IfsAll(s.body);
    ChainsPartitionAll(s.body);
    BelowOf(s);
    if IsElif(s.orelse) {
      var next := s.orelse[0];
      ChainsBelow(next);
      Regrouped(s, heads, ifs, Members(Heads(next, false)), [next] + Chained(next), Ifs(next));
    } else {
      ChainsPartitionAll(s.orelse);
      Regrouped(s, heads, ifs, Members(HeadsAll(s.orelse)), [], IfsAll(s.orelse));
    }
  }

  lemma BelowOf(s: Stmt)
    requires s.If?
    ensures Members(Heads(s, false)) == Members(HeadsAll(s.body))
              + Members(if IsElif(s.orelse) then Heads(s.orelse[0], false) else HeadsAll(s.orelse))
    ensures Ifs(s) == [s] + IfsAll(s.body) + (if IsElif(s.orelse) then Ifs(s.orelse[0]) else IfsAll(s.orelse))
    ensures Chained(s) == if IsElif(s.orelse) then [s.orelse[0]] + Chained(s.orelse[0]) else []
  {
    if IsElif(s.orelse) {
      OnlyIf(s.orelse);
      MembersTogether(HeadsAll(s.body), Heads(s.orelse[0], false));
    } else {
      MembersTogether(HeadsAll(s.body), HeadsAll(s.orelse));
    }
  }

  lemma OnlyIf(orelse: seq<Stmt>)
    requires IsElif(orelse)
    ensures IfsAll(orelse) == Ifs(orelse[0]) && IdsAll(orelse) == Ids(orelse[0])
    ensures SeparateAll(orelse) ==> Separate(orelse[0])
  {
    assert orelse == [orelse[0]];
  }

  lemma {:induction false} ChainsPartitionAll(body: seq<Stmt>)
    ensures multiset(Members(HeadsAll(body))) == multiset(IfsAll(body))
    decreases body
  {
    if body != [] {
      MembersTogether(Heads(body[0], true), HeadsAll(body[1..]));
      ChainsPartitionIfs(body[0]);
      ChainsPartitionAll(body[1..]);
    }
  }

  // ---------------------------------------------------------------- the visitor

  lemma Moves<T>(done: seq<T>, next: T, rest: seq<T>)
    ensures done + ([next] + rest) == done + [next] + rest
  {
  }

  lemma NextBranches(n: Stmt)
    requires n.If? && IsElif(n.orelse)
    ensures Branches(n)[1..] == Branches(n.orelse[0]) == [n.orelse[0].body] + Branches(n.orelse[0])[1..]
    ensures Chained(n) == [n.orelse[0]] + Chained(n.orelse[0]) && HasElse(n) == HasElse(n.orelse[0])
  {
  }

  method FlattenIfChain(node: Stmt) returns (branches: seq<seq<Stmt>>, hasElse: bool, chained: seq<Stmt>)
    requires node.If?
    ensures branches == Branches(node) && hasElse == HasElse(node) && chained == Chained(node)
  {
    branches, chained := [node.body], [];
    var cur := node;
    while |cur.orelse| == 1 && cur.orelse[0].If?
      invariant cur.If? && branches + Branches(cur)[1..] == Branches(node)
      invariant chained + Chained(cur) == Chained(node) && HasElse(cur) == HasElse(node)
      decreases cur
    {
      NextBranches(cur);
      Moves(branches, cur.orelse[0].body, Branches(cur.orelse[0])[1..]);
      Moves(chained, cur.orelse[0], Chained(cur.orelse[0]));
      cur := cur.orelse[0];
      branches := branches + [cur.body];
      chained := chained + [cur];
    }
    hasElse := cur.orelse != [];
    if hasElse {
      branches := branches + [cur.orelse];
    }
  }

  method Judge(branches: seq<seq<Stmt>>, hasElse: bool) returns (flagged: bool)
    ensures flagged <==> Partial(if hasElse then branches else branches + [[]])
  {
    var labels: seq<Label> := [];
    for i := 0 to |branches|
      invariant |labels| == i && forall j | 0 <= j < i :: labels[j] == Classified(branches[j])
    {
      labels := labels + [Classified(branches[i])];
    }
    ghost var paths := branches;
    if !hasElse {
      labels := labels + [Empty];
      paths := branches + [[]];
      EmptyListIsEmpty();
    }
    assert |labels| == |paths| && forall j | 0 <= j < |paths| :: labels[j] == Classified(paths[j]);
    MapsLabels(paths, labels, Verified);
    MapsLabels(paths, labels, Empty);
    MapsLabels(paths, labels, Opaque);
    flagged := Verified in labels && Empty in labels && Opaque !in labels;
  }

  lemma EmptyListIsEmpty()
    ensures Classified([]) == Empty
  {
    var none: seq<Stmt> := [];
    assert Undocumented(none) == [];
  }

  lemma MapsLabels(paths: seq<seq<Stmt>>, labels: seq<Label>, wanted: Label)
    requires |labels| == |paths| && forall j | 0 <= j < |paths| :: labels[j] == Classified(paths[j])
    ensures wanted in labels <==> exists path <- paths :: Classified(path) == wanted
  {
    if wanted in labels {
      var j :| 0 <= j < |labels| && labels[j] == wanted;
      assert paths[j] in paths;
    }
    if path :| path in paths && Classified(path) == wanted {
      var j :| 0 <= j < |paths| && paths[j] == path;
      assert labels[j] in labels;
    }
  }

  lemma {:induction false} ChainIdsOf(n: Stmt, id: nat)
    requires n.If?
    ensures id in ChainIds(n) <==> exists c <- Chained(n) :: c.If? && c.id == id
    decreases n
  {
    if IsElif(n.orelse) {
      ChainIdsOf(n.orelse[0], id);
      assert Chained(n) == [n.orelse[0]] + Chained(n.orelse[0]);
    }
  }

  /** A node is found handled exactly if it is an `elif` node; below it, the nodes of its own
      chain are handled and no others, once the chain is marked. */
  lemma HandledBelow(s: Stmt, handled: set<nat>, head: bool)
    requires s.If? && Separate(s) && handled * Ids(s) == if head then {} else {s.id} + ChainIds(s)
    ensures s.id in handled <==> !head
    ensures !head ==> handled + ChainIds(s) == handled
    ensures ChainIds(s) <= Ids(s)
    ensures (handled + ChainIds(s)) * IdsAll(s.body) == {}
    ensures (handled + ChainIds(s)) * IdsAll(s.orelse) == ChainIds(s)
  {
    ChainIdsBelow(s);
    assert s.id in Ids(s);
  }

  /** Visiting the body handles nothing in the `else` part. */
  lemma HandledBeside(s: Stmt, before: set<nat>, after: set<nat>)
    requires s.If? && Separate(s) && before <= after <= before + IdsAll(s.body)
    requires before * IdsAll(s.orelse) == ChainIds(s)
    ensures after * IdsAll(s.orelse) == ChainIds(s)
    ensures SeparateAll(s.orelse) && IdsAll(s.body) <= Ids(s) && IdsAll(s.orelse) <= Ids(s)
  {
  }

  lemma Reassociate(seen: seq<Stmt>, s: Stmt)
    requires s.If?
    ensures seen + HeadsAll(s.body) + (if IsElif(s.orelse) then Heads(s.orelse[0], false) else HeadsAll(s.orelse))
            == seen + Heads(s, false)
  {
  }

  // ---------------------------------------------------------------- what is reported

  const CONDITIONAL_ASSERT := "conditional_assert"
  const CONDITIONAL_ASSERT_TIERS: set<string> := {"unit", "integration"}
  const NOQA := "# audit-noqa"

  /** The line as a report quotes it; what a line has beyond is not looked at. */
  function Quoted(stripped: string): string {
    if |stripped| > 120 then stripped[..120] else stripped
  }

  predicate Contains(text: string, part: string) {
    exists i | 0 <= i <= |text| :: part <= text[i..]
  }

  predicate HasNoqa(stripped: string, rule: string) {
    Contains(Quoted(stripped), NOQA + ": " + rule) || Contains(Quoted(stripped), NOQA)
  }

  /** A comment that names a rule silences every rule of its line, and nothing does so beyond
      the quoted part. */
  lemma NoqaNamesNoRule(stripped: string, rule: string)
    ensures HasNoqa(stripped, rule) <==> Contains(Quoted(stripped), NOQA)
  {
    var text := Quoted(stripped);
    if i :| 0 <= i <= |text| && NOQA + ": " + rule <= text[i..] {
      assert NOQA <= text[i..];
    }
  }

  /** Whether a flagged chain is reported, for the tier of its file and the line it starts on. */
  predicate Emits(tier: string, stripped: string) {
    tier in CONDITIONAL_ASSERT_TIERS && !HasNoqa(stripped, CONDITIONAL_ASSERT)
  }

  /** The filters in literal terms: the tier is one of two, and the first 120 characters of the
      line hold no silencing comment. */
  lemma EmitsIff(tier: string, stripped: string)
    ensures Emits(tier, stripped) <==>
              && (tier == "unit" || tier == "integration")
              && forall before, after: string | stripped == before + "# audit-noqa" + after :: |before| > 108
  {
    NoqaNamesNoRule(stripped, CONDITIONAL_ASSERT);
    var text := Quoted(stripped);
    if Contains(text, NOQA) {
      var i :| 0 <= i <= |text| && NOQA <= text[i..];
      var before, after := stripped[..i], stripped[i + |NOQA|..];
      assert stripped[i..i + |NOQA|] == text[i..][..|NOQA|] == NOQA;
      assert stripped == before + "# audit-noqa" + after && |before| <= 108;
    }
    forall before, after: string | stripped == before + "# audit-noqa" + after ensures |before| > 108 || Contains(text, NOQA) {
      if |before| <= 108 {
        assert text[|before|..][..12] == stripped[|before|..][..12] == NOQA;
        assert NOQA <= text[|before|..];
      }
    }
  }

  function Reports(tier: string, line: Stmt -> string): Stmt -> bool {
    n => IsFlagged(n) && Emits(tier, line(n))
  }

  lemma HeadFirst(seen: seq<Stmt>, s: Stmt)
    requires s.If?
    ensures seen + [s] + Heads(s, false) == seen + Heads(s, true)
  {
    assert Heads(s, true) == [s] + Heads(s, false);
  }

  lemma Associates(a: seq<Stmt>, b: seq<Stmt>, c: seq<Stmt>)
    ensures a + b + c == a + (b + c)
  {
  }

  lemma MarkedWithin(before: set<nat>, chain: set<nat>, after: set<nat>, ids: set<nat>)
    requires chain <= ids && before + chain <= after <= before + chain + ids
    ensures before <= after <= before + ids
  {
  }

  lemma Apart(a: set<nat>, b: set<nat>)
    requires a * b == {}
    ensures a !! b
  {
    forall x | x in a ensures x !in b {
      assert x in b ==> x in a * b;
    }
  }

  lemma StillApart(start: set<nat>, before: set<nat>, after: set<nat>, first: set<nat>, rest: set<nat>, all: set<nat>)
    requires before !! first + rest && first !! rest && first + rest <= all
    requires start <= before <= start + all && before <= after <= before + first
    ensures after !! rest && rest <= all && start <= after <= start + all
  {
  }

  lemma From(body: seq<Stmt>, i: nat)
    requires i < |body| && SeparateAll(body[i..])
    ensures HeadsAll(body[i..]) == Heads(body[i], true) + HeadsAll(body[i + 1..])
    ensures IdsAll(body[i..]) == Ids(body[i]) + IdsAll(body[i + 1..]) && Ids(body[i]) !! IdsAll(body[i + 1..])
    ensures Separate(body[i]) && SeparateAll(body[i + 1..])
  {
    assert body[i..][1..] == body[i + 1..];
  }

  class AstChecker {
    const tier: string
    const line: Stmt -> string
    var issues: seq<Stmt>
    var handled: set<nat>
    ghost var classified: seq<Stmt>

    /** Of the chains classified so far, exactly the flagged ones that are not filtered out
        by tier or comment have been reported. */
    ghost predicate Valid()
      reads this
    {
      issues == Filter(classified, Reports(tier, line))
    }

    constructor (tier: string, line: Stmt -> string)
      ensures this.tier == tier && this.line == line
      ensures Valid() && handled == {} && classified == []
    {
      this.tier, this.line := tier, line;
      issues, handled, classified := [], {}, [];
    }

    method Emit(s: Stmt)
      modifies `issues
      ensures issues == old(issues) + if Emits(tier, line(s)) then [s] else []
    {
      if tier !in CONDITIONAL_ASSERT_TIERS {
        return;
      }
      if HasNoqa(line(s), CONDITIONAL_ASSERT) {
        return;
      }
      issues := issues + [s];
    }

    /** `visit_If`: an `elif` node handled together with its head is only walked through. */
    method VisitIf(s: Stmt, ghost head: bool)
      requires Valid() && s.If? && Separate(s)
      requires handled * Ids(s) == if head then {} else {s.id} + ChainIds(s)
      modifies this
      ensures Valid() && classified == old(classified) + Heads(s, head)
      ensures old(handled) <= handled <= old(handled) + Ids(s)
      decreases s, 2, 1
    {
      HandledBelow(s, handled, head);
      if s.id in handled {
        GenericVisit(s);
      } else {
        VisitHead(s);
      }
    }

    method VisitHead(s: Stmt)
      requires Valid() && s.If? && Separate(s) && handled * Ids(s) == {}
      modifies this
      ensures Valid() && classified == old(classified) + Heads(s, true)
      ensures old(handled) <= handled <= old(handled) + Ids(s)
      decreases s, 2, 0
    {
      ghost var seen, before := classified, handled;
      HandledBelow(s, handled, true);
      ClassifyChain(s);
      GenericVisit(s);
      HeadFirst(seen, s);
      MarkedWithin(before, ChainIds(s), handled, Ids(s));
    }

    method ClassifyChain(s: Stmt)
      requires Valid() && s.If?
      modifies this
      ensures Valid() && classified == old(classified) + [s] && handled == old(handled) + ChainIds(s)
    {
      var branches, hasElse, chained := FlattenIfChain(s);
      MarkHandled(s, chained);
      var flagged := Judge(branches, hasElse);
      assert flagged <==> IsFlagged(s);
      FilterOneMore(classified, s, Reports(tier, line));
      if flagged {
        Emit(s);
      }
      classified := classified + [s];
    }

    method MarkHandled(s: Stmt, chained: seq<Stmt>)
      requires s.If? && chained == Chained(s)
      modifies `handled
      ensures handled == old(handled) + ChainIds(s)
    {
      forall id ensures id in ChainIds(s) <==> exists c <- chained :: c.If? && c.id == id {
        ChainIdsOf(s, id);
      }
      for i := 0 to |chained|
        invariant forall id :: id in handled <==> id in old(handled) || exists c <- chained[..i] :: c.If? && c.id == id
      {
        assert chained[..i + 1] == chained[..i] + [chained[i]];
        if chained[i].If? {
          handled := handled + {chained[i].id};
        }
      }
      assert chained[..|chained|] == chained;
    }

    method Visit(s: Stmt)
      requires Valid() && Separate(s) && handled !! Ids(s)
      modifies this
      ensures Valid() && classified == old(classified) + Heads(s, true)
      ensures old(handled) <= handled <= old(handled) + Ids(s)
      decreases s, 3
    {
      if s.If? {
        VisitIf(s, true);
      } else {
        GenericVisit(s);
      }
    }

    method GenericVisit(s: Stmt)
      requires Valid() && Separate(s)
      requires s.If? ==> handled * IdsAll(s.body) == {} && handled * IdsAll(s.orelse) == ChainIds(s)
      requires !s.If? ==> handled !! Ids(s)
      modifies this
      ensures Valid() && classified == old(classified) + Heads(s, false)
      ensures old(handled) <= handled <= old(handled) + Ids(s)
      decreases s, 1
    {
      if s.If? {
        ghost var before, seen := handled, classified;
        VisitAll(s.body);
        HandledBeside(s, before, handled);
        VisitOrelse(s);
        Reassociate(seen, s);
      } else if s.With? || s.Block? {
        VisitAll(s.inner);
      }
    }

    /** The only statement of an `else` that is an `if` is the next node of the chain. */
    method VisitOrelse(s: Stmt)
      requires Valid() && s.If? && SeparateAll(s.orelse) && handled * IdsAll(s.orelse) == ChainIds(s)
      modifies this
      ensures Valid()
      ensures classified == old(classified) + (if IsElif(s.orelse) then Heads(s.orelse[0], false) else HeadsAll(s.orelse))
      ensures old(handled) <= handled <= old(handled) + IdsAll(s.orelse)
      decreases s, 0
    {
      if IsElif(s.orelse) {
        OnlyIf(s.orelse);
        VisitIf(s.orelse[0], false);
      } else {
        Apart(handled, IdsAll(s.orelse));
        VisitAll(s.orelse);
      }
    }

    /** On any tree the chain heads are classified in source order, each of them once. */
    method VisitAll(body: seq<Stmt>)
      requires Valid() && SeparateAll(body) && handled !! IdsAll(body)
      modifies this
      ensures Valid() && classified == old(classified) + HeadsAll(body)
      ensures old(handled) <= handled <= old(handled) + IdsAll(body)
      decreases body, 0
    {
      ghost var all, heads := IdsAll(body), old(classified) + HeadsAll(body);
      assert body[0..] == body;
      for i := 0 to |body|
        invariant Valid() && classified + HeadsAll(body[i..]) == heads
        invariant SeparateAll(body[i..]) && handled !! IdsAll(body[i..]) && IdsAll(body[i..]) <= all
        invariant old(handled) <= handled <= old(handled) + all
      {
        ghost var seen, before := classified, handled;
        From(body, i);
        Visit(body[i]);
        StillApart(old(handled), before, handled, Ids(body[i]), IdsAll(body[i + 1..]), all);
        Associates(seen, Heads(body[i], true), HeadsAll(body[i + 1..]));
      }
    }
  }
}
