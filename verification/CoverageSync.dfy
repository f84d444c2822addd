/** Keeping one tracking issue per uncovered flow (`ci/harness/check_nightly_coverage.py`). */
module CoverageSync {
  import opened Wrappers
  import opened CoverageMarker

  // ---------------------------------------------------------------- classification

  predicate Claims(claim: string, ran: string) {
    ran == claim || claim + "::" <= ran || claim + "[" <= ran
  }

  predicate RanCovers(claim: string, ran: set<string>) {
    exists r <- ran :: Claims(claim, r)
  }

  datatype Kind = Fine | Drift | DeclaredGap

  function Classified(status: string, nodeids: seq<string>, ran: set<string>): Kind {
    if status in {"manual", "external", "not_applicable"} then Fine
    else if status in {"gap", "partial"} then DeclaredGap
    else if status == "covered" then (if exists n <- nodeids :: !RanCovers(n, ran) then Drift else Fine)
    else DeclaredGap
  }

  /** A class or a file is covered by whatever covers something in it. */
  lemma CoverIsInherited(outer: string, name: string, ran: set<string>)
    requires RanCovers(outer + "::" + name, ran)
    ensures RanCovers(outer, ran)
  {
    var r :| r in ran && Claims(outer + "::" + name, r);
    assert outer + "::" <= r;
  }

  /** A longer name that goes on neither inside the claim nor with a parameter does not count. */
  lemma LongerNameIsAnother(claim: string, more: string)
    requires more != "" && more[0] != '['
    ensures Claims(claim, claim + more) <==> |more| >= 2 && more[0] == ':' && more[1] == ':'
  {
    var ran := claim + more;
    assert ran[|claim|] == more[0];
    if |more| >= 2 {
      assert ran[|claim| + 1] == more[1];
      if more[0] == ':' && more[1] == ':' {
        assert ran[..|claim| + 2] == claim + "::";
      }
    }
    if claim + "::" <= ran {
      assert (claim + "::")[|claim|] == ':' && (claim + "::")[|claim| + 1] == ':';
    }
    assert (claim + "[")[|claim|] == '[';
  }

  /** Which claims a set of executed tests covers: the tests themselves, what they are in, and the
      functions they are variants of. */
  lemma RanCoversIff(claim: string, ran: set<string>)
    ensures RanCovers(claim, ran) <==>
              exists r <- ran ::
                && |claim| <= |r| && r[..|claim|] == claim
                && (|r| == |claim| || r[|claim|] == '[' || (|r| > |claim| + 1 && r[|claim|] == ':' && r[|claim| + 1] == ':'))
  {
    forall r | r in ran
      ensures Claims(claim, r) <==>
                && |claim| <= |r| && r[..|claim|] == claim
                && (|r| == |claim| || r[|claim|] == '[' || (|r| > |claim| + 1 && r[|claim|] == ':' && r[|claim| + 1] == ':'))
    {
      ClaimsIff(claim, r);
    }
  }

  lemma ClaimsIff(claim: string, r: string)
    ensures Claims(claim, r) <==>
              && |claim| <= |r| && r[..|claim|] == claim
              && (|r| == |claim| || r[|claim|] == '[' || (|r| > |claim| + 1 && r[|claim|] == ':' && r[|claim| + 1] == ':'))
  {
    if |claim| <= |r| && r[..|claim|] == claim {
      assert r == claim + r[|claim|..];
      var more := r[|claim|..];
      if more == "" {
        assert r == claim;
      } else {
        LongerClaims(claim, more);
      }
    } else {
      NoExtension(claim, "::", r);
      NoExtension(claim, "[", r);
    }
  }

  lemma NoExtension(claim: string, more: string, r: string)
    requires !(claim <= r)
    ensures !(claim + more <= r)
  {
  }

  lemma LongerClaims(claim: string, more: string)
    requires more != ""
    ensures Claims(claim, claim + more) <==> more[0] == '[' || (|more| > 1 && more[0] == ':' && more[1] == ':')
  {
    if more[0] == '[' {
      assert (claim + more)[..|claim| + 1] == claim + "[";
    } else {
      LongerNameIsAnother(claim, more);
    }
  }

  /** A flow classified at night; `rest` is its issue body behind the marker. */
  datatype Result = Result(flow: string, kind: Kind, title: string, rest: string)

  predicate NeedsIssue(r: Result) {
    r.kind != Fine
  }

  function Body(r: Result): string {
    Marker(r.flow) + r.rest
  }

  // ---------------------------------------------------------------- the tracker

  datatype Issue = Issue(open: bool, title: string, body: string)

  datatype Call = Create(title: string, body: string) | Reopen(number: nat) | Update(number: nat, title: string, body: string)
                | Comment(number: nat) | Close(number: nat)

  /** The issues with the label, by number, and the calls made. */
  datatype Repo = Repo(issues: map<nat, Issue>, next: nat, log: seq<Call>)

  ghost predicate NumbersAreUsed(t: Repo) {
    forall n <- t.issues :: n < t.next
  }

  function Perform(t: Repo, call: Call): Repo {
    var t := t.(log := t.log + [call]);
    match call
    case Create(title, body) => t.(issues := t.issues[t.next := Issue(true, title, body)], next := t.next + 1)
    case Reopen(n) => if n in t.issues then t.(issues := t.issues[n := t.issues[n].(open := true)]) else t
    case Update(n, title, body) =>
      if n in t.issues then t.(issues := t.issues[n := t.issues[n].(title := title, body := body)]) else t
    case Comment(_) => t
    case Close(n) => if n in t.issues then t.(issues := t.issues[n := t.issues[n].(open := false)]) else t
  }

  /** The issue found for a flow when the issues were listed. */
  datatype Found = Found(number: nat, open: bool)

  /** The calls `_sync_one` makes. */
  function Calls(r: Result, found: Option<Found>): seq<Call> {
    match found
    case None => if NeedsIssue(r) then [Create(r.title, Body(r))] else []
    case Some(f) =>
      if NeedsIssue(r) then
        (if f.open then [] else [Reopen(f.number)]) + [Update(f.number, r.title, Body(r))]
      else if f.open then [Comment(f.number), Close(f.number)]
      else []
  }

  function PerformAll(t: Repo, calls: seq<Call>): Repo {
    if calls == [] then t else Perform(PerformAll(t, calls[..|calls| - 1]), calls[|calls| - 1])
  }

  /** How many calls for a flow succeed before one raises. */
  type Faults = string -> nat

  /** The calls that are made when the call with this number raises. */
  function Made(calls: seq<Call>, budget: nat): seq<Call> {
    if budget < |calls| then calls[..budget] else calls
  }

  function SyncOne(t: Repo, r: Result, found: Option<Found>, faults: Faults): Repo {
    PerformAll(t, Made(Calls(r, found), faults(r.flow)))
  }

  function Marked(t: Repo, n: nat): Option<string>
    requires n in t.issues
  {
    Parse(t.issues[n].body)
  }

  /** The first issue of each flow in the listing. */
  function Index(t: Repo, listing: seq<nat>): map<string, Found>
    requires forall n <- listing :: n in t.issues
  {
    if listing == [] then map[]
    else
      var before, n := Index(t, listing[..|listing| - 1]), listing[|listing| - 1];
      var flow := Marked(t, n);
      if flow.Some? && flow.value !in before then before[flow.value := Found(n, t.issues[n].open)] else before
  }

  function Get<K, V>(m: map<K, V>, k: K): Option<V> {
    if k in m then Some(m[k]) else None
  }

  function SyncAll(t: Repo, results: seq<Result>, index: map<string, Found>, faults: Faults): Repo {
    if results == [] then t
    else
      var before, r := SyncAll(t, results[..|results| - 1], index, faults), results[|results| - 1];
      SyncOne(before, r, Get(index, r.flow), faults)
  }

  /** What `_sync_one` reports; `Failed` is a call that raised. */
  datatype Action = Created | Updated | Closed | Noop | Failed

  datatype Entry = Entry(action: Action, flow: string)

  function ActionOf(r: Result, found: Option<Found>, faults: Faults): Action {
    if faults(r.flow) < |Calls(r, found)| then Failed
    else if NeedsIssue(r) then (if found.None? then Created else Updated)
    else if Calls(r, found) != [] then Closed
    else Noop
  }

  /** The report of a sync, without the flows it left alone. */
  function Actions(results: seq<Result>, index: map<string, Found>, faults: Faults): seq<Entry> {
    if results == [] then []
    else
      var before, r := Actions(results[..|results| - 1], index, faults), results[|results| - 1];
      var action := ActionOf(r, Get(index, r.flow), faults);
      if action == Noop then before else before + [Entry(action, r.flow)]
  }

  /** The listing names every issue with the label, in whatever order. */
  ghost predicate Lists(listing: seq<nat>, t: Repo) {
    forall n :: n in listing <==> n in t.issues
  }

  function Synced(t: Repo, results: seq<Result>, listing: seq<nat>, faults: Faults): Repo
    requires Lists(listing, t)
  {
    SyncAll(t, results, Index(t, listing), faults)
  }

  // ---------------------------------------------------------------- one flow

  /** At most one issue carries the marker of any flow. */
  ghost predicate UniqueMarks(t: Repo) {
    forall m, n | m in t.issues && n in t.issues :: Marked(t, m).Some? && Marked(t, m) == Marked(t, n) ==> m == n
  }

  ghost predicate Agrees(t: Repo, flow: string, found: Option<Found>) {
    match found
    case None => forall n <- t.issues :: Marked(t, n) != Some(flow)
    case Some(f) => f.number in t.issues && Marked(t, f.number) == Some(flow) && t.issues[f.number].open == f.open
  }

  /** What a flow's issues should look like. */
  ghost predicate Settled(t: Repo, r: Result) {
    if NeedsIssue(r) then exists n <- t.issues :: Marked(t, n) == Some(r.flow) && t.issues[n] == Issue(true, r.title, Body(r))
    else forall n <- t.issues :: Marked(t, n) == Some(r.flow) ==> !t.issues[n].open
  }

  predicate Among(mark: Option<string>, flows: set<string>) {
    mark.Some? && mark.value in flows
  }

  /** Issues that carry the marker of none of the flows are the same, and none is new. */
  ghost predicate SameOutside(t: Repo, t': Repo, flows: set<string>) {
    && (forall n <- t.issues :: n in t'.issues && (!Among(Marked(t, n), flows) ==> t'.issues[n] == t.issues[n]))
    && (forall n <- t'.issues :: !Among(Marked(t', n), flows) ==> n in t.issues && t'.issues[n] == t.issues[n])
  }

  lemma SameOutsideBoth(a: Repo, b: Repo, c: Repo, flows: set<string>, more: set<string>)
    requires SameOutside(a, b, flows) && SameOutside(b, c, more)
    ensures SameOutside(a, c, flows + more)
  {
  }

  lemma CreateSettles(t: Repo, r: Result)
    requires Valid(r.flow) && NumbersAreUsed(t) && UniqueMarks(t) && Agrees(t, r.flow, None) && NeedsIssue(r)
    ensures var t' := Perform(t, Create(r.title, Body(r)));
            Settled(t', r) && UniqueMarks(t') && NumbersAreUsed(t') && SameOutside(t, t', {r.flow})
  {
    RoundTripIff(r.flow, r.rest);
    var t' := Perform(t, Create(r.title, Body(r)));
    assert Marked(t', t.next) == Some(r.flow);
  }

  /** Any change of the flow's one issue that keeps its marker. */
  lemma RewriteIsLocal(t: Repo, n: nat, issue: Issue, flow: string, log: seq<Call>)
    requires NumbersAreUsed(t) && UniqueMarks(t) && n in t.issues && Marked(t, n) == Some(flow)
    requires Parse(issue.body) == Some(flow)
    ensures var t' := Repo(t.issues[n := issue], t.next, log);
            && UniqueMarks(t') && NumbersAreUsed(t') && SameOutside(t, t', {flow})
            && (forall m <- t'.issues :: Marked(t', m) == Some(flow) ==> m == n)
  {
    var t' := Repo(t.issues[n := issue], t.next, log);
    forall m | m in t'.issues ensures Marked(t', m) == Marked(t, m) {
    }
  }

  lemma PerformShort(t: Repo, a: Call, b: Call)
    ensures PerformAll(t, []) == t
    ensures PerformAll(t, [a]) == Perform(t, a)
    ensures PerformAll(t, [a, b]) == Perform(Perform(t, a), b)
  {
    assert [a][..0] == [] && [a, b][..1] == [a] && [a, b][..0] == [];
  }

  /** What part of an issue's calls leaves of it. */
  function Rewritten(issue: Issue, r: Result, found: Found, made: nat): Issue {
    if NeedsIssue(r) then
      if found.open then (if made == 0 then issue else issue.(title := r.title, body := Body(r)))
      else if made == 0 then issue
      else if made == 1 then issue.(open := true)
      else Issue(true, r.title, Body(r))
    else if found.open && made >= 2 then issue.(open := false)
    else issue
  }

  lemma MadeOf(t: Repo, a: Call, b: Call, budget: nat)
    ensures PerformAll(t, Made([a], budget)) == if budget == 0 then t else Perform(t, a)
    ensures PerformAll(t, Made([a, b], budget))
            == if budget == 0 then t else if budget == 1 then Perform(t, a) else Perform(Perform(t, a), b)
  {
    PerformShort(t, a, b);
    assert [a][..0] == [] && [a, b][..0] == [] && [a, b][..1] == [a];
  }

  lemma SyncRewrites(t: Repo, r: Result, found: Found, faults: Faults)
    requires found.number in t.issues && t.issues[found.number].open == found.open
    ensures var t' := SyncOne(t, r, Some(found), faults);
            && t'.issues == t.issues[found.number := Rewritten(t.issues[found.number], r, found, faults(r.flow))]
            && t'.next == t.next
  {
    var n, budget := found.number, faults(r.flow);
    assert t.issues[n := t.issues[n]] == t.issues;
    if NeedsIssue(r) {
      var update := Update(n, r.title, Body(r));
      if found.open {
        assert Calls(r, Some(found)) == [update];
        MadeOf(t, update, update, budget);
      } else {
        MadeOf(t, Reopen(n), update, budget);
        assert Calls(r, Some(found)) == [Reopen(n), update];
      }
    } else {
      MadeOf(t, Comment(n), Close(n), budget);
      PerformShort(t, Comment(n), Close(n));
    }
  }

  /** Syncing one flow touches that flow's issue only, even when a call fails, and settles it
      when no call does. */
  lemma SyncOneSettles(t: Repo, r: Result, found: Option<Found>, faults: Faults)
    requires Valid(r.flow) && NumbersAreUsed(t) && UniqueMarks(t) && Agrees(t, r.flow, found)
    ensures var t' := SyncOne(t, r, found, faults);
            && UniqueMarks(t') && NumbersAreUsed(t') && SameOutside(t, t', {r.flow})
            && (faults(r.flow) >= 2 ==> Settled(t', r))
  {
    var t' := SyncOne(t, r, found, faults);
    match found
    case None =>
      var create := Create(r.title, Body(r));
      PerformShort(t, create, create);
      assert [create][..0] == [];
      if NeedsIssue(r) {
        CreateSettles(t, r);
      }
    case Some(f) =>
      SyncRewrites(t, r, f, faults);
      RoundTripIff(r.flow, r.rest);
      var issue := Rewritten(t.issues[f.number], r, f, faults(r.flow));
      RewriteIsLocal(t, f.number, issue, r.flow, t'.log);
      assert Marked(t', f.number) == Some(r.flow);
  }

  /** The calls for one flow, up to and including none behind the first that raises, and what is
      reported for it: the issue of an uncovered flow is created, or reopened if it was closed and
      brought up to date; that of another flow is commented on and closed if it is open. */
  lemma CallsMade(t: Repo, r: Result, found: Option<Found>, faults: Faults)
    ensures var body := "<!-- coverage-flow:" + r.flow + " -->" + r.rest;
            var calls := match (r.kind, found) {
              case (Fine, Some(Found(n, true))) => [Comment(n), Close(n)]
              case (Fine, _) => []
              case (_, None) => [Create(r.title, body)]
              case (_, Some(Found(n, true))) => [Update(n, r.title, body)]
              case (_, Some(Found(n, false))) => [Reopen(n), Update(n, r.title, body)]
            };
            var made := if faults(r.flow) < |calls| then calls[..faults(r.flow)] else calls;
            && SyncOne(t, r, found, faults).log == t.log + made
            && ActionOf(r, found, faults) == if made != calls then Failed else if calls == [] then Noop
                                             else if r.kind == Fine then Closed else if found.None? then Created else Updated
  {
    PerformAllLogs(t, Made(Calls(r, found), faults(r.flow)));
    MarkerText(r.flow);
  }

  lemma MarkerText(flow: string)
    ensures Marker(flow) == "<!-- coverage-flow:" + flow + " -->"
  {
    assert OPENING + " " + LABEL == "<!-- coverage-flow:" && " " + CLOSING == " -->";
    assert Marker(flow) == (OPENING + " " + LABEL) + flow + (" " + CLOSING);
  }

  lemma {:induction false} PerformAllLogs(t: Repo, calls: seq<Call>)
    ensures PerformAll(t, calls).log == t.log + calls
  {
    if calls != [] {
      PerformAllLogs(t, calls[..|calls| - 1]);
      assert calls == calls[..|calls| - 1] + [calls[|calls| - 1]];
    }
  }

  // ---------------------------------------------------------------- all flows

  function Flows(results: seq<Result>): set<string> {
    set r <- results :: r.flow
  }

  ghost predicate DistinctFlows(results: seq<Result>) {
    forall i, j | 0 <= i < j < |results| :: results[i].flow != results[j].flow
  }

  lemma {:induction false} IndexFinds(t: Repo, listing: seq<nat>, flow: string)
    requires forall n <- listing :: n in t.issues
    ensures match Get(Index(t, listing), flow)
            case None => forall n <- listing :: Marked(t, n) != Some(flow)
            case Some(f) => f.number in listing && Marked(t, f.number) == Some(flow) && t.issues[f.number].open == f.open
  {
    if listing != [] {
      var before, n := listing[..|listing| - 1], listing[|listing| - 1];
      assert listing == before + [n];
      IndexFinds(t, before, flow);
    }
  }

  lemma ListedIndexAgrees(t: Repo, listing: seq<nat>, flow: string)
    requires UniqueMarks(t) && Lists(listing, t)
    ensures Agrees(t, flow, Get(Index(t, listing), flow))
  {
    IndexFinds(t, listing, flow);
  }

  lemma AgreesKept(t: Repo, t': Repo, flows: set<string>, flow: string, found: Option<Found>)
    requires SameOutside(t, t', flows) && flow !in flows && Agrees(t, flow, found)
    ensures Agrees(t', flow, found)
  {
  }

  lemma SettledKept(t: Repo, t': Repo, flow: string, r: Result)
    requires SameOutside(t, t', {flow}) && r.flow != flow && Settled(t, r)
    ensures Settled(t', r)
  {
    if NeedsIssue(r) {
      var n :| n in t.issues && Marked(t, n) == Some(r.flow) && t.issues[n] == Issue(true, r.title, Body(r));
      assert Marked(t', n) == Some(r.flow);
    }
  }

  lemma {:induction false} SyncAllSettles(t: Repo, results: seq<Result>, index: map<string, Found>, faults: Faults)
    requires NumbersAreUsed(t) && UniqueMarks(t) && DistinctFlows(results)
    requires forall r <- results :: Valid(r.flow) && Agrees(t, r.flow, Get(index, r.flow))
    ensures var t' := SyncAll(t, results, index, faults);
            && UniqueMarks(t') && NumbersAreUsed(t') && SameOutside(t, t', Flows(results))
            && (forall r <- results :: faults(r.flow) >= 2 ==> Settled(t', r))
  {
    if results != [] {
      var before, r := results[..|results| - 1], results[|results| - 1];
      assert results == before + [r];
      SyncAllSettles(t, before, index, faults);
      var mid := SyncAll(t, before, index, faults);
      assert r.flow !in Flows(before);
      AgreesKept(t, mid, Flows(before), r.flow, Get(index, r.flow));
      SyncOneSettles(mid, r, Get(index, r.flow), faults);
      var t' := SyncAll(t, results, index, faults);
      SameOutsideBoth(t, mid, t', Flows(before), {r.flow});
      assert Flows(results) == Flows(before) + {r.flow};
      forall r0 | r0 in before && faults(r0.flow) >= 2 ensures Settled(t', r0) {
        assert r0.flow in Flows(before);
        SettledKept(mid, t', r.flow, r0);
      }
    }
  }

  ghost predicate Ready(t: Repo, results: seq<Result>) {
    NumbersAreUsed(t) && UniqueMarks(t) && DistinctFlows(results) && forall r <- results :: Valid(r.flow)
  }

  /** Starting with at most one marked issue a flow, and flows with distinct valid ids, a sync
      leaves an open issue, with the current text, for each flow that needs one and none open
      for the others, at most one issue a flow, and touches nothing else. A failing call affects
      the issue of its own flow only. */
  lemma SyncConverges(t: Repo, results: seq<Result>, listing: seq<nat>, faults: Faults)
    requires Ready(t, results) && Lists(listing, t)
    ensures var t' := Synced(t, results, listing, faults);
            && Ready(t', results) && SameOutside(t, t', Flows(results))
            && (forall r <- results :: faults(r.flow) >= 2 ==> Settled(t', r))
  {
    forall r | r in results ensures Agrees(t, r.flow, Get(Index(t, listing), r.flow)) {
      ListedIndexAgrees(t, listing, r.flow);
    }
    SyncAllSettles(t, results, Index(t, listing), faults);
  }

  ghost predicate NoFaults(faults: Faults) {
    forall flow :: faults(flow) >= 2
  }

  function OpenMarked(t: Repo, flow: string): set<nat> {
    set n <- t.issues | Marked(t, n) == Some(flow) && t.issues[n].open
  }

  /** After a sync without errors a flow has exactly one open issue if it needs one, else none. */
  lemma OneOpenIssue(t: Repo, results: seq<Result>, listing: seq<nat>, faults: Faults, r: Result)
    requires Ready(t, results) && Lists(listing, t) && NoFaults(faults) && r in results
    ensures |OpenMarked(Synced(t, results, listing, faults), r.flow)| == if r.kind == Fine then 0 else 1
  {
    SyncConverges(t, results, listing, faults);
    var t' := Synced(t, results, listing, faults);
    if NeedsIssue(r) {
      var n :| n in t'.issues && Marked(t', n) == Some(r.flow) && t'.issues[n] == Issue(true, r.title, Body(r));
      assert OpenMarked(t', r.flow) == {n};
    } else {
      assert OpenMarked(t', r.flow) == {};
    }
  }

  ghost predicate OnlyUpdates(calls: seq<Call>) {
    forall c <- calls :: c.Update?
  }

  /** The issues are the same, and only updates were made on the way. */
  ghost predicate Quiet(t: Repo, t': Repo) {
    t'.issues == t.issues && t'.next == t.next && t.log <= t'.log && OnlyUpdates(t'.log[|t.log|..])
  }

  lemma QuietBoth(a: Repo, b: Repo, c: Repo)
    requires Quiet(a, b) && Quiet(b, c)
    ensures Quiet(a, c)
  {
    assert c.log[|a.log|..] == b.log[|a.log|..] + c.log[|b.log|..];
  }

  lemma SettledStays(t: Repo, r: Result, found: Option<Found>, faults: Faults)
    requires UniqueMarks(t) && Agrees(t, r.flow, found) && Settled(t, r) && NoFaults(faults)
    ensures Quiet(t, SyncOne(t, r, found, faults))
  {
    if found.Some? && NeedsIssue(r) {
      var update := Update(found.value.number, r.title, Body(r));
      MadeOf(t, update, update, faults(r.flow));
      assert Calls(r, found) == [update];
      assert t.issues[found.value.number] == Issue(true, r.title, Body(r));
      assert (t.log + [update])[|t.log|..] == [update];
    } else {
      assert Calls(r, found) == [];
    }
  }

  lemma {:induction false} AllSettledStay(t: Repo, results: seq<Result>, index: map<string, Found>, faults: Faults)
    requires UniqueMarks(t) && NoFaults(faults)
    requires forall r <- results :: Agrees(t, r.flow, Get(index, r.flow)) && Settled(t, r)
    ensures Quiet(t, SyncAll(t, results, index, faults))
  {
    if results != [] {
      var before, r := results[..|results| - 1], results[|results| - 1];
      AllSettledStay(t, before, index, faults);
      var mid := SyncAll(t, before, index, faults);
      QuietKeeps(t, mid, r, Get(index, r.flow));
      SettledStays(mid, r, Get(index, r.flow), faults);
      QuietBoth(t, mid, SyncAll(t, results, index, faults));
    }
  }

  lemma QuietKeeps(t: Repo, t': Repo, r: Result, found: Option<Found>)
    requires Quiet(t, t') && UniqueMarks(t) && Agrees(t, r.flow, found) && Settled(t, r)
    ensures UniqueMarks(t') && Agrees(t', r.flow, found) && Settled(t', r)
  {
    if NeedsIssue(r) {
      var n :| n in t.issues && Marked(t, n) == Some(r.flow) && t.issues[n] == Issue(true, r.title, Body(r));
      assert Marked(t', n) == Some(r.flow);
    }
  }

  /** A second sync creates, closes and reopens nothing; its updates write what is there. */
  lemma SecondSyncIsQuiet(t: Repo, results: seq<Result>, listing: seq<nat>, listing': seq<nat>, faults: Faults)
    requires Ready(t, results) && NoFaults(faults) && Lists(listing, t)
    requires Lists(listing', Synced(t, results, listing, faults))
    ensures var t' := Synced(t, results, listing, faults);
            Quiet(t', Synced(t', results, listing', faults))
  {
    SyncConverges(t, results, listing, faults);
    var t' := Synced(t, results, listing, faults);
    forall r | r in results ensures Agrees(t', r.flow, Get(Index(t', listing'), r.flow)) {
      ListedIndexAgrees(t', listing', r.flow);
    }
    AllSettledStay(t', results, Index(t', listing'), faults);
  }

  lemma {:induction false} ReportedIff(results: seq<Result>, index: map<string, Found>, faults: Faults, e: Entry)
    ensures e in Actions(results, index, faults) <==>
            e.action != Noop && exists r <- results :: r.flow == e.flow && e.action == ActionOf(r, Get(index, r.flow), faults)
  {
    if results != [] {
      assert results == results[..|results| - 1] + [results[|results| - 1]];
      ReportedIff(results[..|results| - 1], index, faults, e);
    }
  }

  /** The report of a second sync names updates only, and exactly the flows that need an issue. */
  lemma SecondReport(t: Repo, results: seq<Result>, listing: seq<nat>, listing': seq<nat>, faults: Faults, e: Entry)
    requires Ready(t, results) && NoFaults(faults) && Lists(listing, t)
    requires Lists(listing', Synced(t, results, listing, faults))
    ensures e in Actions(results, Index(Synced(t, results, listing, faults), listing'), faults) <==>
            e.action == Updated && exists r <- results :: r.flow == e.flow && r.kind != Fine
  {
    SyncConverges(t, results, listing, faults);
    var t' := Synced(t, results, listing, faults);
    ReportedIff(results, Index(t', listing'), faults, e);
    forall r | r in results
      ensures ActionOf(r, Get(Index(t', listing'), r.flow), faults) == if NeedsIssue(r) then Updated else Noop
    {
      ListedIndexAgrees(t', listing', r.flow);
      SettledAction(t', r, Get(Index(t', listing'), r.flow), faults);
    }
  }

  lemma SettledAction(t: Repo, r: Result, found: Option<Found>, faults: Faults)
    requires Settled(t, r) && Agrees(t, r.flow, found) && UniqueMarks(t) && NoFaults(faults)
    ensures ActionOf(r, found, faults) == if NeedsIssue(r) then Updated else Noop
  {
    assert |Calls(r, found)| <= 2;
  }

  // ---------------------------------------------------------------- what the conditions are for

  lemma {:induction false} IndexedIsValid(t: Repo, listing: seq<nat>, flow: string)
    requires forall n <- listing :: n in t.issues
    ensures flow in Index(t, listing) ==> Valid(flow)
  {
    if listing != [] {
      IndexedIsValid(t, listing[..|listing| - 1], flow);
      ParsedIsValid(t.issues[listing[|listing| - 1]].body);
    }
  }

  lemma SyncSingle(t: Repo, r: Result, index: map<string, Found>, faults: Faults)
    ensures SyncAll(t, [r], index, faults) == SyncOne(t, r, Get(index, r.flow), faults)
  {
    assert [r][..0] == [];
    assert SyncAll(t, [], index, faults) == t;
  }

  /** A flow whose id cannot be read back gets a new issue at every sync. */
  lemma InvalidIdNeverSettles(t: Repo, r: Result, listing: seq<nat>, faults: Faults)
    requires !Valid(r.flow) && NeedsIssue(r) && Lists(listing, t) && faults(r.flow) >= 1
    ensures Synced(t, [r], listing, faults)
            == Repo(t.issues[t.next := Issue(true, r.title, Body(r))], t.next + 1, t.log + [Create(r.title, Body(r))])
  {
    IndexedIsValid(t, listing, r.flow);
    SyncSingle(t, r, Index(t, listing), faults);
    var create := Create(r.title, Body(r));
    MadeOf(t, create, create, faults(r.flow));
  }

  lemma {:induction false} FirstIsIndexed(t: Repo, listing: seq<nat>, flow: string, n: nat)
    requires (forall m <- listing :: m in t.issues) && listing != [] && listing[0] == n && Marked(t, n) == Some(flow)
    ensures Get(Index(t, listing), flow) == Some(Found(n, t.issues[n].open))
    decreases |listing|
  {
    var before := listing[..|listing| - 1];
    if before == [] {
      assert listing == [n];
      assert Index(t, []) == map[];
    } else {
      FirstIsIndexed(t, before, flow, n);
    }
  }

  /** With two open issues for a flow that is covered again, only the one listed first is closed. */
  lemma DuplicateStaysOpen(t: Repo, r: Result, listing: seq<nat>, m: nat, n: nat, faults: Faults)
    requires Lists(listing, t) && m in t.issues && n in t.issues && m != n && !NeedsIssue(r)
    requires Marked(t, m) == Marked(t, n) == Some(r.flow) && t.issues[m].open && t.issues[n].open
    requires listing[0] == m
    ensures var t' := Synced(t, [r], listing, faults);
            n in t'.issues && t'.issues[n] == t.issues[n]
  {
    FirstIsIndexed(t, listing, r.flow, m);
    SyncSingle(t, r, Index(t, listing), faults);
    SyncRewrites(t, r, Found(m, true), faults);
  }

  // ---------------------------------------------------------------- exactly when a flow converges

  /** The found issue is still there, with its marker and its state. */
  ghost predicate Knows(t: Repo, flow: string, found: Option<Found>) {
    found.Some? ==>
      && found.value.number in t.issues && Marked(t, found.value.number) == Some(flow)
      && t.issues[found.value.number].open == found.value.open
  }

  /** The result gets a new issue whose body reads back as another flow. */
  predicate Strays(r: Result, found: Option<Found>, flow: string) {
    NeedsIssue(r) && found.None? && Parse(Body(r)) == Some(flow)
  }

  lemma CreateAlone(t: Repo, r: Result, faults: Faults)
    requires NeedsIssue(r) && NoFaults(faults)
    ensures var t' := SyncOne(t, r, None, faults);
            t'.issues == t.issues[t.next := Issue(true, r.title, Body(r))] && t'.next == t.next + 1
  {
    var create := Create(r.title, Body(r));
    MadeOf(t, create, create, faults(r.flow));
  }

  lemma SyncLeavesNumbers(t: Repo, r: Result, found: Option<Found>, faults: Faults)
    requires NumbersAreUsed(t) && NoFaults(faults) && Knows(t, r.flow, found)
    ensures var t' := SyncOne(t, r, found, faults); NumbersAreUsed(t') && t.next <= t'.next
  {
    if found.Some? {
      SyncRewrites(t, r, found.value, faults);
    } else if NeedsIssue(r) {
      CreateAlone(t, r, faults);
    } else {
      assert Calls(r, found) == [];
    }
  }

  /** What syncing another flow does to the open issues of `flow`: nothing, or a stray one more. */
  lemma OtherFlowSynced(t: Repo, r: Result, found: Option<Found>, faults: Faults, flow: string)
    requires NumbersAreUsed(t) && NoFaults(faults) && Knows(t, r.flow, found) && r.flow != flow
    ensures OpenMarked(SyncOne(t, r, found, faults), flow)
            == OpenMarked(t, flow) + (if Strays(r, found, flow) then {t.next} else {})
  {
    var t' := SyncOne(t, r, found, faults);
    if found.Some? {
      SyncRewrites(t, r, found.value, faults);
      ParsedIsValid(t.issues[found.value.number].body);
      RoundTripIff(r.flow, r.rest);
      assert Marked(t', found.value.number) == Some(r.flow);
    } else if NeedsIssue(r) {
      CreateAlone(t, r, faults);
    } else {
      assert Calls(r, found) == [];
    }
  }

  lemma OtherFlowKnown(t: Repo, r: Result, found: Option<Found>, faults: Faults, flow: string, other: Option<Found>)
    requires NumbersAreUsed(t) && NoFaults(faults) && Knows(t, r.flow, found) && Knows(t, flow, other) && r.flow != flow
    ensures Knows(SyncOne(t, r, found, faults), flow, other)
  {
    if found.Some? {
      SyncRewrites(t, r, found.value, faults);
    } else if NeedsIssue(r) {
      CreateAlone(t, r, faults);
    } else {
      assert Calls(r, found) == [];
    }
  }

  /** What syncing the flow itself does to its open issues. */
  lemma OwnFlowSynced(t: Repo, r: Result, found: Option<Found>, faults: Faults)
    requires NumbersAreUsed(t) && NoFaults(faults) && Knows(t, r.flow, found)
    ensures OpenMarked(SyncOne(t, r, found, faults), r.flow) ==
            match found
            case Some(f) => if NeedsIssue(r) then OpenMarked(t, r.flow) + {f.number} else OpenMarked(t, r.flow) - {f.number}
            case None => if NeedsIssue(r) && Valid(r.flow) then OpenMarked(t, r.flow) + {t.next} else OpenMarked(t, r.flow)
  {
    var t' := SyncOne(t, r, found, faults);
    RoundTripIff(r.flow, r.rest);
    if found.Some? {
      SyncRewrites(t, r, found.value, faults);
      ParsedIsValid(t.issues[found.value.number].body);
      assert Marked(t', found.value.number) == Some(r.flow);
    } else if NeedsIssue(r) {
      CreateAlone(t, r, faults);
    } else {
      assert Calls(r, found) == [];
    }
  }

  /** What a number of other flows do to the open issues of `flow`. */
  ghost predicate Undisturbed(t: Repo, t': Repo, flow: string, strays: bool) {
    && NumbersAreUsed(t') && t.next <= t'.next && OpenMarked(t, flow) <= OpenMarked(t', flow)
    && (forall n <- OpenMarked(t', flow) - OpenMarked(t, flow) :: t.next <= n)
    && (OpenMarked(t', flow) == OpenMarked(t, flow) <==> !strays)
  }

  predicate SomeStrays(results: seq<Result>, index: map<string, Found>, flow: string) {
    exists r <- results :: Strays(r, Get(index, r.flow), flow)
  }

  lemma {:induction false} OtherFlowsSynced(t: Repo, results: seq<Result>, index: map<string, Found>, faults: Faults, flow: string)
    requires NumbersAreUsed(t) && NoFaults(faults) && DistinctFlows(results) && flow !in Flows(results)
    requires forall r <- results :: Knows(t, r.flow, Get(index, r.flow))
    ensures Undisturbed(t, SyncAll(t, results, index, faults), flow, SomeStrays(results, index, flow))
    ensures forall f: string, other | f !in Flows(results) && Knows(t, f, other) :: Knows(SyncAll(t, results, index, faults), f, other)
  {
    if results != [] {
      var before, r := results[..|results| - 1], results[|results| - 1];
      assert results == before + [r];
      assert Flows(results) == Flows(before) + {r.flow} && r.flow !in Flows(before) && r.flow != flow;
      OtherFlowsSynced(t, before, index, faults, flow);
      var mid := SyncAll(t, before, index, faults);
      assert Knows(mid, r.flow, Get(index, r.flow));
      OneMoreFlow(t, mid, r, Get(index, r.flow), faults, flow, SomeStrays(before, index, flow));
      assert SomeStrays(results, index, flow) <==> SomeStrays(before, index, flow) || Strays(r, Get(index, r.flow), flow);
      forall f: string, other | f !in Flows(results) && Knows(t, f, other) ensures Knows(SyncAll(t, results, index, faults), f, other) {
        OtherFlowKnown(mid, r, Get(index, r.flow), faults, f, other);
      }
    }
  }

  lemma OneMoreFlow(t: Repo, mid: Repo, r: Result, found: Option<Found>, faults: Faults, flow: string, strays: bool)
    requires Undisturbed(t, mid, flow, strays) && NoFaults(faults) && Knows(mid, r.flow, found) && r.flow != flow
    ensures Undisturbed(t, SyncOne(mid, r, found, faults), flow, strays || Strays(r, found, flow))
  {
    OtherFlowSynced(mid, r, found, faults, flow);
    SyncLeavesNumbers(mid, r, found, faults);
    assert mid.next !in OpenMarked(mid, flow);
    OneMoreNumber(OpenMarked(t, flow), OpenMarked(mid, flow), OpenMarked(SyncOne(mid, r, found, faults), flow),
                  mid.next, Strays(r, found, flow), t.next);
  }

  lemma OneMoreNumber(a: set<nat>, b: set<nat>, c: set<nat>, n: nat, more: bool, bound: nat)
    requires a <= b && n !in b && bound <= n && (forall k <- b - a :: bound <= k)
    requires c == b + (if more then {n} else {})
    ensures a <= c && (forall k <- c - a :: bound <= k)
    ensures c == a <==> b == a && !more
  {
    assert forall k <- c - a :: k in b - a || k == n;
    if more {
      assert n in c && n !in a;
    }
  }

  lemma {:induction false} SyncAllTogether(t: Repo, a: seq<Result>, b: seq<Result>, index: map<string, Found>, faults: Faults)
    ensures SyncAll(t, a + b, index, faults) == SyncAll(SyncAll(t, a, index, faults), b, index, faults)
    decreases |b|
  {
    if b == [] {
      assert a + b == a;
    } else {
      var n := |b| - 1;
      assert (a + b)[..|a| + n] == a + b[..n] && (a + b)[|a| + n] == b[n];
      SyncAllTogether(t, a, b[..n], index, faults);
    }
  }

  /** The issue that is taken for the flow's, if there is one. */
  function FirstListed(t: Repo, listing: seq<nat>, flow: string): set<nat>
    requires Lists(listing, t)
  {
    match Get(Index(t, listing), flow)
    case None => {}
    case Some(f) => {f.number}
  }

  /** Of the open issues of the flow, those that are not the one taken for it. */
  function Extras(t: Repo, listing: seq<nat>, flow: string): set<nat>
    requires Lists(listing, t)
  {
    OpenMarked(t, flow) - FirstListed(t, listing, flow)
  }

  /** Another result, with an id that cannot be read back, whose new issue reads back as this flow. */
  predicate MarkedByAnother(results: seq<Result>, flow: string) {
    exists r <- results :: r.flow != flow && NeedsIssue(r) && !Valid(r.flow) && Parse(Body(r)) == Some(flow)
  }

  lemma StraysAre(t: Repo, listing: seq<nat>, r: Result, flow: string)
    requires Lists(listing, t) && r.flow != flow
    ensures Strays(r, Get(Index(t, listing), r.flow), flow) <==> NeedsIssue(r) && !Valid(r.flow) && Parse(Body(r)) == Some(flow)
  {
    IndexedIsValid(t, listing, r.flow);
    RoundTripIff(r.flow, r.rest);
  }

  lemma MarkedByAnotherIs(t: Repo, listing: seq<nat>, pre: seq<Result>, r: Result, post: seq<Result>)
    requires Lists(listing, t) && r.flow !in Flows(pre) && r.flow !in Flows(post)
    ensures MarkedByAnother(pre + [r] + post, r.flow) <==>
            SomeStrays(pre, Index(t, listing), r.flow) || SomeStrays(post, Index(t, listing), r.flow)
  {
    forall r' | r' in pre || r' in post
      ensures r'.flow != r.flow
      ensures Strays(r', Get(Index(t, listing), r'.flow), r.flow) <==>
              NeedsIssue(r') && !Valid(r'.flow) && Parse(Body(r')) == Some(r.flow)
    {
      assert r'.flow in Flows(pre) || r'.flow in Flows(post);
      StraysAre(t, listing, r', r.flow);
    }
    assert forall r' :: r' in pre + [r] + post <==> r' in pre || r' == r || r' in post;
  }

  lemma AtMostOne(s: set<nat>, x: nat)
    requires x in s
    ensures |s| == 1 <==> s == {x}
  {
    if |s| == 1 {
      assert |s - {x}| == 0;
    }
  }

  /** The counts at the end, from the open issues before the others (`o0`), when the flow's turn
      comes (`o1`) and at the end (`o3`). */
  lemma UpdatedCount(o0: set<nat>, o1: set<nat>, o3: set<nat>, x: nat, bound: nat)
    requires o0 <= o1 && (forall n <- o1 - o0 :: bound <= n) && x < bound && o1 + {x} <= o3
    ensures |o3| == 1 <==> o0 - {x} == {} && o1 == o0 && o3 == o1 + {x}
  {
    AtMostOne(o3, x);
    if o3 == {x} {
      assert forall n <- o1 :: n in o0 || n in o1 - o0;
      assert forall n <- o1 :: n in o3;
    }
  }

  lemma CreatedCount(o1: set<nat>, o3: set<nat>, n: nat)
    requires n !in o1 && o1 + {n} <= o3
    ensures |o3| == 1 <==> o1 == {} && o3 == o1 + {n}
  {
    AtMostOne(o3, n);
    if o3 == {n} {
      assert forall k <- o1 :: k in o3;
      assert o1 == {};
    }
  }

  lemma ClosedCount(o0: set<nat>, o1: set<nat>, o3: set<nat>, x: nat, bound: nat)
    requires o0 <= o1 && (forall n <- o1 - o0 :: bound <= n) && x < bound && o1 - {x} <= o3
    ensures |o3| == 0 <==> o0 - {x} == {} && o1 == o0 && o3 == o1 - {x}
  {
    if o3 == {} {
      assert forall n <- o1 :: n in o0 || n in o1 - o0;
      assert forall n <- o1 :: n in o1 - {x} || n == x;
      assert forall n <- o0 - {x} :: n in o1 - {x};
    }
  }

  lemma InvalidIsNeverMarked(t: Repo, flow: string)
    requires !Valid(flow)
    ensures OpenMarked(t, flow) == {}
  {
    forall n | n in t.issues ensures Marked(t, n) != Some(flow) {
      ParsedIsValid(t.issues[n].body);
    }
  }

  /** The three phases of a sync, seen from one flow: the flows before it, itself, those behind. */
  lemma OneFlowAmongMany(t: Repo, t1: Repo, t2: Repo, t3: Repo, r: Result, found: Option<Found>, strays: bool, strays': bool)
    requires NumbersAreUsed(t) && Undisturbed(t, t1, r.flow, strays) && NumbersAreUsed(t1) && Undisturbed(t2, t3, r.flow, strays')
    requires found.Some? ==> found.value.number < t.next
    requires found.None? ==> OpenMarked(t, r.flow) == {}
    requires OpenMarked(t2, r.flow) ==
             match found
             case Some(f) => if NeedsIssue(r) then OpenMarked(t1, r.flow) + {f.number} else OpenMarked(t1, r.flow) - {f.number}
             case None => if NeedsIssue(r) && Valid(r.flow) then OpenMarked(t1, r.flow) + {t1.next} else OpenMarked(t1, r.flow)
    ensures var taken: set<nat> := if found.Some? then {found.value.number} else {};
            |OpenMarked(t3, r.flow)| == (if NeedsIssue(r) then 1 else 0) <==>
            OpenMarked(t, r.flow) - taken == {} && !strays && !strays' && (NeedsIssue(r) ==> Valid(r.flow))
  {
    var o0, o1, o3 := OpenMarked(t, r.flow), OpenMarked(t1, r.flow), OpenMarked(t3, r.flow);
    if NeedsIssue(r) && !Valid(r.flow) {
      InvalidIsNeverMarked(t3, r.flow);
    } else if found.Some? {
      if NeedsIssue(r) {
        UpdatedCount(o0, o1, o3, found.value.number, t.next);
      } else {
        ClosedCount(o0, o1, o3, found.value.number, t.next);
      }
    } else if NeedsIssue(r) {
      assert t1.next !in o1;
      CreatedCount(o1, o3, t1.next);
    }
  }

  lemma ListedKnows(t: Repo, listing: seq<nat>, flow: string)
    requires Lists(listing, t)
    ensures Knows(t, flow, Get(Index(t, listing), flow))
    ensures Get(Index(t, listing), flow).None? ==> OpenMarked(t, flow) == {}
  {
    IndexFinds(t, listing, flow);
  }

  lemma SplitFlows(results: seq<Result>, k: nat)
    requires k < |results| && DistinctFlows(results)
    ensures results == results[..k] + [results[k]] + results[k + 1..]
    ensures DistinctFlows(results[..k]) && DistinctFlows(results[k + 1..])
    ensures results[k].flow !in Flows(results[..k]) && results[k].flow !in Flows(results[k + 1..])
    ensures forall r <- results[k + 1..] :: r.flow !in Flows(results[..k]) && r.flow != results[k].flow
  {
  }

  /** Whatever issues there are to begin with, after a sync without errors a flow has exactly one
      open issue if it needs one, and none otherwise, if and only if no open issue but the first
      listed carries its marker, no other flow's new issue reads back as its own, and its id can
      be read back in case it needs an issue. */
  lemma RightNumberIff(t: Repo, results: seq<Result>, listing: seq<nat>, faults: Faults, k: nat)
    requires NumbersAreUsed(t) && Lists(listing, t) && DistinctFlows(results) && NoFaults(faults) && k < |results|
    ensures var r := results[k];
            |OpenMarked(Synced(t, results, listing, faults), r.flow)| == (if r.kind == Fine then 0 else 1) <==>
            Extras(t, listing, r.flow) == {} && !MarkedByAnother(results, r.flow) && (r.kind == Fine || Valid(r.flow))
  {
    var index, r, pre, post := Index(t, listing), results[k], results[..k], results[k + 1..];
    var found := Get(index, r.flow);
    SplitFlows(results, k);
    forall flow: string ensures Knows(t, flow, Get(index, flow)) {
      ListedKnows(t, listing, flow);
    }
    ListedKnows(t, listing, r.flow);
    var t1 := SyncAll(t, pre, index, faults);
    var t2 := SyncOne(t1, r, found, faults);
    var t3 := SyncAll(t2, post, index, faults);
    OtherFlowsSynced(t, pre, index, faults, r.flow);
    OwnFlowSynced(t1, r, found, faults);
    SyncLeavesNumbers(t1, r, found, faults);
    forall r' | r' in post ensures Knows(t2, r'.flow, Get(index, r'.flow)) {
      assert Knows(t1, r'.flow, Get(index, r'.flow));
      OtherFlowKnown(t1, r, found, faults, r'.flow, Get(index, r'.flow));
    }
    OtherFlowsSynced(t2, post, index, faults, r.flow);
    SyncAllTogether(t, pre + [r], post, index, faults);
    SyncAllTogether(t, pre, [r], index, faults);
    SyncSingle(t1, r, index, faults);
    MarkedByAnotherIs(t, listing, pre, r, post);
    OneFlowAmongMany(t, t1, t2, t3, r, found, SomeStrays(pre, index, r.flow), SomeStrays(post, index, r.flow));
  }

  // ---------------------------------------------------------------- the loops

  method ClassifyFlow(status: string, nodeids: seq<string>, ran: set<string>) returns (kind: Kind, missing: seq<string>)
    ensures kind == Classified(status, nodeids, ran)
    ensures kind == Fine <==>
              || status == "manual" || status == "external" || status == "not_applicable"
              || (status == "covered" && forall n <- nodeids :: RanCovers(n, ran))
    ensures kind == Drift <==> status == "covered" && exists n <- nodeids :: !RanCovers(n, ran)
    ensures forall n :: n in missing <==> kind == Drift && n in nodeids && !RanCovers(n, ran)
  {
    missing := [];
    if status in {"manual", "external", "not_applicable"} {
      kind := Fine;
    } else if status in {"gap", "partial"} {
      kind := DeclaredGap;
    } else if status == "covered" {
      for i := 0 to |nodeids|
        invariant forall n :: n in missing <==> n in nodeids[..i] && !RanCovers(n, ran)
      {
        assert nodeids[..i + 1] == nodeids[..i] + [nodeids[i]];
        if !RanCovers(nodeids[i], ran) {
          missing := missing + [nodeids[i]];
        }
      }
      assert nodeids[..|nodeids|] == nodeids;
      if missing != [] {
        assert missing[0] in missing;
        kind := Drift;
      } else {
        kind := Fine;
      }
    } else {
      kind := DeclaredGap;
    }
  }

  /** The issue client, with the calls made through it. */
  class Client {
    var issues: map<nat, Issue>
    var next: nat
    ghost var log: seq<Call>

    ghost function View(): Repo
      reads this
    {
      Repo(issues, next, log)
    }

    constructor (t: Repo)
      ensures View() == t
    {
      issues, next, log := t.issues, t.next, t.log;
    }

    method CreateIssue(title: string, body: string)
      modifies this
      ensures View() == Perform(old(View()), Create(title, body))
    {
      issues, next, log := issues[next := Issue(true, title, body)], next + 1, log + [Create(title, body)];
    }

    method ReopenIssue(number: nat)
      modifies this
      ensures View() == Perform(old(View()), Reopen(number))
    {
      log := log + [Reopen(number)];
      if number in issues {
        issues := issues[number := issues[number].(open := true)];
      }
    }

    method UpdateIssue(number: nat, title: string, body: string)
      modifies this
      ensures View() == Perform(old(View()), Update(number, title, body))
    {
      log := log + [Update(number, title, body)];
      if number in issues {
        issues := issues[number := issues[number].(title := title, body := body)];
      }
    }

    method CommentIssue(number: nat)
      modifies this
      ensures View() == Perform(old(View()), Comment(number))
    {
      log := log + [Comment(number)];
    }

    method CloseIssue(number: nat)
      modifies this
      ensures View() == Perform(old(View()), Close(number))
    {
      log := log + [Close(number)];
      if number in issues {
        issues := issues[number := issues[number].(open := false)];
      }
    }
  }

  /** `_sync_one`; it returns early where a call raises. */
  method SyncFlow(client: Client, r: Result, found: Option<Found>, faults: Faults) returns (action: Action)
    modifies client
    ensures client.View() == SyncOne(old(client.View()), r, found, faults)
    ensures action == ActionOf(r, found, faults)
  {
    if NeedsIssue(r) {
      action := SyncNeeded(client, r, found, faults(r.flow));
    } else {
      action := SyncHealthy(client, r, found, faults(r.flow));
    }
  }

  method SyncNeeded(client: Client, r: Result, found: Option<Found>, budget: nat) returns (action: Action)
    requires NeedsIssue(r)
    modifies client
    ensures client.View() == PerformAll(old(client.View()), Made(Calls(r, found), budget))
    ensures action == if budget < |Calls(r, found)| then Failed else if found.None? then Created else Updated
  {
    ghost var t := client.View();
    if found.None? {
      MadeOf(t, Create(r.title, Body(r)), Reopen(0), budget);
      if budget == 0 {
        return Failed;
      }
      client.CreateIssue(r.title, Body(r));
      return Created;
    }
    var number := found.value.number;
    ghost var update := Update(number, r.title, Body(r));
    MadeOf(t, update, update, budget);
    MadeOf(t, Reopen(number), update, budget);
    assert Calls(r, found) == if found.value.open then [update] else [Reopen(number), update];
    if budget == 0 {
      return Failed;
    }
    if !found.value.open {
      client.ReopenIssue(number);
      if budget == 1 {
        return Failed;
      }
    }
    client.UpdateIssue(number, r.title, Body(r));
    action := Updated;
  }

  method SyncHealthy(client: Client, r: Result, found: Option<Found>, budget: nat) returns (action: Action)
    requires !NeedsIssue(r)
    modifies client
    ensures client.View() == PerformAll(old(client.View()), Made(Calls(r, found), budget))
    ensures action == if budget < |Calls(r, found)| then Failed else if Calls(r, found) != [] then Closed else Noop
  {
    ghost var t := client.View();
    if found.None? || !found.value.open {
      return Noop;
    }
    var number := found.value.number;
    MadeOf(t, Comment(number), Close(number), budget);
    if budget == 0 {
      return Failed;
    }
    client.CommentIssue(number);
    if budget == 1 {
      return Failed;
    }
    client.CloseIssue(number);
    action := Closed;
  }

  method IndexIssues(client: Client, listing: seq<nat>) returns (index: map<string, Found>)
    requires Lists(listing, client.View())
    ensures index == Index(client.View(), listing)
  {
    index := map[];
    for i := 0 to |listing|
      invariant index == Index(client.View(), listing[..i])
    {
      assert listing[..i + 1][..i] == listing[..i];
      var n := listing[i];
      var flow := Parse(client.issues[n].body);
      if flow.Some? && flow.value !in index {
        index := index[flow.value := Found(n, client.issues[n].open)];
      }
    }
    assert listing[..|listing|] == listing;
  }

  method SyncIssues(client: Client, results: seq<Result>, listing: seq<nat>, faults: Faults) returns (actions: seq<Entry>)
    requires Lists(listing, client.View())
    modifies client
    ensures client.View() == Synced(old(client.View()), results, listing, faults)
    ensures actions == Actions(results, Index(old(client.View()), listing), faults)
  {
    var index := IndexIssues(client, listing);
    actions := [];
    for i := 0 to |results|
      invariant client.View() == SyncAll(old(client.View()), results[..i], index, faults)
      invariant actions == Actions(results[..i], index, faults)
    {
      assert results[..i + 1][..i] == results[..i];
      var action := SyncFlow(client, results[i], Get(index, results[i].flow), faults);
      if action != Noop {
        actions := actions + [Entry(action, results[i].flow)];
      }
    }
    assert results[..|results|] == results;
  }
}
