/** The marker that ties an issue to a flow (`marker` and `parse_flow_id` in
    `ci/harness/check_nightly_coverage.py`), with the search of its regular expression. */
module CoverageMarker {
  import opened Wrappers

  /** `\s` of the regular expression. */
  predicate IsSpace(c: char) {
    var n := c as int;
    || 9 <= n <= 13 || 28 <= n <= 32 || n == 0x85 || n == 0xa0 || n == 0x1680 || 0x2000 <= n <= 0x200a
    || n == 0x2028 || n == 0x2029 || n == 0x202f || n == 0x205f || n == 0x3000
  }

  /** `[^\s>]`. */
  predicate IsIdChar(c: char) {
    !IsSpace(c) && c != '>'
  }

  function SkipSpace(s: string): (r: string)
    ensures |r| <= |s|
  {
    if s != "" && IsSpace(s[0]) then SkipSpace(s[1..]) else s
  }

  function Run(s: string): (n: nat)
    ensures n <= |s| && forall i | 0 <= i < n :: IsIdChar(s[i])
    ensures n < |s| ==> !IsIdChar(s[n])
  {
    if s != "" && IsIdChar(s[0]) then 1 + Run(s[1..]) else 0
  }

  const OPENING := "<!--"
  const LABEL := "coverage-flow:"
  const CLOSING := "-->"

  /** The greatest positive number up to `k` that is good, or zero. */
  function Greatest(k: nat, good: nat -> bool): (m: nat)
    ensures m <= k && (m > 0 ==> good(m)) && forall j | m < j <= k :: !good(j)
  {
    if k == 0 || good(k) then k else Greatest(k - 1, good)
  }

  /** The longest of the first `k` characters, but at least one, behind which the comment closes. */
  function Longest(s: string, k: nat): Option<string>
    requires k <= |s|
  {
    var m := Greatest(k, ClosingIn(s));
    if m == 0 then None else Some(s[..m])
  }

  /** The places of the text behind which the comment closes. */
  function ClosingIn(s: string): nat -> bool {
    (j: nat) => j <= |s| && Closes(s[j..])
  }

  predicate Closes(s: string) {
    CLOSING <= SkipSpace(s)
  }

  /** The match at the beginning of the text. */
  function MatchHere(s: string): Option<string> {
    if !(OPENING <= s) then None
    else
      var inner := SkipSpace(s[|OPENING|..]);
      if LABEL <= inner then Longest(inner[|LABEL|..], Run(inner[|LABEL|..])) else None
  }

  /** The leftmost match. */
  function Parse(s: string): Option<string> {
    if s == "" then None else if MatchHere(s).Some? then MatchHere(s) else Parse(s[1..])
  }

  function Marker(id: string): string {
    OPENING + " " + LABEL + id + " " + CLOSING
  }

  predicate Valid(id: string) {
    id != "" && forall i | 0 <= i < |id| :: IsIdChar(id[i])
  }

  // ---------------------------------------------------------------- the search

  predicate AllSpace(s: string) {
    forall i | 0 <= i < |s| :: IsSpace(s[i])
  }

  function Spelling(a: string, id: string, b: string, rest: string): string {
    "<!--" + (a + ("coverage-flow:" + (id + (b + ("-->" + rest)))))
  }

  /** The regular expression matches at the beginning of the text, with this id. */
  ghost predicate Matches(s: string, id: string) {
    Valid(id) && exists a, b, rest | AllSpace(a) && AllSpace(b) :: s == Spelling(a, id, b, rest)
  }

  lemma {:induction false} SkipsAll(a: string, rest: string)
    requires AllSpace(a) && rest != "" && !IsSpace(rest[0])
    ensures SkipSpace(a + rest) == rest
  {
    if a == "" {
      assert a + rest == rest;
    } else {
      assert (a + rest)[1..] == a[1..] + rest;
      SkipsAll(a[1..], rest);
    }
  }

  lemma SpaceBefore(c: char, a: string)
    requires IsSpace(c) && AllSpace(a)
    ensures AllSpace([c] + a)
  {
    forall i | 0 <= i < |[c] + a| ensures IsSpace(([c] + a)[i]) {
      assert ([c] + a)[i] == if i == 0 then c else a[i - 1];
    }
  }

  lemma {:induction false} Skipped(s: string) returns (a: string)
    ensures AllSpace(a) && s == a + SkipSpace(s)
  {
    a := "";
    if s != "" && IsSpace(s[0]) {
      var rest := Skipped(s[1..]);
      a := [s[0]] + rest;
      SpaceBefore(s[0], rest);
      assert s == [s[0]] + s[1..] == [s[0]] + (rest + SkipSpace(s[1..])) == a + SkipSpace(s);
    }
  }

  /** Where a match begins, the rest of it is what the search looks at. */
  lemma MatchIsSeen(s: string, id: string)
    requires Matches(s, id)
    ensures OPENING <= s && LABEL <= SkipSpace(s[|OPENING|..])
    ensures var t := SkipSpace(s[|OPENING|..])[|LABEL|..];
            |id| <= Run(t) && t[..|id|] == id && Closes(t[|id|..])
  {
    var a, b, rest :| AllSpace(a) && AllSpace(b) && s == Spelling(a, id, b, rest);
    var end := b + ("-->" + rest);
    assert s[|OPENING|..] == a + ("coverage-flow:" + (id + end));
    SkipsAll(a, "coverage-flow:" + (id + end));
    var t := id + end;
    assert ("coverage-flow:" + t)[|LABEL|..] == t;
    assert t[..|id|] == id && t[|id|..] == end;
    RunReaches(t, |id|);
    SkipsAll(b, "-->" + rest);
  }

  lemma RunReaches(t: string, n: nat)
    requires n <= |t| && forall i | 0 <= i < n :: IsIdChar(t[i])
    ensures n <= Run(t)
  {
  }

  lemma SeenIsMatch(s: string, id: string)
    requires OPENING <= s && LABEL <= SkipSpace(s[|OPENING|..])
    requires var t := SkipSpace(s[|OPENING|..])[|LABEL|..];
             0 < |id| <= Run(t) && t[..|id|] == id && Closes(t[|id|..])
    ensures Matches(s, id)
  {
    var a := Skipped(s[|OPENING|..]);
    var inner := SkipSpace(s[|OPENING|..]);
    var t := inner[|LABEL|..];
    var b := Skipped(t[|id|..]);
    var rest := SkipSpace(t[|id|..])[|CLOSING|..];
    assert SkipSpace(t[|id|..]) == "-->" + rest;
    assert t == id + (b + ("-->" + rest));
    assert inner == "coverage-flow:" + t;
    assert s == OPENING + s[|OPENING|..] == Spelling(a, id, b, rest);
  }

  lemma LongestReaches(s: string, k: nat, n: nat)
    requires 0 < n <= k <= |s| && Closes(s[n..])
    ensures Longest(s, k).Some? && n <= |Longest(s, k).value|
  {
    assert ClosingIn(s)(n);
  }

  /** At the beginning of the text, exactly the longest id for which the expression matches. */
  lemma MatchHereIff(s: string)
    ensures match MatchHere(s)
            case None => forall id :: !Matches(s, id)
            case Some(id) => Matches(s, id) && forall other | Matches(s, other) :: |other| <= |id|
  {
    forall id | Matches(s, id) ensures MatchHere(s).Some? && |id| <= |MatchHere(s).value| {
      MatchIsSeen(s, id);
      var t := SkipSpace(s[|OPENING|..])[|LABEL|..];
      LongestReaches(t, Run(t), |id|);
    }
    if MatchHere(s).Some? {
      var t := SkipSpace(s[|OPENING|..])[|LABEL|..];
      SeenIsMatch(s, MatchHere(s).value);
    }
  }

  /** The leftmost place where the expression matches, with the longest id there. */
  ghost predicate FoundAt(s: string, i: nat, id: string)
    requires i <= |s|
  {
    && Matches(s[i..], id) && (forall other | Matches(s[i..], other) :: |other| <= |id|)
    && forall j, other | 0 <= j < i :: !Matches(s[j..], other)
  }

  lemma FoundLater(s: string, i: nat, id: string)
    requires i < |s| && FoundAt(s[1..], i, id) && forall other :: !Matches(s, other)
    ensures FoundAt(s, i + 1, id)
  {
    assert s[i + 1..] == s[1..][i..];
    forall j, other | 0 <= j < i + 1 ensures !Matches(s[j..], other) {
      assert s[j..] == if j == 0 then s else s[1..][j - 1..];
    }
  }

  ghost predicate Somewhere(s: string, id: string) {
    exists i | 0 <= i <= |s| :: FoundAt(s, i, id)
  }

  ghost predicate Nowhere(s: string) {
    forall i, id | 0 <= i <= |s| :: !Matches(s[i..], id)
  }

  lemma Here(s: string, id: string)
    requires Matches(s, id) && forall other | Matches(s, other) :: |other| <= |id|
    ensures Somewhere(s, id)
  {
    assert s[0..] == s;
    assert FoundAt(s, 0, id);
  }

  lemma Later(s: string, id: string)
    requires s != "" && (forall other :: !Matches(s, other)) && Somewhere(s[1..], id)
    ensures Somewhere(s, id)
  {
    var i: nat :| i <= |s[1..]| && FoundAt(s[1..], i, id);
    FoundLater(s, i, id);
  }

  lemma NoneLater(s: string)
    requires (forall other :: !Matches(s, other)) && (s == "" || Nowhere(s[1..]))
    ensures Nowhere(s)
  {
    forall i, id | 0 <= i <= |s| ensures !Matches(s[i..], id) {
      assert s[i..] == if i == 0 then s else s[1..][i - 1..];
    }
  }

  /** The search yields the id of the leftmost match, the longest one there, and nothing exactly
      if there is no match. */
  lemma {:induction false} ParseIff(s: string)
    ensures match Parse(s)
            case None => Nowhere(s)
            case Some(id) => Somewhere(s, id)
  {
    MatchHereIff(s);
    if MatchHere(s).Some? {
      Here(s, MatchHere(s).value);
    } else if s == "" {
      NoneLater(s);
    } else {
      ParseIff(s[1..]);
      if Parse(s[1..]).Some? {
        Later(s, Parse(s[1..]).value);
      } else {
        NoneLater(s);
      }
    }
  }

  // ---------------------------------------------------------------- the round trip

  lemma LongestIsValid(s: string, k: nat)
    requires k <= Run(s)
    ensures Longest(s, k).Some? ==> Valid(Longest(s, k).value)
  {
  }

  /** Only valid ids are ever parsed. */
  lemma {:induction false} ParsedIsValid(s: string)
    ensures Parse(s).Some? ==> Valid(Parse(s).value)
  {
    if s != "" {
      if OPENING <= s {
        var inner := SkipSpace(s[|OPENING|..]);
        if LABEL <= inner {
          LongestIsValid(inner[|LABEL|..], Run(inner[|LABEL|..]));
        }
      }
      ParsedIsValid(s[1..]);
    }
  }

  lemma {:induction false} RunOf(id: string, rest: string)
    requires forall i | 0 <= i < |id| :: IsIdChar(id[i])
    requires rest == "" || !IsIdChar(rest[0])
    ensures Run(id + rest) == |id|
  {
    if id == "" {
      assert id + rest == rest;
    } else {
      assert (id + rest)[1..] == id[1..] + rest;
      RunOf(id[1..], rest);
    }
  }

  lemma SkipOne(s: string)
    requires s != "" && !IsSpace(s[0])
    ensures SkipSpace([' '] + s) == s
  {
    assert ([' '] + s)[1..] == s;
  }

  lemma MarkerOpens(id: string, rest: string)
    ensures var s := Marker(id) + rest;
            && OPENING <= s && SkipSpace(s[|OPENING|..]) == LABEL + (id + (" " + (CLOSING + rest)))
  {
    var tail := LABEL + (id + (" " + (CLOSING + rest)));
    assert Marker(id) + rest == OPENING + ([' '] + tail);
    SkipOne(tail);
  }

  lemma MarkerMatches(id: string, rest: string)
    requires Valid(id)
    ensures MatchHere(Marker(id) + rest) == Some(id)
  {
    var end := " " + (CLOSING + rest);
    MarkerOpens(id, rest);
    assert (LABEL + (id + end))[|LABEL|..] == id + end;
    RunOf(id, end);
    assert (id + end)[|id|..] == [' '] + (CLOSING + rest);
    SkipOne(CLOSING + rest);
    assert (id + end)[..|id|] == id;
  }

  /** An id is read back from a body that starts with its marker, whatever follows, exactly when
      it is not empty and has neither white space nor `>`. */
  lemma RoundTripIff(id: string, rest: string)
    ensures Parse(Marker(id) + rest) == Some(id) <==> Valid(id)
  {
    ParsedIsValid(Marker(id) + rest);
    if Valid(id) {
      MarkerMatches(id, rest);
      assert Marker(id) + rest != "" by {
        assert |Marker(id)| > 0;
      }
    }
  }

  /** For one, ids with a blank, a tab, the end of a line or a `>` in them are lost. */
  lemma BlankLosesTheId(id: string, rest: string, c: char)
    requires c in id && (c == ' ' || c == '\t' || c == '\n' || c == '\r' || c == '>')
    ensures Parse(Marker(id) + rest) != Some(id)
  {
    RoundTripIff(id, rest);
  }

  /** The ids the coverage map admits: lower-case letters, digits, underscores and dots. */
  predicate Spelled(id: string) {
    id != "" && forall i | 0 <= i < |id| :: 'a' <= id[i] <= 'z' || '0' <= id[i] <= '9' || id[i] == '_' || id[i] == '.'
  }

  lemma SpelledIsValid(id: string)
    requires Spelled(id)
    ensures Valid(id)
  {
    forall i | 0 <= i < |id| ensures IsIdChar(id[i]) {
    }
  }
}
