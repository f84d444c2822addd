/** The prefix table of `ci/run-pr-tests.py`, and its order. */
module ImpactTable {
  import opened TestTargets

  /** A row for sources below `datus/` and tests below `tests/unit_tests/`. */
  datatype Row = Row(source: string, tests: string)

  /** Rows for directories of `top` whose tests mirror them; the name "" stands for `top`. */
  function Mirrored(top: string, names: seq<string>): seq<Row> {
    seq(|names|, i requires 0 <= i < |names| => Row(top + names[i], top + names[i]))
  }

  const AGENT: seq<string> := ["node/", ""]

  const API: seq<string> := ["auth/", "hooks/", "models/", "routes/", "services/", "utils/", ""]

  const CLI: seq<string> := ["action_display/", "screen/", "tui/", "web/", ""]

  const CORE: seq<Row> := [
    Row("conf/", "configuration/"), Row("configuration/", "configuration/"), Row("gateway/", "gateway/"),
    Row("models/", "models/")]

  const MORE: seq<Row> := [
    Row("observability/", "observability/"), Row("prompts/", "prompts/"),
    Row("resources/skills/", "tools/skill_tools/"), Row("schemas/", "schemas/")]

  const STORAGE: seq<string> := [
    "document/", "ext_knowledge/", "feedback/", "metric/", "rdb/", "reference_sql/", "reference_template/",
    "schema_metadata/", "semantic_model/", "task/", "vector/", ""]

  const TOOLS: seq<string> := [
    "bi_tools/", "date_tools/", "db_tools/", "func_tool/", "llms_tools/", "mcp_tools/", "output_tools/",
    "permission/", "proxy/", "registry/", "search_tools/", "semantic_tools/", "skill_tools/", ""]

  const LAST: seq<Row> := [Row("utils/", "utils/"), Row("validation/", "validation/")]

  const NARROW: seq<Row> :=
    Mirrored("agent/", AGENT) + (Mirrored("api/", API) + (Mirrored("auth/", [""]) + (Mirrored("cli/", CLI)
    + (CORE + (MORE + (Mirrored("storage/", STORAGE) + (Mirrored("tools/", TOOLS) + LAST)))))))

  const CI_RULE := Rule("ci/", UNIT_TESTS + "ci/")
  const REST := Row("", "")

  function RuleOf(row: Row): Rule {
    Rule("datus/" + row.source, UNIT_TESTS + row.tests)
  }

  function Rules(rows: seq<Row>): seq<Rule> {
    seq(|rows|, i requires 0 <= i < |rows| => RuleOf(rows[i]))
  }

  const IMPACTED_TEST_MAPPING: seq<Rule> := Rules(NARROW) + [CI_RULE, RuleOf(REST)]

  // ---------------------------------------------------------------- an order with extensions first

  predicate Diverge(a: string, b: string, k: nat) {
    k < |a| && k < |b| && (forall i | 0 <= i < k :: a[i] == b[i]) && a[k] < b[k]
  }

  /** Alphabetical order, except that an extension comes before what it extends. */
  ghost predicate Precedes(a: string, b: string) {
    b < a || exists k: nat :: Diverge(a, b, k)
  }

  lemma PrecedesIsTransitive(a: string, b: string, c: string)
    requires Precedes(a, b) && Precedes(b, c)
    ensures Precedes(a, c)
  {
    if k: nat :| Diverge(a, b, k) {
      if m: nat :| Diverge(b, c, m) {
        assert Diverge(a, c, if k < m then k else m);
      } else if k < |c| {
        assert Diverge(a, c, k);
      }
    } else if m: nat :| Diverge(b, c, m) {
      assert Diverge(a, c, m);
    }
  }

  lemma PrecedingIsNoPrefix(a: string, b: string)
    requires Precedes(a, b)
    ensures !(a <= b)
  {
  }

  lemma PrecedesBelow(top: string, a: string, b: string)
    requires Precedes(a, b)
    ensures Precedes(top + a, top + b)
  {
    if k: nat :| Diverge(a, b, k) {
      assert Diverge(top + a, top + b, |top| + k);
    }
  }

  ghost predicate NamesAscend(names: seq<string>) {
    forall i | 0 < i < |names| :: Precedes(names[i - 1], names[i])
  }

  ghost predicate Ascending(rows: seq<Row>) {
    forall i | 0 < i < |rows| :: Precedes(rows[i - 1].source, rows[i].source)
  }

  lemma {:induction false} AscendingPairs(rows: seq<Row>, i: nat, j: nat)
    requires Ascending(rows) && i < j < |rows|
    ensures Precedes(rows[i].source, rows[j].source)
    decreases j
  {
    assert Precedes(rows[j - 1].source, rows[j].source);
    if i < j - 1 {
      AscendingPairs(rows, i, j - 1);
      PrecedesIsTransitive(rows[i].source, rows[j - 1].source, rows[j].source);
    }
  }

  lemma MirroredAscend(top: string, names: seq<string>)
    requires NamesAscend(names)
    ensures Ascending(Mirrored(top, names))
  {
    var rows := Mirrored(top, names);
    forall i | 0 < i < |rows| ensures Precedes(rows[i - 1].source, rows[i].source) {
      PrecedesBelow(top, names[i - 1], names[i]);
    }
  }

  lemma AscendTogether(s: seq<Row>, t: seq<Row>, k: nat)
    requires Ascending(s) && Ascending(t) && s != [] && t != []
    requires Diverge(s[|s| - 1].source, t[0].source, k)
    ensures Ascending(s + t)
  {
    forall i | 0 < i < |s + t| ensures Precedes((s + t)[i - 1].source, (s + t)[i].source) {
      if i < |s| {
        assert Precedes(s[i - 1].source, s[i].source);
      } else if i > |s| {
        assert Precedes(t[i - |s| - 1].source, t[i - |s|].source);
      }
    }
  }

  // ---------------------------------------------------------------- the shipped table has it

  lemma ShortListsAscend()
    ensures NamesAscend(AGENT) && NamesAscend(API) && NamesAscend(CLI)
  {
    assert Diverge("auth/", "hooks/", 0) && Diverge("hooks/", "models/", 0) && Diverge("models/", "routes/", 0);
    assert Diverge("routes/", "services/", 0) && Diverge("services/", "utils/", 0);
    assert Diverge("action_display/", "screen/", 0) && Diverge("screen/", "tui/", 0) && Diverge("tui/", "web/", 0);
  }

  lemma CoreAscends()
    ensures Ascending(CORE) && Ascending(MORE) && Ascending(LAST)
  {
    assert Diverge("conf/", "configuration/", 4);
    assert Diverge("configuration/", "gateway/", 0) && Diverge("gateway/", "models/", 0);
    assert Diverge("observability/", "prompts/", 0);
    assert Diverge("prompts/", "resources/skills/", 0) && Diverge("resources/skills/", "schemas/", 0);
    assert Diverge("utils/", "validation/", 0);
  }

  lemma StorageAscends()
    ensures NamesAscend(STORAGE)
  {
    assert Diverge("document/", "ext_knowledge/", 0) && Diverge("ext_knowledge/", "feedback/", 0);
    assert Diverge("feedback/", "metric/", 0) && Diverge("metric/", "rdb/", 0) && Diverge("rdb/", "reference_sql/", 1);
    assert Diverge("reference_sql/", "reference_template/", 10) && Diverge("reference_template/", "schema_metadata/", 0);
    assert Diverge("schema_metadata/", "semantic_model/", 1) && Diverge("semantic_model/", "task/", 0);
    assert Diverge("task/", "vector/", 0);
  }

  lemma ToolsAscend()
    ensures NamesAscend(TOOLS)
  {
    assert Diverge("bi_tools/", "date_tools/", 0) && Diverge("date_tools/", "db_tools/", 1);
    assert Diverge("db_tools/", "func_tool/", 0) && Diverge("func_tool/", "llms_tools/", 0);
    assert Diverge("llms_tools/", "mcp_tools/", 0) && Diverge("mcp_tools/", "output_tools/", 0);
    assert Diverge("output_tools/", "permission/", 0) && Diverge("permission/", "proxy/", 1);
    assert Diverge("proxy/", "registry/", 0) && Diverge("registry/", "search_tools/", 0);
    assert Diverge("search_tools/", "semantic_tools/", 2) && Diverge("semantic_tools/", "skill_tools/", 1);
  }

  lemma LateRowsAscend()
    ensures Ascending(Mirrored("storage/", STORAGE) + (Mirrored("tools/", TOOLS) + LAST))
  {
    StorageAscends();
    ToolsAscend();
    CoreAscends();
    MirroredAscend("storage/", STORAGE);
    MirroredAscend("tools/", TOOLS);
    AscendTogether(Mirrored("tools/", TOOLS), LAST, 0);
    AscendTogether(Mirrored("storage/", STORAGE), Mirrored("tools/", TOOLS) + LAST, 0);
  }

  lemma EarlyRowsAscend(late: seq<Row>)
    requires Ascending(late) && late != [] && Diverge("cli/", late[0].source, 1)
    ensures Ascending(Mirrored("agent/", AGENT) + (Mirrored("api/", API) + (Mirrored("auth/", [""]) + (Mirrored("cli/", CLI) + late))))
  {
    ShortListsAscend();
    MirroredAscend("agent/", AGENT);
    MirroredAscend("api/", API);
    MirroredAscend("auth/", [""]);
    MirroredAscend("cli/", CLI);
    var fromCli := Mirrored("cli/", CLI) + late;
    AscendTogether(Mirrored("cli/", CLI), late, 1);
    AscendTogether(Mirrored("auth/", [""]), fromCli, 0);
    AscendTogether(Mirrored("api/", API), Mirrored("auth/", [""]) + fromCli, 1);
    AscendTogether(Mirrored("agent/", AGENT), Mirrored("api/", API) + (Mirrored("auth/", [""]) + fromCli), 1);
  }

  lemma NarrowAscends()
    ensures Ascending(NARROW)
  {
    LateRowsAscend();
    CoreAscends();
    var late := Mirrored("storage/", STORAGE) + (Mirrored("tools/", TOOLS) + LAST);
    AscendTogether(MORE, late, 1);
    AscendTogether(CORE, MORE + late, 0);
    EarlyRowsAscend(CORE + (MORE + late));
  }

  predicate WithoutBackslash(s: string) {
    forall i | 0 <= i < |s| :: s[i] != '\\'
  }

  /** The row is for a proper part of `datus/`, and its target needs no normalization. */
  predicate Proper(row: Row) {
    row.source != "" && WithoutBackslash(row.tests)
  }

  ghost predicate AllProper(rows: seq<Row>) {
    forall i | 0 <= i < |rows| :: Proper(rows[i])
  }

  ghost predicate AllWithoutBackslash(names: seq<string>) {
    forall i | 0 <= i < |names| :: WithoutBackslash(names[i])
  }

  lemma MirroredIsProper(top: string, names: seq<string>)
    requires top != "" && WithoutBackslash(top) && AllWithoutBackslash(names)
    ensures AllProper(Mirrored(top, names))
  {
  }

  lemma TogetherProper(s: seq<Row>, t: seq<Row>)
    requires AllProper(s) && AllProper(t)
    ensures AllProper(s + t)
  {
  }

  lemma StorageIsProper()
    ensures AllProper(Mirrored("storage/", STORAGE))
  {
    assert WithoutBackslash("document/") && WithoutBackslash("ext_knowledge/") && WithoutBackslash("feedback/");
    assert WithoutBackslash("metric/") && WithoutBackslash("rdb/") && WithoutBackslash("reference_sql/");
    assert WithoutBackslash("reference_template/") && WithoutBackslash("schema_metadata/");
    assert WithoutBackslash("semantic_model/") && WithoutBackslash("task/") && WithoutBackslash("vector/");
    MirroredIsProper("storage/", STORAGE);
  }

  lemma ToolsAreProper()
    ensures AllProper(Mirrored("tools/", TOOLS))
  {
    MirroredIsProper("tools/", TOOLS);
  }

  lemma CoreIsProper()
    ensures AllProper(CORE)
  {
  }

  lemma MoreIsProper()
    ensures AllProper(MORE)
  {
    assert WithoutBackslash("observability/") && WithoutBackslash("prompts/");
    assert WithoutBackslash("tools/skill_tools/") && WithoutBackslash("schemas/");
  }

  lemma LastIsProper()
    ensures AllProper(LAST)
  {
  }

  lemma EarlyRowsAreProper()
    ensures AllProper(Mirrored("agent/", AGENT)) && AllProper(Mirrored("api/", API))
    ensures AllProper(Mirrored("auth/", [""])) && AllProper(Mirrored("cli/", CLI))
  {
    MirroredIsProper("agent/", AGENT);
    MirroredIsProper("api/", API);
    MirroredIsProper("auth/", [""]);
    MirroredIsProper("cli/", CLI);
  }

  lemma NarrowIsProper()
    ensures AllProper(NARROW)
  {
    EarlyRowsAreProper();
    StorageIsProper();
    ToolsAreProper();
    CoreIsProper();
    MoreIsProper();
    LastIsProper();
    var tools := Mirrored("tools/", TOOLS) + LAST;
    var storage := Mirrored("storage/", STORAGE) + tools;
    var core := CORE + (MORE + storage);
    var cli := Mirrored("cli/", CLI) + core;
    var api := Mirrored("api/", API) + (Mirrored("auth/", [""]) + cli);
    TogetherProper(Mirrored("tools/", TOOLS), LAST);
    TogetherProper(Mirrored("storage/", STORAGE), tools);
    TogetherProper(MORE, storage);
    TogetherProper(CORE, MORE + storage);
    TogetherProper(Mirrored("cli/", CLI), core);
    TogetherProper(Mirrored("auth/", [""]), cli);
    TogetherProper(Mirrored("api/", API), Mirrored("auth/", [""]) + cli);
    TogetherProper(Mirrored("agent/", AGENT), api);
  }

  // ---------------------------------------------------------------- the tests mirror the sources

  /** The tests of a row are where its sources are, but for two rows. */
  predicate Mirrors(row: Row) {
    row.tests == if row.source == "conf/" then "configuration/"
                 else if row.source == "resources/skills/" then "tools/skill_tools/" else row.source
  }

  ghost predicate AllMirror(rows: seq<Row>) {
    forall i | 0 <= i < |rows| :: Mirrors(rows[i])
  }

  lemma MirroredMirrors(top: string, names: seq<string>)
    requires |top| >= 2 && !(top[0] == 'c' && top[1] == 'o') && !(top[0] == 'r' && top[1] == 'e')
    ensures AllMirror(Mirrored(top, names))
  {
    forall i | 0 <= i < |names| ensures Mirrors(Mirrored(top, names)[i]) {
      assert (top + names[i])[0] == top[0] && (top + names[i])[1] == top[1];
      assert "conf/"[1] == 'o' && "resources/skills/"[1] == 'e';
    }
  }

  lemma TogetherMirror(s: seq<Row>, t: seq<Row>)
    requires AllMirror(s) && AllMirror(t)
    ensures AllMirror(s + t)
  {
  }

  lemma CoreMirrors()
    ensures AllMirror(CORE)
  {
    assert "resources/skills/"[0] == 'r';
  }

  lemma MoreMirrors()
    ensures AllMirror(MORE)
  {
    assert "conf/"[0] == 'c' && "resources/skills/"[2] == 's';
  }

  lemma NarrowMirrors()
    ensures AllMirror(NARROW)
  {
    MirroredMirrors("agent/", AGENT);
    MirroredMirrors("api/", API);
    MirroredMirrors("auth/", [""]);
    MirroredMirrors("cli/", CLI);
    MirroredMirrors("storage/", STORAGE);
    MirroredMirrors("tools/", TOOLS);
    CoreMirrors();
    MoreMirrors();
    var tools := Mirrored("tools/", TOOLS) + LAST;
    var core := CORE + (MORE + (Mirrored("storage/", STORAGE) + tools));
    TogetherMirror(Mirrored("tools/", TOOLS), LAST);
    TogetherMirror(Mirrored("storage/", STORAGE), tools);
    TogetherMirror(MORE, Mirrored("storage/", STORAGE) + tools);
    TogetherMirror(CORE, MORE + (Mirrored("storage/", STORAGE) + tools));
    TogetherMirror(Mirrored("cli/", CLI), core);
    TogetherMirror(Mirrored("auth/", [""]), Mirrored("cli/", CLI) + core);
    TogetherMirror(Mirrored("api/", API), Mirrored("auth/", [""]) + (Mirrored("cli/", CLI) + core));
    TogetherMirror(Mirrored("agent/", AGENT), Mirrored("api/", API) + (Mirrored("auth/", [""]) + (Mirrored("cli/", CLI) + core)));
  }

  lemma MappingSize()
    ensures |IMPACTED_TEST_MAPPING| == 53
  {
  }

  /** Every rule maps a directory of `datus/` to the one of the unit tests by the same name, but
      for `conf/` and `resources/skills/`, and `ci/` to its own. */
  lemma MappingMirrors(i: nat)
    requires i < |IMPACTED_TEST_MAPPING|
    ensures var rule := IMPACTED_TEST_MAPPING[i];
            || (rule.prefix == "ci/" && rule.target == "tests/unit_tests/ci/")
            || exists row: Row :: Mirrors(row) && rule == Rule("datus/" + row.source, "tests/unit_tests/" + row.tests)
  {
    NarrowMirrors();
    var row := if i < |NARROW| then NARROW[i] else REST;
    assert Mirrors(row);
    if i != |NARROW| {
      assert IMPACTED_TEST_MAPPING[i] == RuleOf(row);
    }
  }

  lemma RuleIsNormal(row: Row)
    requires WithoutBackslash(row.tests)
    ensures Normal(RuleOf(row).target) && "tests/" <= RuleOf(row).target
  {
    var t := RuleOf(row).target;
    assert WithoutBackslash(UNIT_TESTS);
    assert t[0] == 't' && "tests/" <= UNIT_TESTS;
    assert WithoutBackslash(t) by {
      assert forall i | 0 <= i < |t| ::
          t[i] == if i < |UNIT_TESTS| then UNIT_TESTS[i] else row.tests[i - |UNIT_TESTS|];
    }
    assert seq(|t|, i requires 0 <= i < |t| => if t[i] == '\\' then '/' else t[i]) == t;
  }

  lemma RulesAreNormal(rows: seq<Row>)
    requires AllProper(rows)
    ensures NormalTable(Rules(rows) + [CI_RULE, RuleOf(REST)])
  {
    RuleIsNormal(REST);
    RuleIsNormal(Row("ci/", "ci/"));
    forall rule | rule in Rules(rows) ensures Normal(rule.target) && "tests/" <= rule.target {
      var i :| 0 <= i < |rows| && rule == RuleOf(rows[i]);
      RuleIsNormal(rows[i]);
    }
  }

  lemma ExtensionIsEarlier(rows: seq<Row>, i: nat, j: nat)
    requires Ascending(rows) && AllProper(rows)
    requires var table := Rules(rows) + [CI_RULE, RuleOf(REST)];
             i < |table| && j < |table| && table[i].prefix < table[j].prefix
    ensures j < i
  {
    var n := |rows|;
    OnlyCiIsElsewhere(rows, i);
    OnlyCiIsElsewhere(rows, j);
    if i < n && j < n && i < j {
      AscendingPairs(rows, i, j);
      PrecedesBelow("datus/", rows[i].source, rows[j].source);
      PrecedingIsNoPrefix(RuleOf(rows[i]).prefix, RuleOf(rows[j]).prefix);
    }
  }

  lemma OnlyCiIsElsewhere(rows: seq<Row>, i: nat)
    requires i < |rows| + 2 && AllProper(rows)
    ensures var prefix := (Rules(rows) + [CI_RULE, RuleOf(REST)])[i].prefix;
            && |prefix| > 0 && (if i == |rows| then prefix[0] == 'c' else prefix[0] == 'd')
            && (i < |rows| ==> |prefix| > 6)
            && (i == |rows| + 1 ==> |prefix| == 6)
  {
    if i < |rows| {
      assert Proper(rows[i]);
    }
  }

  lemma SpecificWithCatchAlls(rows: seq<Row>)
    requires Ascending(rows) && AllProper(rows)
    ensures SpecificFirst(Rules(rows) + [CI_RULE, RuleOf(REST)])
  {
    var table := Rules(rows) + [CI_RULE, RuleOf(REST)];
    forall i, j | 0 <= i < |table| && 0 <= j < |table| && table[i].prefix < table[j].prefix
      ensures exists k | 0 <= k < i :: table[k].prefix == table[j].prefix
    {
      ExtensionIsEarlier(rows, i, j);
    }
  }

  /** All targets of the table are normalized paths below `tests/`. */
  lemma MappingIsNormal()
    ensures NormalTable(IMPACTED_TEST_MAPPING)
  {
    NarrowIsProper();
    RulesAreNormal(NARROW);
  }

  /** In the table a prefix comes after its proper extensions, so that the first rule that
      matches a path is always one with the longest matching prefix. */
  lemma MappingPicksLongest()
    ensures SpecificFirst(IMPACTED_TEST_MAPPING) && PicksLongest(IMPACTED_TEST_MAPPING)
  {
    NarrowAscends();
    NarrowIsProper();
    SpecificWithCatchAlls(NARROW);
    PicksLongestIff(IMPACTED_TEST_MAPPING);
  }
}
