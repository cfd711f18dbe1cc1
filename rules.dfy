/** The per-event-type switch of parser/parser.go restated as a table of
    extraction rules (paths into the body, with an optional fallback path for
    the creation time), and proved to agree with the switch. */
module Rules {
  import opened Json
  import opened Decimal
  import opened Parser

  /** A path of object keys; every key but the last names a nested object. */
  type Path = p: seq<string> | |p| >= 1 witness ["id"]

  /** The string at the end of a path; any missing key or wrong type panics. */
  function StringAt(m: Object, path: Path): Eval<string>
    decreases |path|
  {
    if |path| == 1 then AsString(m, path[0])
    else
      var inner :- AsObject(m, path[0]);
      StringAt(inner, path[1..])
  }

  /** The number at the end of a path; any missing key or wrong type panics. */
  function NumberAt(m: Object, path: Path): Eval<int>
    decreases |path|
  {
    if |path| == 1 then AsNumber(m, path[0])
    else
      var inner :- AsObject(m, path[0]);
      NumberAt(inner, path[1..])
  }

  /** How the identifier is formed: a string field, or the repository name,
      a slash and the decimal rendering of a number field. */
  datatype IdRule = IdAt(path: Path) | RepoSlashNumber(numberPath: Path)

  /** An extraction rule: the identifier, the creation-time path, and the path
      read instead when the creation time is the empty string. */
  datatype Rule = Rule(id: IdRule, time: Path, fallback: Option<Path>)

  const RepoName: Path := ["repository", "name"]

  const RuleTable: map<string, Rule> := map[
    "push" := Rule(IdAt(["head_commit", "id"]), ["head_commit", "timestamp"], None),
    "pull_request" := Rule(RepoSlashNumber(["number"]), ["pull_request", "updated_at"], None),
    "pull_request_review" := Rule(IdAt(["review", "id"]), ["review", "submitted_at"], None),
    "pull_request_review_comment" := Rule(IdAt(["comment", "id"]), ["comment", "updated_at"], None),
    "issues" := Rule(RepoSlashNumber(["issue", "number"]), ["issue", "updated_at"], None),
    "issue_comment" := Rule(IdAt(["comment", "id"]), ["comment", "updated_at"], None),
    "check_run" := Rule(IdAt(["check_run", "id"]), ["check_run", "completed_at"],
                        Some(["check_run", "started_at"])),
    "check_suite" := Rule(IdAt(["check_suite", "id"]), ["check_suite", "updated_at"],
                          Some(["check_suite", "created_at"])),
    "deployment_status" := Rule(IdAt(["deployment_status", "id"]), ["deployment_status", "updated_at"], None),
    "status" := Rule(IdAt(["id"]), ["updated_at"], None),
    "release" := Rule(IdAt(["release", "id"]), ["release", "published_at"],
                      Some(["release", "created_at"]))
  ]

  function IdOf(rule: IdRule, doc: Object): Eval<string> {
    match rule
    case IdAt(p) => StringAt(doc, p)
    case RepoSlashNumber(p) =>
      var name :- StringAt(doc, RepoName);
      var number :- NumberAt(doc, p);
      Val(name + "/" + Itoa(number))
  }

  function TimeOf(rule: Rule, doc: Object): Eval<string> {
    var primary :- StringAt(doc, rule.time);
    if primary == "" && rule.fallback.Some? then StringAt(doc, rule.fallback.value) else Val(primary)
  }

  /** The fields a rule extracts; a panic if either cannot be read. */
  function ApplyRule(rule: Rule, doc: Object): Eval<Fields> {
    var time :- TimeOf(rule, doc);
    var id :- IdOf(rule.id, doc);
    Val(Fields(id, time))
  }

  /** The table has exactly the switch's cases. */
  lemma RuleTableCoversEventTypes()
    ensures RuleTable.Keys == EventTypes
  {
  }

  /** The switch as written extracts what the rule table says, for every event
      type and every body. */
  lemma SwitchFollowsRuleTable(eventType: string, doc: Object)
    ensures ExtractFields(eventType, doc)
            == if eventType in RuleTable then Some(ApplyRule(RuleTable[eventType], doc)) else None
  {
  }

  /** The switch panics exactly when the creation time (primary, or fallback
      when the primary is "") or the identifier cannot be read: a missing or
      wrongly typed field never yields a default value. */
  lemma MissingFieldPanics(eventType: string, doc: Object)
    requires eventType in RuleTable
    ensures ExtractFields(eventType, doc) == Some(Panic) <==>
              TimeOf(RuleTable[eventType], doc).Panic? || IdOf(RuleTable[eventType].id, doc).Panic?
    ensures StringAt(doc, RuleTable[eventType].time).Panic? ==> ExtractFields(eventType, doc) == Some(Panic)
  {
    SwitchFollowsRuleTable(eventType, doc);
  }

  /** The creation time is the primary field, except for the three types with
      a fallback whose primary field is exactly the empty string. */
  lemma TimestampChoice(eventType: string, doc: Object, f: Fields)
    requires eventType in RuleTable
    requires ExtractFields(eventType, doc) == Some(Val(f))
    ensures var rule := RuleTable[eventType];
            if rule.fallback.Some? && StringAt(doc, rule.time) == Val("")
            then StringAt(doc, rule.fallback.value) == Val(f.timeCreated)
            else StringAt(doc, rule.time) == Val(f.timeCreated)
  {
    SwitchFollowsRuleTable(eventType, doc);
  }

  /** A non-empty primary time is kept, and the fallback field is then not read:
      the result is the same whether or not it is present. */
  lemma FallbackNotReadWhenPrimarySet(eventType: string, doc: Object, time: string, id: string)
    requires eventType in RuleTable
    requires StringAt(doc, RuleTable[eventType].time) == Val(time) && time != ""
    requires IdOf(RuleTable[eventType].id, doc) == Val(id)
    ensures ExtractFields(eventType, doc) == Some(Val(Fields(id, time)))
  {
    SwitchFollowsRuleTable(eventType, doc);
  }

  /** Index of the last '/' in `s`, if any. */
  function LastSlash(s: string): (r: Option<nat>)
    ensures r.Some? ==> r.value < |s| && s[r.value] == '/'
    ensures r.Some? ==> forall j :: r.value < j < |s| ==> s[j] != '/'
    ensures r.None? ==> forall j :: 0 <= j < |s| ==> s[j] != '/'
  {
    if s == [] then None
    else if s[|s| - 1] == '/' then Some(|s| - 1)
    else LastSlash(s[..|s| - 1])
  }

  /** Splits an identifier of the form repository name, '/', number. */
  function SplitId(id: string): Option<(string, int)> {
    match LastSlash(id)
    case None => None
    case Some(k) =>
      match ReadItoa(id[k + 1..])
      case None => None
      case Some(n) => Some((id[..k], n))
  }

  /** Joining a name and a number with '/' loses nothing, even when the name
      itself contains '/'. */
  lemma {:induction false} SplitIdRoundTrip(name: string, n: int)
    ensures SplitId(name + "/" + Itoa(n)) == Some((name, n))
  {
    var digits := Itoa(n);
    var id := name + "/" + digits;
    forall j | |name| < j < |id|
      ensures id[j] != '/'
    {
      assert id[j] == digits[j - |name| - 1];
      if n >= 0 {
        assert IsDigit(digits[j - |name| - 1]);
      } else if j - |name| - 1 > 0 {
        assert IsDigit(digits[1..][j - |name| - 2]);
      }
    }
    var k := LastSlash(id);
    assert id[|name|] == '/';
    assert k == Some(|name|);
    assert id[|name| + 1..] == digits;
    assert id[..|name|] == name;
    ItoaRoundTrip(n);
  }

  /** For `pull_request` and `issues` the identifier splits back into the
      repository name and the number it was built from. */
  lemma RepoSlashNumberIdDecodes(eventType: string, doc: Object, f: Fields)
    requires eventType in RuleTable && RuleTable[eventType].id.RepoSlashNumber?
    requires ExtractFields(eventType, doc) == Some(Val(f))
    ensures StringAt(doc, RepoName).Val? && NumberAt(doc, RuleTable[eventType].id.numberPath).Val?
    ensures SplitId(f.id)
            == Some((StringAt(doc, RepoName).value, NumberAt(doc, RuleTable[eventType].id.numberPath).value))
  {
    SwitchFollowsRuleTable(eventType, doc);
    SplitIdRoundTrip(StringAt(doc, RepoName).value, NumberAt(doc, RuleTable[eventType].id.numberPath).value);
  }

  /** The example of a `check_run` that has started but not completed. */
  lemma CheckRunFallbackExample(started: string, id: string)
    ensures ExtractFields("check_run", map["check_run" := JObj(map[
              "completed_at" := JStr(""), "started_at" := JStr(started), "id" := JStr(id)])])
            == Some(Val(Fields(id, started)))
  {
  }

  /** The example of a `pull_request` numbered 42 in repository "repo". */
  lemma PullRequestIdExample(updated: string)
    ensures ExtractFields("pull_request", map[
              "pull_request" := JObj(map["updated_at" := JStr(updated)]),
              "repository" := JObj(map["name" := JStr("repo")]),
              "number" := JNum(42)])
            == Some(Val(Fields("repo/42", updated)))
  {
    assert NatToDecimal(4) == "4" && DigitChar(2) == '2';
    assert Itoa(42) == "42";
    assert "repo" + "/" + "42" == "repo/42";
  }
}
