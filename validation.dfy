/** What the three forms share: a schema of per-field rules, the outcome the
    validation library reports for a record under `abortEarly: false`, and the
    `error.inner.reduce` fold that turns a failure into a field-to-message map. */
module Validation {
  import opened FormTypes
  import opened CardPatterns

  /** The regular expressions the rules use. */
  datatype Pattern = CardNumberPattern | ExpiryPattern | CvvPattern

  predicate Matches(pattern: Pattern, s: string)
  {
    match pattern
    case CardNumberPattern => IsCardNumber(s)
    case ExpiryPattern => IsExpiry(s)
    case CvvPattern => IsCvv(s)
  }

  /** One test of a string field, with the message it reports. */
  datatype Rule =
    | Required(message: string)
    | Email(message: string)
    | Regex(pattern: Pattern, message: string)

  /** Whether `rule` rejects `value`. A required string must be non-empty; a
      pattern rule (Yup's `matches`) rejects every string the pattern does not
      match, the empty string included; the email rule is a pattern rule that
      skips the empty string (Yup's `email()` excludes it), and its pattern is
      the library's email shape test, the parameter `isEmail`. */
  predicate RuleFails(rule: Rule, value: string, isEmail: string -> bool)
  {
    match rule
    case Required(_) => value == ""
    case Email(_) => value != "" && !isEmail(value)
    case Regex(pattern, _) => !Matches(pattern, value)
  }

  /** A field of a schema: its path and its rules, in declared order. */
  datatype Field = Field(name: string, rules: seq<Rule>)

  type Schema = seq<Field>

  /** The value a schema reads at `name`; a missing field reads as "". */
  function Lookup(values: map<string, string>, name: string): string
  {
    if name in values then values[name] else ""
  }

  /** The messages of the rules that reject `value`. */
  function FailedMessages(rules: seq<Rule>, value: string, isEmail: string -> bool): set<string>
    decreases |rules|
  {
    if rules == [] then {}
    else (if RuleFails(rules[0], value, isEmail) then {rules[0].message} else {}) + FailedMessages(rules[1..], value, isEmail)
  }

  /** A message is failed exactly when some rule carrying it rejects the value. */
  lemma {:induction false} FailedMessagesMeaning(rules: seq<Rule>, value: string, isEmail: string -> bool)
    ensures forall m :: m in FailedMessages(rules, value, isEmail) <==>
      exists i :: 0 <= i < |rules| && rules[i].message == m && RuleFails(rules[i], value, isEmail)
    decreases |rules|
  {
    if rules != [] {
      FailedMessagesMeaning(rules[1..], value, isEmail);
      assert forall i :: 1 <= i < |rules| ==> rules[i] == rules[1..][i - 1];
    }
  }

  /** The failures of one field, as (path, message) pairs. */
  function PairsOf(name: string, messages: set<string>): set<(string, string)>
  {
    set m | m in messages :: (name, m)
  }

  /** The (path, message) pairs one field fails with. */
  function FieldPairs(field: Field, values: map<string, string>, isEmail: string -> bool): set<(string, string)>
  {
    PairsOf(field.name, FailedMessages(field.rules, Lookup(values, field.name), isEmail))
  }

  /** Every (path, message) pair the library reports for `values`: each rule
      of each field is evaluated, so no failure hides another. */
  function Failures(schema: Schema, values: map<string, string>, isEmail: string -> bool): set<(string, string)>
    decreases |schema|
  {
    if schema == [] then {} else FieldPairs(schema[0], values, isEmail) + Failures(schema[1..], values, isEmail)
  }

  /** A pair is a failure exactly when some field of the schema on that path
      has a rule with that message that rejects the field's value. */
  lemma {:induction false} FailuresMeaning(schema: Schema, values: map<string, string>, isEmail: string -> bool)
    ensures forall p :: p in Failures(schema, values, isEmail) <==>
      exists i :: 0 <= i < |schema| && p.0 == schema[i].name
        && p.1 in FailedMessages(schema[i].rules, Lookup(values, schema[i].name), isEmail)
    decreases |schema|
  {
    if schema != [] {
      FailuresMeaning(schema[1..], values, isEmail);
      assert forall i :: 1 <= i < |schema| ==> schema[i] == schema[1..][i - 1];
    }
  }

  /** The fields with at least one failing rule. */
  function FailingFields(schema: Schema, values: map<string, string>, isEmail: string -> bool): set<string>
  {
    set p | p in Failures(schema, values, isEmail) :: p.0
  }

  function Names(schema: Schema): set<string>
  {
    set i | 0 <= i < |schema| :: schema[i].name
  }

  /** Every path of the schema is truthy, so the fold writes each of them. */
  predicate WellFormed(schema: Schema)
  {
    forall i :: 0 <= i < |schema| ==> schema[i].name != ""
  }

  /** One entry of `error.inner`: a path (absent for an error on the whole
      object) and a message. */
  datatype Issue = Issue(path: Option<string>, message: string)

  /** How `validate` ends: it resolves, it throws a `ValidationError` carrying
      `inner`, or it throws anything else. */
  datatype Outcome = Passed | Failed(inner: seq<Issue>) | OtherError

  /** `inner` lists every failure, and nothing that is not one, in some order
      and possibly with repetitions. */
  ghost predicate Reports(inner: seq<Issue>, failures: set<(string, string)>)
  {
    && (forall i :: 0 <= i < |inner| ==>
          inner[i].path.Some? && (inner[i].path.value, inner[i].message) in failures)
    && (forall p :: p in failures ==>
          exists i :: 0 <= i < |inner| && inner[i] == Issue(Some(p.0), p.1))
  }

  /** What the validation library promises for a schema and a record with
      `abortEarly: false`: it resolves exactly when no rule fails, and a
      `ValidationError` reports all failures. */
  ghost predicate Conforms(schema: Schema, values: map<string, string>, isEmail: string -> bool, outcome: Outcome)
  {
    match outcome
    case Passed => Failures(schema, values, isEmail) == {}
    case Failed(inner) =>
      Failures(schema, values, isEmail) != {} && Reports(inner, Failures(schema, values, isEmail))
    case OtherError => true
  }

  /** The reducer's body: `if (curr.path) acc[curr.path] = curr.message`. An
      absent or empty path is falsy and writes nothing. */
  function Write(acc: map<string, string>, issue: Issue): map<string, string>
  {
    if issue.path.Some? && issue.path.value != "" then acc[issue.path.value := issue.message] else acc
  }

  /** `error.inner.reduce(..., {})`: a left fold of `Write` from the empty map. */
  function ErrorMapOf(inner: seq<Issue>): map<string, string>
    decreases |inner|
  {
    if inner == [] then map[] else Write(ErrorMapOf(inner[..|inner| - 1]), inner[|inner| - 1])
  }

  /** Last write wins: a key of the map is a truthy path, and its message is
      that of the last issue on that path. */
  lemma {:induction false} ErrorMapLastWrite(inner: seq<Issue>, k: string)
    requires k in ErrorMapOf(inner)
    ensures k != ""
    ensures exists i :: (0 <= i < |inner| && inner[i] == Issue(Some(k), ErrorMapOf(inner)[k])
      && forall j :: i < j < |inner| ==> inner[j].path != Some(k))
    decreases |inner|
  {
    var init := inner[..|inner| - 1];
    var last := inner[|inner| - 1];
    assert ErrorMapOf(inner) == Write(ErrorMapOf(init), last);
    if last.path == Some(k) && k != "" {
      assert inner[|inner| - 1] == Issue(Some(k), ErrorMapOf(inner)[k]);
    } else {
      assert k in ErrorMapOf(init) && ErrorMapOf(init)[k] == ErrorMapOf(inner)[k];
      ErrorMapLastWrite(init, k);
      var i :| 0 <= i < |init| && init[i] == Issue(Some(k), ErrorMapOf(init)[k])
        && forall j :: i < j < |init| ==> init[j].path != Some(k);
      assert inner[i] == init[i];
      forall j | i < j < |inner| ensures inner[j].path != Some(k) {
        if j < |init| {
          assert inner[j] == init[j];
        }
      }
    }
  }

  /** Every truthy path of `inner` is a key of the map. */
  lemma {:induction false} ErrorMapHasPath(inner: seq<Issue>, i: int)
    requires 0 <= i < |inner| && inner[i].path.Some? && inner[i].path.value != ""
    ensures inner[i].path.value in ErrorMapOf(inner)
    decreases |inner|
  {
    var init := inner[..|inner| - 1];
    assert ErrorMapOf(inner) == Write(ErrorMapOf(init), inner[|inner| - 1]);
    if i < |init| {
      assert init[i] == inner[i];
      ErrorMapHasPath(init, i);
    }
  }

  /** The map's keys are exactly the truthy paths of `inner`. */
  lemma ErrorMapKeys(inner: seq<Issue>)
    ensures forall k :: k in ErrorMapOf(inner) <==>
      exists i :: 0 <= i < |inner| && inner[i].path == Some(k) && k != ""
  {
    forall k
      ensures k in ErrorMapOf(inner) <==>
        exists i :: 0 <= i < |inner| && inner[i].path == Some(k) && k != ""
    {
      if k in ErrorMapOf(inner) {
        ErrorMapLastWrite(inner, k);
      }
      if exists i :: 0 <= i < |inner| && inner[i].path == Some(k) && k != "" {
        var i :| 0 <= i < |inner| && inner[i].path == Some(k) && k != "";
        ErrorMapHasPath(inner, i);
      }
    }
  }

  /** Every failure names a field of the schema, by a truthy path. */
  lemma FailuresAreOnFields(schema: Schema, values: map<string, string>, isEmail: string -> bool)
    requires WellFormed(schema)
    ensures forall p :: p in Failures(schema, values, isEmail) ==> p.0 in Names(schema) && p.0 != ""
  {
    FailuresMeaning(schema, values, isEmail);
  }

  /** The error map built from any complete failure report has exactly one
      entry per failing field, none for a passing field, and the message of
      each entry is one of the messages that field fails with. */
  lemma FailureMapIsExact(schema: Schema, values: map<string, string>, isEmail: string -> bool, inner: seq<Issue>)
    requires WellFormed(schema)
    requires Reports(inner, Failures(schema, values, isEmail))
    ensures ErrorMapOf(inner).Keys == FailingFields(schema, values, isEmail)
    ensures forall k :: k in ErrorMapOf(inner) ==> (k, ErrorMapOf(inner)[k]) in Failures(schema, values, isEmail)
  {
    var failures := Failures(schema, values, isEmail);
    var errors := ErrorMapOf(inner);
    forall k | k in errors ensures (k, errors[k]) in failures && k in FailingFields(schema, values, isEmail) {
      ErrorMapLastWrite(inner, k);
      var i :| 0 <= i < |inner| && inner[i] == Issue(Some(k), errors[k]);
      assert (k, errors[k]) in failures;
    }
    forall k | k in FailingFields(schema, values, isEmail) ensures k in errors {
      var p :| p in failures && p.0 == k;
      FailuresAreOnFields(schema, values, isEmail);
      var i :| 0 <= i < |inner| && inner[i] == Issue(Some(p.0), p.1);
      ErrorMapHasPath(inner, i);
    }
  }

  /** No two fields of the schema share a path. */
  predicate DistinctNames(schema: Schema)
  {
    forall i, j :: 0 <= i < j < |schema| ==> schema[i].name != schema[j].name
  }

  /** The messages reported on one path. */
  function MessagesAt(schema: Schema, values: map<string, string>, isEmail: string -> bool, name: string): set<string>
  {
    set pr | pr in Failures(schema, values, isEmail) && pr.0 == name :: pr.1
  }

  /** With distinct paths, the messages reported on a field's path are the
      messages of that field's failing rules. */
  lemma MessagesAtField(schema: Schema, values: map<string, string>, isEmail: string -> bool, i: int)
    requires DistinctNames(schema) && 0 <= i < |schema|
    ensures MessagesAt(schema, values, isEmail, schema[i].name)
      == FailedMessages(schema[i].rules, Lookup(values, schema[i].name), isEmail)
  {
    FailuresMeaning(schema, values, isEmail);
    var name := schema[i].name;
    var here := FailedMessages(schema[i].rules, Lookup(values, name), isEmail);
    forall m | m in here ensures m in MessagesAt(schema, values, isEmail, name) {
      assert (name, m) in Failures(schema, values, isEmail);
    }
    forall m | m in MessagesAt(schema, values, isEmail, name) ensures m in here {
      var pr :| pr in Failures(schema, values, isEmail) && pr.0 == name && pr.1 == m;
      var j :| 0 <= j < |schema| && pr.0 == schema[j].name
        && pr.1 in FailedMessages(schema[j].rules, Lookup(values, schema[j].name), isEmail);
      assert j == i;
    }
  }

  /** After a complete failure report, a path has an entry exactly when some
      message is reported on it, and the entry is one of those messages. */
  lemma ErrorEntry(schema: Schema, values: map<string, string>, isEmail: string -> bool, inner: seq<Issue>, name: string)
    requires WellFormed(schema)
    requires Reports(inner, Failures(schema, values, isEmail))
    ensures name in ErrorMapOf(inner) <==> MessagesAt(schema, values, isEmail, name) != {}
    ensures name in ErrorMapOf(inner) ==> ErrorMapOf(inner)[name] in MessagesAt(schema, values, isEmail, name)
  {
    var errors := ErrorMapOf(inner);
    var failures := Failures(schema, values, isEmail);
    FailureMapIsExact(schema, values, isEmail, inner);
    if name in errors {
      assert (name, errors[name]) in failures;
      assert errors[name] in MessagesAt(schema, values, isEmail, name);
    }
    if MessagesAt(schema, values, isEmail, name) != {} {
      var m :| m in MessagesAt(schema, values, isEmail, name);
      var pr :| pr in failures && pr.0 == name && pr.1 == m;
      assert name in FailingFields(schema, values, isEmail);
    }
  }

  /** The error map entry of a path on which at most two messages can be
      reported, each under its own condition. */
  lemma EntryOfTwo(schema: Schema, values: map<string, string>, isEmail: string -> bool, inner: seq<Issue>,
                   name: string, m1: string, c1: bool, m2: string, c2: bool)
    requires WellFormed(schema)
    requires Reports(inner, Failures(schema, values, isEmail))
    requires MessagesAt(schema, values, isEmail, name) == (if c1 then {m1} else {}) + (if c2 then {m2} else {})
    ensures name in ErrorMapOf(inner) <==> c1 || c2
    ensures name in ErrorMapOf(inner) ==>
      (ErrorMapOf(inner)[name] == m1 && c1) || (ErrorMapOf(inner)[name] == m2 && c2)
  {
    ErrorEntry(schema, values, isEmail, inner, name);
    if c1 {
      assert m1 in MessagesAt(schema, values, isEmail, name);
    } else if c2 {
      assert m2 in MessagesAt(schema, values, isEmail, name);
    }
  }

  /** The error map entry of a path on which at most one message can be
      reported. */
  lemma EntryOfOne(schema: Schema, values: map<string, string>, isEmail: string -> bool, inner: seq<Issue>,
                   name: string, m: string, c: bool)
    requires WellFormed(schema)
    requires Reports(inner, Failures(schema, values, isEmail))
    requires MessagesAt(schema, values, isEmail, name) == (if c then {m} else {})
    ensures name in ErrorMapOf(inner) <==> c
    ensures name in ErrorMapOf(inner) ==> ErrorMapOf(inner)[name] == m
  {
    ErrorEntry(schema, values, isEmail, inner, name);
  }

  /** After a complete failure report, the keys of the error map are the
      failing fields, all of them paths of the schema. */
  lemma ErrorKeysAreNames(schema: Schema, values: map<string, string>, isEmail: string -> bool, inner: seq<Issue>)
    requires WellFormed(schema)
    requires Reports(inner, Failures(schema, values, isEmail))
    ensures ErrorMapOf(inner).Keys == FailingFields(schema, values, isEmail)
    ensures ErrorMapOf(inner).Keys <= Names(schema)
  {
    FailureMapIsExact(schema, values, isEmail, inner);
    FailuresAreOnFields(schema, values, isEmail);
  }

  /** The messages of a field with one rule or with two rules. */
  lemma RuleMessages(r1: Rule, r2: Rule, value: string, isEmail: string -> bool)
    ensures FailedMessages([r1], value, isEmail)
      == (if RuleFails(r1, value, isEmail) then {r1.message} else {})
    ensures FailedMessages([r1, r2], value, isEmail)
      == (if RuleFails(r1, value, isEmail) then {r1.message} else {})
       + (if RuleFails(r2, value, isEmail) then {r2.message} else {})
  {
    assert [r1][1..] == [];
    assert [r1, r2][1..] == [r2];
    assert [r2][1..] == [];
    assert FailedMessages([r2], value, isEmail)
      == (if RuleFails(r2, value, isEmail) then {r2.message} else {}) + FailedMessages([], value, isEmail);
  }

  /** Reports of two failure sets, one after the other, report their union. */
  lemma ReportsAppend(head: seq<Issue>, rest: seq<Issue>, h: set<(string, string)>, t: set<(string, string)>)
    requires Reports(head, h) && Reports(rest, t)
    ensures Reports(head + rest, h + t)
  {
    var r := head + rest;
    forall i | 0 <= i < |r| ensures r[i].path.Some? && (r[i].path.value, r[i].message) in h + t {
      if i >= |head| {
        assert r[i] == rest[i - |head|];
      }
    }
    forall p | p in h + t ensures exists i :: 0 <= i < |r| && r[i] == Issue(Some(p.0), p.1) {
      if p in h {
        var i :| 0 <= i < |head| && head[i] == Issue(Some(p.0), p.1);
        assert r[i] == head[i];
      } else {
        var i :| 0 <= i < |rest| && rest[i] == Issue(Some(p.0), p.1);
        assert r[|head| + i] == rest[i];
      }
    }
  }


  /** The pairs of a field's failures, for zero, one or two failed rules. */
  lemma PairsOfParts(name: string, a: set<string>, b: set<string>, m: string)
    ensures PairsOf(name, {}) == {}
    ensures PairsOf(name, {m}) == {(name, m)}
    ensures PairsOf(name, a + b) == PairsOf(name, a) + PairsOf(name, b)
  {
  }

  /** The pairs a one-rule field fails with. */
  lemma OneRuleField(name: string, r1: Rule, value: string, isEmail: string -> bool)
    ensures PairsOf(name, FailedMessages([r1], value, isEmail))
      == (if RuleFails(r1, value, isEmail) then {(name, r1.message)} else {})
  {
    assert [r1][1..] == [];
    var a := if RuleFails(r1, value, isEmail) then {r1.message} else {};
    assert FailedMessages([r1], value, isEmail) == a + FailedMessages([], value, isEmail);
    assert FailedMessages([r1], value, isEmail) == a;
  }

  /** The pairs a two-rule field fails with: one per rejecting rule. */
  lemma TwoRuleField(name: string, r1: Rule, r2: Rule, value: string, isEmail: string -> bool)
    ensures PairsOf(name, FailedMessages([r1, r2], value, isEmail))
      == (if RuleFails(r1, value, isEmail) then {(name, r1.message)} else {})
       + (if RuleFails(r2, value, isEmail) then {(name, r2.message)} else {})
  {
    assert [r1, r2][1..] == [r2];
    var a := if RuleFails(r1, value, isEmail) then {r1.message} else {};
    var b := if RuleFails(r2, value, isEmail) then {r2.message} else {};
    OneRuleField(name, r2, value, isEmail);
    assert FailedMessages([r1, r2], value, isEmail) == a + FailedMessages([r2], value, isEmail);
    assert FailedMessages([r2], value, isEmail) == b by {
      assert [r2][1..] == [];
      assert FailedMessages([r2], value, isEmail) == b + FailedMessages([], value, isEmail);
    }
    PairsOfParts(name, a, b, r1.message);
    PairsOfParts(name, {}, {}, r2.message);
  }

  /** A four-field schema fails with the union of its fields' failures. */
  lemma FailuresOfFour(schema: Schema, values: map<string, string>, isEmail: string -> bool)
    requires |schema| == 4
    ensures Failures(schema, values, isEmail) ==
      FieldPairs(schema[0], values, isEmail) + FieldPairs(schema[1], values, isEmail)
      + FieldPairs(schema[2], values, isEmail) + FieldPairs(schema[3], values, isEmail)
  {
    var t1 := schema[1..];
    var t2 := t1[1..];
    var t3 := t2[1..];
    assert t3[1..] == [];
    assert Failures(t3, values, isEmail) == FieldPairs(schema[3], values, isEmail) + Failures([], values, isEmail);
    assert Failures(t2, values, isEmail) == FieldPairs(schema[2], values, isEmail) + Failures(t3, values, isEmail);
    assert Failures(t1, values, isEmail) == FieldPairs(schema[1], values, isEmail) + Failures(t2, values, isEmail);
    assert Failures(schema, values, isEmail) == FieldPairs(schema[0], values, isEmail) + Failures(t1, values, isEmail);
  }

  /** The issues one field raises, in rule order. */
  function FieldIssues(name: string, rules: seq<Rule>, value: string, isEmail: string -> bool): (r: seq<Issue>)
    ensures Reports(r, PairsOf(name, FailedMessages(rules, value, isEmail)))
    decreases |rules|
  {
    if rules == [] then []
    else
      var head := if RuleFails(rules[0], value, isEmail) then [Issue(Some(name), rules[0].message)] else [];
      var headMessages := if RuleFails(rules[0], value, isEmail) then {rules[0].message} else {};
      var rest := FieldIssues(name, rules[1..], value, isEmail);
      assert Reports(head, PairsOf(name, headMessages)) by {
        if RuleFails(rules[0], value, isEmail) {
          assert head[0] == Issue(Some(name), rules[0].message);
        }
      }
      ReportsAppend(head, rest, PairsOf(name, headMessages), PairsOf(name, FailedMessages(rules[1..], value, isEmail)));
      assert PairsOf(name, FailedMessages(rules, value, isEmail))
        == PairsOf(name, headMessages) + PairsOf(name, FailedMessages(rules[1..], value, isEmail));
      head + rest
  }

  /** The issues a schema raises, field by field in schema order. */
  function SchemaIssues(schema: Schema, values: map<string, string>, isEmail: string -> bool): (r: seq<Issue>)
    ensures Reports(r, Failures(schema, values, isEmail))
    decreases |schema|
  {
    if schema == [] then []
    else
      var f := schema[0];
      var head := FieldIssues(f.name, f.rules, Lookup(values, f.name), isEmail);
      var rest := SchemaIssues(schema[1..], values, isEmail);
      ReportsAppend(head, rest, PairsOf(f.name, FailedMessages(f.rules, Lookup(values, f.name), isEmail)),
        Failures(schema[1..], values, isEmail));
      head + rest
  }

  /** A reference evaluation of the library: rules in declared order, fields
      in schema order. It meets the library's contract on every record, so
      that contract can always be met. */
  function Validate(schema: Schema, values: map<string, string>, isEmail: string -> bool): (r: Outcome)
    ensures Conforms(schema, values, isEmail, r)
    ensures r.Passed? <==> Failures(schema, values, isEmail) == {}
    ensures !r.OtherError?
  {
    var inner := SchemaIssues(schema, values, isEmail);
    if inner == [] then Passed
    else
      assert (inner[0].path.value, inner[0].message) in Failures(schema, values, isEmail);
      Failed(inner)
  }
}
