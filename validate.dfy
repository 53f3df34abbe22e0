/**
 * The editor's flattening of class-validator errors into a list of issues:
 * each node's constraints are rewritten through a fixed table of friendlier
 * messages (two of which stop at themselves), constraints the table does not
 * know keep their own message, and the children follow their parent under a
 * dotted path. Running the validator itself is not part of this model: its
 * error tree is the input.
 */
module Validate {
  import opened Wrappers
  import opened Js

  /** One failed constraint of a property: its name and the validator's message. */
  datatype Constraint = Constraint(key: string, message: string)

  /** A node of the validator's error tree. */
  datatype ValidationError = ValidationError(
    property: string,
    constraints: Option<seq<Constraint>>,
    children: Children)

  /** A node's optional `children`, as its own type so that each child is smaller than its parent. */
  datatype Children = NoChildren | Children(errors: seq<ValidationError>)

  datatype ValidationIssue = ValidationIssue(target: string, issue: string)

  /** An entry of the message table. */
  datatype Transformation = Transformation(key: string, message: string -> string, stop: bool)

  // ---------------------------------------------------------------------------
  // parseContains: `message.match(/must contain a (.*) string$/)?.[1] ?? ''`

  const ContainsPrefix: string := "must contain a "
  const ContainsSuffix: string := " string"

  /**
   * The pattern matches from position `p`: the prefix is there, the message
   * ends with the suffix after it, and the text between holds no line
   * terminator (which `.` does not match).
   */
  predicate ContainsMatchAt(message: string, p: nat) {
    && p + |ContainsPrefix| + |ContainsSuffix| <= |message|
    && message[p..p + |ContainsPrefix|] == ContainsPrefix
    && message[|message| - |ContainsSuffix|..] == ContainsSuffix
    && forall k :: p + |ContainsPrefix| <= k < |message| - |ContainsSuffix| ==> !IsLineTerminator(message[k])
  }

  /** The leftmost position from `p` on where the pattern matches. */
  function FirstContainsMatch(message: string, p: nat): (r: Option<nat>)
    ensures r.Some? ==> p <= r.value && ContainsMatchAt(message, r.value)
    ensures r.Some? ==> forall q :: p <= q < r.value ==> !ContainsMatchAt(message, q)
    ensures r.None? ==> forall q :: p <= q ==> !ContainsMatchAt(message, q)
    decreases |message| - p
  {
    if p + |ContainsPrefix| + |ContainsSuffix| > |message| then None
    else if ContainsMatchAt(message, p) then Some(p)
    else FirstContainsMatch(message, p + 1)
  }

  /** `parseContains`: the text the leftmost match captures, or '' when nothing matches. */
  function ParseContains(message: string): string {
    match FirstContainsMatch(message, 0)
    case None => ""
    case Some(p) => message[p + |ContainsPrefix|..|message| - |ContainsSuffix|]
  }

  /** The validator's message for a required substring gives that substring back. */
  lemma ParseContainsReadsBack(x: string)
    requires forall k :: 0 <= k < |x| ==> !IsLineTerminator(x[k])
    ensures ParseContains(ContainsPrefix + x + ContainsSuffix) == x
  {
    var m := ContainsPrefix + x + ContainsSuffix;
    assert m[0..|ContainsPrefix|] == ContainsPrefix;
    assert m[|m| - |ContainsSuffix|..] == ContainsSuffix;
    assert forall k :: |ContainsPrefix| <= k < |m| - |ContainsSuffix| ==> m[k] == x[k - |ContainsPrefix|];
    assert ContainsMatchAt(m, 0);
    assert m[|ContainsPrefix|..|m| - |ContainsSuffix|] == x;
  }

  /** A message that does not end with " string" gives ''. */
  lemma ParseContainsNoSuffix(message: string)
    requires |message| < |ContainsSuffix| || message[|message| - |ContainsSuffix|..] != ContainsSuffix
    ensures ParseContains(message) == ""
  {
  }

  // ---------------------------------------------------------------------------
  // The message table

  const Transformations: seq<Transformation> := [
    Transformation("whitelistValidation", _ => "is unexpected", true),
    Transformation("isNotEmpty", _ => "requires a value", true),
    Transformation("isString", _ => "must be a string", false),
    Transformation("isBoolean", _ => "must be a bool", false),
    Transformation("isInt", _ => "must be an int", false),
    Transformation("IsPositive", _ => "must be a positive number", false),
    Transformation("contains", original => "must contain '" + ParseContains(original) + "'", false)
  ]

  /** `Object.keys(constraints)`. */
  function Keys(constraints: seq<Constraint>): (r: seq<string>)
    ensures |r| == |constraints| && forall i :: 0 <= i < |r| ==> r[i] == constraints[i].key
  {
    seq(|constraints|, i requires 0 <= i < |constraints| => constraints[i].key)
  }

  /** `constraints[key]`: the message of the constraint with that key. */
  function MessageOf(constraints: seq<Constraint>, key: string): string {
    if constraints == [] then ""
    else if constraints[0].key == key then constraints[0].message
    else MessageOf(constraints[1..], key)
  }

  /** `indexOf`: the first position of `x`, or -1. */
  function IndexOf(keys: seq<string>, x: string): (r: int)
    ensures -1 <= r < |keys|
    ensures r == -1 <==> x !in keys
    ensures r >= 0 ==> keys[r] == x && forall j :: 0 <= j < r ==> keys[j] != x
  {
    if keys == [] then -1
    else if keys[0] == x then 0
    else
      var r := IndexOf(keys[1..], x);
      if r == -1 then -1 else r + 1
  }

  /** `splice(indexOf(x), 1)` for a present `x`. */
  function RemoveAt(keys: seq<string>, i: nat): (r: seq<string>)
    requires i < |keys|
    ensures |r| == |keys| - 1
    ensures forall y :: y in r ==> y in keys
    ensures forall y :: y in keys && y != keys[i] ==> y in r
  {
    var r := keys[..i] + keys[i + 1..];
    assert forall y :: y in keys && y != keys[i] ==> y in r by {
      forall y | y in keys && y != keys[i] ensures y in r {
        var j :| 0 <= j < |keys| && keys[j] == y;
        if j < i { assert r[j] == y; } else { assert r[j - 1] == y; }
      }
    }
    r
  }

  /** Where the pass over the table ends: the issues so far, the keys left, whether it stopped. */
  datatype Outcome = Outcome(issues: seq<ValidationIssue>, remaining: seq<string>, stopped: bool)

  /** The pass over (the rest of) the table with the keys not yet used. */
  function ApplyTable(table: seq<Transformation>, keys: seq<string>, constraints: seq<Constraint>, target: string): Outcome
    decreases |table|
  {
    if table == [] then Outcome([], keys, false)
    else
      var t := table[0];
      var found := IndexOf(keys, t.key);
      if found < 0 then ApplyTable(table[1..], keys, constraints, target)
      else
        var issue := ValidationIssue(target, t.message(MessageOf(constraints, t.key)));
        var rest := RemoveAt(keys, found);
        if t.stop then Outcome([issue], rest, true)
        else
          var o := ApplyTable(table[1..], rest, constraints, target);
          Outcome([issue] + o.issues, o.remaining, o.stopped)
  }

  /** One entry of the pass: skipped when its key is gone, else its issue and then a stop or the rest. */
  lemma ApplyTableStep(table: seq<Transformation>, keys: seq<string>, constraints: seq<Constraint>, target: string)
    requires table != []
    ensures var t := table[0];
      var found := IndexOf(keys, t.key);
      var issue := ValidationIssue(target, t.message(MessageOf(constraints, t.key)));
      && (found < 0 ==> ApplyTable(table, keys, constraints, target) == ApplyTable(table[1..], keys, constraints, target))
      && (found >= 0 && t.stop ==>
            ApplyTable(table, keys, constraints, target) == Outcome([issue], RemoveAt(keys, found), true))
      && (found >= 0 && !t.stop ==>
            var o := ApplyTable(table[1..], RemoveAt(keys, found), constraints, target);
            ApplyTable(table, keys, constraints, target) == Outcome([issue] + o.issues, o.remaining, o.stopped))
  {
  }

  function RawIssues(keys: seq<string>, constraints: seq<Constraint>, target: string): (r: seq<ValidationIssue>)
    ensures |r| == |keys| && forall i :: 0 <= i < |keys| ==> r[i] == ValidationIssue(target, MessageOf(constraints, keys[i]))
  {
    seq(|keys|, i requires 0 <= i < |keys| => ValidationIssue(target, MessageOf(constraints, keys[i])))
  }

  lemma RawIssuesSnoc(keys: seq<string>, i: nat, constraints: seq<Constraint>, target: string)
    requires i < |keys|
    ensures RawIssues(keys[..i + 1], constraints, target) == RawIssues(keys[..i], constraints, target) + [ValidationIssue(target, MessageOf(constraints, keys[i]))]
  {
    assert keys[..i + 1][..i] == keys[..i];
  }

  /** What `buildIssuesFromConstraints` returns. */
  function BuildIssues(target: string, constraints: Option<seq<Constraint>>): seq<ValidationIssue> {
    match constraints
    case None => []
    case Some(c) =>
      var o := ApplyTable(Transformations, Keys(c), c, target);
      if o.stopped then o.issues else o.issues + RawIssues(o.remaining, c, target)
  }

  /** Every issue of one pass is about the same target. */
  lemma {:induction false} ApplyTableTargets(table: seq<Transformation>, keys: seq<string>, constraints: seq<Constraint>, target: string)
    ensures forall i :: 0 <= i < |ApplyTable(table, keys, constraints, target).issues| ==>
              ApplyTable(table, keys, constraints, target).issues[i].target == target
    decreases |table|
  {
    if table != [] {
      var found := IndexOf(keys, table[0].key);
      if found < 0 {
        ApplyTableTargets(table[1..], keys, constraints, target);
      } else if !table[0].stop {
        ApplyTableTargets(table[1..], RemoveAt(keys, found), constraints, target);
      }
    }
  }

  /**
   * Without a stopping key, the pass does not stop and each key yields one
   * issue: the table entries used up one key each.
   */
  lemma {:induction false} ApplyTableCount(table: seq<Transformation>, keys: seq<string>, constraints: seq<Constraint>, target: string)
    requires forall i :: 0 <= i < |table| && table[i].stop ==> table[i].key !in keys
    ensures var o := ApplyTable(table, keys, constraints, target);
      !o.stopped && |o.issues| + |o.remaining| == |keys|
    decreases |table|
  {
    if table != [] {
      var found := IndexOf(keys, table[0].key);
      var keys' := if found < 0 then keys else RemoveAt(keys, found);
      assert forall i :: 0 <= i < |table[1..]| && table[1..][i].stop ==> table[1..][i].key !in keys' by {
        forall i | 0 <= i < |table[1..]| && table[1..][i].stop ensures table[1..][i].key !in keys' {
          assert table[1..][i] == table[i + 1];
        }
      }
      ApplyTableCount(table[1..], keys', constraints, target);
    }
  }

  /** The keys no entry of the table names are all left over. */
  lemma {:induction false} ApplyTableLeftover(table: seq<Transformation>, keys: seq<string>, constraints: seq<Constraint>, target: string, k: string)
    requires forall i :: 0 <= i < |table| && table[i].stop ==> table[i].key !in keys
    requires k in keys && forall i :: 0 <= i < |table| ==> table[i].key != k
    ensures k in ApplyTable(table, keys, constraints, target).remaining
    decreases |table|
  {
    if table != [] {
      var found := IndexOf(keys, table[0].key);
      var keys' := if found < 0 then keys else RemoveAt(keys, found);
      assert k in keys';
      assert forall i :: 0 <= i < |table[1..]| && table[1..][i].stop ==> table[1..][i].key !in keys' by {
        forall i | 0 <= i < |table[1..]| && table[1..][i].stop ensures table[1..][i].key !in keys' {
          assert table[1..][i] == table[i + 1];
        }
      }
      assert forall i :: 0 <= i < |table[1..]| ==> table[1..][i].key != k by {
        forall i | 0 <= i < |table[1..]| ensures table[1..][i].key != k {
          assert table[1..][i] == table[i + 1];
        }
      }
      ApplyTableLeftover(table[1..], keys', constraints, target, k);
    }
  }

  /** The keys that stop the pass. */
  predicate HasStopKey(constraints: seq<Constraint>) {
    "whitelistValidation" in Keys(constraints) || "isNotEmpty" in Keys(constraints)
  }

  /** An unexpected property is reported alone, whatever else failed. */
  lemma BuildIssuesUnexpected(target: string, constraints: seq<Constraint>)
    requires "whitelistValidation" in Keys(constraints)
    ensures BuildIssues(target, Some(constraints)) == [ValidationIssue(target, "is unexpected")]
  {
    var t := Transformations[0];
    assert t.key == "whitelistValidation" && t.stop;
    assert IndexOf(Keys(constraints), t.key) >= 0;
  }

  /** Otherwise a missing value is reported alone. */
  lemma BuildIssuesRequired(target: string, constraints: seq<Constraint>)
    requires "whitelistValidation" !in Keys(constraints) && "isNotEmpty" in Keys(constraints)
    ensures BuildIssues(target, Some(constraints)) == [ValidationIssue(target, "requires a value")]
  {
    var keys := Keys(constraints);
    assert IndexOf(keys, Transformations[0].key) == -1;
    var t := Transformations[1];
    assert t.key == "isNotEmpty" && t.stop;
    assert Transformations[1..][0] == t;
    assert IndexOf(keys, t.key) >= 0;
    assert ApplyTable(Transformations, keys, constraints, target) == ApplyTable(Transformations[1..], keys, constraints, target);
  }

  /** Only the first two entries of the table stop the pass. */
  lemma StoppingEntries()
    ensures forall i :: 0 <= i < |Transformations| && Transformations[i].stop ==>
              Transformations[i].key == "whitelistValidation" || Transformations[i].key == "isNotEmpty"
  {
  }

  lemma NotInTable(k: string)
    requires k !in TableKeys()
    ensures forall i :: 0 <= i < |Transformations| ==> Transformations[i].key != k
  {
    forall i | 0 <= i < |Transformations| ensures Transformations[i].key != k {
      assert TableKeys()[i] == Transformations[i].key;
    }
  }

  /** A key no entry of the table names comes out with its own message. */
  lemma {:induction false} LeftoverReported(table: seq<Transformation>, keys: seq<string>, constraints: seq<Constraint>, target: string, k: string)
    requires forall i :: 0 <= i < |table| && table[i].stop ==> table[i].key !in keys
    requires k in keys && forall i :: 0 <= i < |table| ==> table[i].key != k
    ensures var o := ApplyTable(table, keys, constraints, target);
      ValidationIssue(target, MessageOf(constraints, k)) in o.issues + RawIssues(o.remaining, constraints, target)
  {
    var o := ApplyTable(table, keys, constraints, target);
    ApplyTableLeftover(table, keys, constraints, target, k);
    var raw := RawIssues(o.remaining, constraints, target);
    var p :| 0 <= p < |o.remaining| && o.remaining[p] == k;
    assert (o.issues + raw)[|o.issues| + p] == raw[p];
  }

  /**
   * Without a stopping key every constraint gives exactly one issue, and a
   * constraint the table does not know keeps its own message.
   */
  lemma BuildIssuesEach(target: string, constraints: seq<Constraint>)
    requires !HasStopKey(constraints)
    ensures var r := BuildIssues(target, Some(constraints));
      && |r| == |constraints|
      && forall c :: c in constraints && c.key !in TableKeys() ==> ValidationIssue(target, MessageOf(constraints, c.key)) in r
  {
    var keys := Keys(constraints);
    StoppingEntries();
    ApplyTableCount(Transformations, keys, constraints, target);
    forall c | c in constraints && c.key !in TableKeys()
      ensures ValidationIssue(target, MessageOf(constraints, c.key)) in BuildIssues(target, Some(constraints))
    {
      var j :| 0 <= j < |constraints| && constraints[j] == c;
      assert keys[j] == c.key;
      NotInTable(c.key);
      LeftoverReported(Transformations, keys, constraints, target, c.key);
    }
  }

  /** All issues of a node are about its own path. */
  lemma BuildIssuesTargets(target: string, constraints: Option<seq<Constraint>>)
    ensures forall i :: 0 <= i < |BuildIssues(target, constraints)| ==> BuildIssues(target, constraints)[i].target == target
  {
    if constraints.Some? {
      ApplyTableTargets(Transformations, Keys(constraints.value), constraints.value, target);
    }
  }

  function TableKeys(): seq<string> {
    seq(|Transformations|, i requires 0 <= i < |Transformations| => Transformations[i].key)
  }

  /** Where the walk stands: the issues so far followed by the pass over the rest of the table. */
  function WalkState(table: seq<Transformation>, index: nat, keys: seq<string>, issues: seq<ValidationIssue>,
                     c: seq<Constraint>, target: string): Outcome
    requires index <= |table|
  {
    var o := ApplyTable(table[index..], keys, c, target);
    Outcome(issues + o.issues, o.remaining, o.stopped)
  }

  /** One step of the walk keeps its state: a skipped entry, a stopping entry, or an entry that goes on. */
  lemma WalkStep(table: seq<Transformation>, index: nat, keys: seq<string>, issues: seq<ValidationIssue>,
                 c: seq<Constraint>, target: string)
    requires index < |table|
    ensures var t := table[index];
      var found := IndexOf(keys, t.key);
      var issue := ValidationIssue(target, t.message(MessageOf(c, t.key)));
      var before := WalkState(table, index, keys, issues, c, target);
      && (found < 0 ==> before == WalkState(table, index + 1, keys, issues, c, target))
      && (found >= 0 && t.stop ==> before == Outcome(issues + [issue], RemoveAt(keys, found), true))
      && (found >= 0 && !t.stop ==> before == WalkState(table, index + 1, RemoveAt(keys, found), issues + [issue], c, target))
  {
    var t := table[index];
    assert table[index..][0] == t;
    assert table[index..][1..] == table[index + 1..];
    ApplyTableStep(table[index..], keys, c, target);
    var found := IndexOf(keys, t.key);
    if found >= 0 && !t.stop {
      var issue := ValidationIssue(target, t.message(MessageOf(c, t.key)));
      var next := ApplyTable(table[index + 1..], RemoveAt(keys, found), c, target);
      assert issues + ([issue] + next.issues) == (issues + [issue]) + next.issues;
    }
  }

  /**
   * The walk over a message table: each entry whose key is still among the
   * constraint keys adds its message and takes the key out, and a stopping
   * entry ends the walk at once.
   */
  method WalkTable(table: seq<Transformation>, c: seq<Constraint>, target: string)
    returns (issues: seq<ValidationIssue>, constraintKeys: seq<string>, stopped: bool)
    ensures Outcome(issues, constraintKeys, stopped) == ApplyTable(table, Keys(c), c, target)
  {
    issues := [];
    constraintKeys := Keys(c);
    stopped := false;
    var index := 0;
    assert table[0..] == table;
    while index < |table|
      invariant 0 <= index <= |table|
      invariant ApplyTable(table, Keys(c), c, target) == WalkState(table, index, constraintKeys, issues, c, target)
    {
      var transform := table[index];
      WalkStep(table, index, constraintKeys, issues, c, target);
      var found := IndexOf(constraintKeys, transform.key);
      if found < 0 {
        index := index + 1;
        continue;
      }
      issues := issues + [ValidationIssue(target, transform.message(MessageOf(c, transform.key)))];
      constraintKeys := RemoveAt(constraintKeys, found);
      if transform.stop {
        return issues, constraintKeys, true;
      }
      index := index + 1;
    }
    assert table[index..] == [];
  }

  /**
   * `buildIssuesFromConstraints`: the walk over the message table, then,
   * unless it stopped, the keys left over with their own messages.
   */
  method BuildIssuesFromConstraints(target: string, constraints: Option<seq<Constraint>>) returns (issues: seq<ValidationIssue>)
    ensures issues == BuildIssues(target, constraints)
    ensures constraints.None? ==> issues == []
  {
    if constraints.None? {
      return [];
    }
    var c := constraints.value;
    var constraintKeys, stopped;
    issues, constraintKeys, stopped := WalkTable(Transformations, c, target);
    if stopped {
      return;
    }
    ghost var before := issues;
    for i := 0 to |constraintKeys|
      invariant issues == before + RawIssues(constraintKeys[..i], c, target)
    {
      RawIssuesSnoc(constraintKeys, i, c, target);
      issues := issues + [ValidationIssue(target, MessageOf(c, constraintKeys[i]))];
    }
    assert constraintKeys[..|constraintKeys|] == constraintKeys;
  }

  // ---------------------------------------------------------------------------
  // transformValidationErrorsToIssues

  /** `parent ? `${parent}.${property}` : property`. */
  function Target(parent: Option<string>, property: string): string {
    if parent.Some? && parent.value != "" then parent.value + "." + property else property
  }

  /** The issues of one node: its own, then its children's under its path. */
  function FlattenOne(e: ValidationError, parent: Option<string>): seq<ValidationIssue>
    decreases e
  {
    var key := Target(parent, e.property);
    var below := match e.children
      case NoChildren => []
      case Children(children) => Flatten(children, Some(key));
    BuildIssues(key, e.constraints) + below
  }

  /** `errors.flatMap(...)`: the issues of each node in turn. */
  function Flatten(errors: seq<ValidationError>, parent: Option<string>): seq<ValidationIssue>
    decreases errors
  {
    if errors == [] then [] else FlattenOne(errors[0], parent) + Flatten(errors[1..], parent)
  }

  /**
   * `transformValidationErrorsToIssues`: no errors give no issues, and every
   * issue found under a parent path lies inside that path.
   */
  function TransformValidationErrorsToIssues(errors: Option<seq<ValidationError>>, parent: Option<string>): (r: seq<ValidationIssue>)
    ensures errors.None? ==> r == []
    ensures parent.Some? ==> forall i :: 0 <= i < |r| ==> IsPrefix(parent.value, r[i].target)
  {
    match errors
    case None => []
    case Some(es) =>
      if parent.Some? then FlattenTargets(es, parent.value); Flatten(es, parent)
      else Flatten(es, parent)
  }

  /** The issues of two runs of errors are those of the first, then those of the second. */
  lemma {:induction false} FlattenAppend(a: seq<ValidationError>, b: seq<ValidationError>, parent: Option<string>)
    ensures Flatten(a + b, parent) == Flatten(a, parent) + Flatten(b, parent)
    decreases a
  {
    if a != [] {
      var one := FlattenOne(a[0], parent);
      assert (a + b)[0] == a[0] && (a + b)[1..] == a[1..] + b;
      assert Flatten(a + b, parent) == one + Flatten(a[1..] + b, parent);
      FlattenAppend(a[1..], b, parent);
      assert Flatten(a, parent) == one + Flatten(a[1..], parent);
    } else {
      assert a + b == b;
    }
  }

  predicate IsPrefix(p: string, s: string) {
    |p| <= |s| && s[..|p|] == p
  }

  /** Every issue under a parent has a target inside the parent's path. */
  lemma {:induction false} FlattenOneTargets(e: ValidationError, parent: string)
    ensures forall i :: 0 <= i < |FlattenOne(e, Some(parent))| ==> IsPrefix(parent, FlattenOne(e, Some(parent))[i].target)
    decreases e
  {
    var key := Target(Some(parent), e.property);
    assert IsPrefix(parent, key) by {
      if parent != "" { assert key[..|parent|] == parent; }
    }
    var own := BuildIssues(key, e.constraints);
    assert forall i :: 0 <= i < |own| ==> own[i].target == key by {
      BuildIssuesTargets(key, e.constraints);
    }
    if e.children.Children? {
      FlattenTargets(e.children.errors, key);
      var below := Flatten(e.children.errors, Some(key));
      forall i | 0 <= i < |below| ensures IsPrefix(parent, below[i].target) {
        var t := below[i].target;
        assert t[..|key|] == key;
        assert t[..|parent|] == key[..|parent|];
      }
    }
  }

  lemma {:induction false} FlattenTargets(errors: seq<ValidationError>, parent: string)
    ensures forall i :: 0 <= i < |Flatten(errors, Some(parent))| ==> IsPrefix(parent, Flatten(errors, Some(parent))[i].target)
    decreases errors
  {
    if errors != [] {
      FlattenOneTargets(errors[0], parent);
      FlattenTargets(errors[1..], parent);
    }
  }
}
