/** Allowed-argument maps: for every argument name a rule in text form. A missing map is no
    limit at all; a name missing from a present map is rejected. */
module AllowedArgs {
  import opened Text
  import opened PortRules

  type Args = map<string, string>

  // ---- comma-separated rules ----

  /** A value a comma-separated rule can list. */
  predicate Clean(v: string) { v != "" && Trimmed(v) && ',' !in v }

  function Keep(parts: seq<string>): (r: seq<string>)
    requires forall i | 0 <= i < |parts| :: ',' !in parts[i]
    ensures forall v | v in r :: Clean(v)
  {
    if parts == [] then []
    else
      var init := Keep(parts[..|parts| - 1]);
      var part := TrimSpace(parts[|parts| - 1]);
      if part == "" then init else init + [part]
  }

  /** The values a comma-separated rule lists; a blank rule lists none. */
  function CsvValues(rule: string): (r: seq<string>)
    ensures forall v | v in r :: Clean(v)
  {
    Keep(Split(rule, ','))
  }

  lemma {:induction false} KeepMeaning(parts: seq<string>, v: string)
    requires forall i | 0 <= i < |parts| :: ',' !in parts[i]
    ensures v in Keep(parts) <==> v != "" && exists k | 0 <= k < |parts| :: v == TrimSpace(parts[k])
  {
    if parts != [] {
      var n := |parts| - 1;
      KeepMeaning(parts[..n], v);
      assert forall k | 0 <= k < n :: parts[..n][k] == parts[k];
    }
  }

  /** A rule lists a value iff the value is not blank and is one of its comma-separated items, trimmed. */
  lemma CsvMeaning(rule: string, parts: seq<string>, v: string)
    requires parts == Split(rule, ',')
    ensures v in CsvValues(rule) <==> v != "" && exists k | 0 <= k < |parts| :: v == TrimSpace(parts[k])
  {
    forall i | 0 <= i < |parts| ensures ',' !in parts[i] {
      assert parts[i] in parts;
    }
    KeepMeaning(parts, v);
  }

  method ReadCsv(rule: string) returns (out: seq<string>)
    ensures out == CsvValues(rule)
  {
    var parts := Split(rule, ',');
    out := [];
    for k := 0 to |parts|
      invariant out == Keep(parts[..k])
    {
      assert parts[..k + 1][..k] == parts[..k];
      var part := TrimSpace(parts[k]);
      if part != "" {
        out := out + [part];
      }
    }
    assert parts[..|parts|] == parts;
  }

  /** The values that are also in the other list, in their own order. */
  function Common(values: seq<string>, others: seq<string>): (r: seq<string>)
    ensures forall v :: v in r <==> v in values && v in others
  {
    if values == [] then []
    else
      var n := |values| - 1;
      assert values == values[..n] + [values[n]];
      var init := Common(values[..n], others);
      if values[n] in others then init + [values[n]] else init
  }

  method IntersectCsvValues(left: string, right: string) returns (out: seq<string>)
    ensures out == Common(CsvValues(left), CsvValues(right))
    ensures forall v :: v in out <==> v in CsvValues(left) && v in CsvValues(right)
  {
    var leftValues := ReadCsv(left);
    var rightValues := ReadCsv(right);
    var seen: set<string> := {};
    for k := 0 to |rightValues|
      invariant seen == set v | v in rightValues[..k]
    {
      seen := seen + {rightValues[k]};
      assert rightValues[..k + 1] == rightValues[..k] + [rightValues[k]];
    }
    assert rightValues[..|rightValues|] == rightValues;
    out := [];
    for k := 0 to |leftValues|
      invariant out == Common(leftValues[..k], rightValues)
    {
      assert leftValues[..k + 1][..k] == leftValues[..k];
      if leftValues[k] in seen {
        out := out + [leftValues[k]];
      }
    }
    assert leftValues[..|leftValues|] == leftValues;
  }

  method AllowedArgContains(rule: string, value: string) returns (found: bool)
    ensures found <==> value in CsvValues(rule)
  {
    var values := ReadCsv(rule);
    for k := 0 to |values|
      invariant value !in values[..k]
    {
      if values[k] == value {
        return true;
      }
    }
    return false;
  }

  lemma {:induction false} KeepClean(values: seq<string>)
    requires forall i | 0 <= i < |values| :: ',' !in values[i] && Clean(values[i])
    ensures Keep(values) == values
  {
    if values != [] {
      var n := |values| - 1;
      KeepClean(values[..n]);
      assert values == values[..n] + [values[n]];
    }
  }

  /** Joining clean values and reading the rule back gives the same values. */
  lemma CsvJoin(values: seq<string>)
    requires values != [] && forall v | v in values :: Clean(v)
    ensures CsvValues(Join(values, ',')) == values
    ensures Join(values, ',') != ""
  {
    SplitJoin(values, ',');
    forall i | 0 <= i < |values| ensures Clean(values[i]) {
      assert values[i] in values;
    }
    KeepClean(values);
  }

  // ---- what a map of rules accepts ----

  predicate RuleAccepts(key: string, rule: string, value: string) {
    if key == "port" then PortValueAllowed(rule, value) else value in CsvValues(rule)
  }

  /** What a present map accepts. */
  predicate ArgsAccept(args: Args, key: string, value: string) {
    key in args && RuleAccepts(key, args[key], value)
  }

  /** What an optional map accepts: without a map every argument passes. */
  predicate LimitAccepts(limit: Option<Args>, key: string, value: string) {
    limit.Some? ==> ArgsAccept(limit.value, key, value)
  }

  /** No rule but a port rule is the empty text, which the request check reads as "any value". */
  predicate NoEmptyRule(args: Args) {
    forall key | key in args :: key == "port" || args[key] != ""
  }

  /** Intersecting one entry: there is a rule exactly when some value satisfies both. */
  method IntersectRule(key: string, base: string, limit: string) returns (rule: string, ok: bool)
    ensures ok ==> forall v :: RuleAccepts(key, rule, v) <==> RuleAccepts(key, base, v) && RuleAccepts(key, limit, v)
    ensures !ok ==> forall v :: !(RuleAccepts(key, base, v) && RuleAccepts(key, limit, v))
    ensures ok && key != "port" ==> rule != ""
  {
    if key == "port" {
      rule, ok := IntersectPortRules(base, limit);
      PortRuleMeaning(base, limit, rule, ok);
    } else {
      var values := IntersectCsvValues(base, limit);
      rule, ok := "", |values| > 0;
      if ok {
        CsvJoin(values);
        rule := Join(values, ',');
      }
      CsvRuleMeaning(key, base, limit, rule, values);
    }
  }

  lemma PortRuleMeaning(base: string, limit: string, rule: string, ok: bool)
    requires ok <==> exists port :: PortAllowed(base, port) && PortAllowed(limit, port)
    requires ok ==> forall port :: PortAllowed(rule, port) <==> PortAllowed(base, port) && PortAllowed(limit, port)
    ensures ok ==> forall v :: RuleAccepts("port", rule, v) <==> RuleAccepts("port", base, v) && RuleAccepts("port", limit, v)
    ensures !ok ==> forall v :: !(RuleAccepts("port", base, v) && RuleAccepts("port", limit, v))
  {
  }

  lemma CsvRuleMeaning(key: string, base: string, limit: string, rule: string, values: seq<string>)
    requires key != "port"
    requires forall v :: v in values <==> v in CsvValues(base) && v in CsvValues(limit)
    requires values != [] ==> CsvValues(rule) == values
    ensures values != [] ==> forall v :: RuleAccepts(key, rule, v) <==> RuleAccepts(key, base, v) && RuleAccepts(key, limit, v)
    ensures values == [] ==> forall v :: !(RuleAccepts(key, base, v) && RuleAccepts(key, limit, v))
  {
  }

  /** Intersecting two maps as text intersects what they accept, argument by argument. */
  method IntersectAllowedArgs(base: Option<Args>, limit: Option<Args>) returns (out: Option<Args>)
    ensures out.None? <==> base.None? && limit.None?
    ensures forall key, v :: LimitAccepts(out, key, v) <==> LimitAccepts(base, key, v) && LimitAccepts(limit, key, v)
    ensures base.Some? && limit.Some? ==> NoEmptyRule(out.value)
    ensures limit.None? ==> out == base
    ensures base.None? ==> out == limit
  {
    if base.None? {
      return limit;
    }
    if limit.None? {
      return base;
    }
    var merged := IntersectMaps(base.value, limit.value);
    return Some(merged);
  }

  method IntersectMaps(base: Args, limit: Args) returns (out: Args)
    ensures forall key, v :: ArgsAccept(out, key, v) <==> ArgsAccept(base, key, v) && ArgsAccept(limit, key, v)
    ensures NoEmptyRule(out)
  {
    out := map[];
    var todo := base.Keys;
    while todo != {}
      invariant todo <= base.Keys && out.Keys <= base.Keys - todo
      invariant NoEmptyRule(out)
      invariant forall key, v | key !in todo ::
          ArgsAccept(out, key, v) <==> ArgsAccept(base, key, v) && ArgsAccept(limit, key, v)
      decreases |todo|
    {
      var key :| key in todo;
      todo := todo - {key};
      if key in limit {
        var rule, ok := IntersectRule(key, base[key], limit[key]);
        if ok {
          out := out[key := rule];
        }
      }
    }
  }
}
