/**
 * `PromptManager.get_prepared_prompt`: look a template up by name, lay the caller's variables
 * over the two defaults (the schema JSON and the document type's rules), then replace every
 * `{{key}}` by its value, one variable after the other in the merged dict's order.
 */
module Prompts {
  import opened JsonValue
  import opened Text

  /** The `ValueError` raised for a missing or empty template. */
  datatype PromptError = PromptNotFound(name: string)

  /** The exception text the endpoint puts in its 400 reply. */
  function Detail(e: PromptError): string
  {
    "Prompt '" + e.name + "' not found."
  }

  /** `f"{{{{{key}}}}}"`: the key between double braces. */
  function Placeholder(key: string): (r: string)
    ensures |r| == |key| + 4 && r[..2] == "{{" && r[2..|r| - 2] == key && r[|r| - 2..] == "}}"
  {
    "{{" + key + "}}"
  }

  /** `{**base, **over}`: entries of `over` overwrite in place, new keys are appended in order. */
  function Overlay(base: seq<(string, string)>, over: seq<(string, string)>): seq<(string, string)>
    decreases |over|
  {
    if over == [] then base else Overlay(Put(base, over[0].0, over[0].1), over[1..])
  }

  /** The merged dict holds the keys of both, and a key of `over` shadows the same key of `base`. */
  lemma {:induction false} OverlayLookup(base: seq<(string, string)>, over: seq<(string, string)>, k: string)
    requires UniqueKeys(over)
    ensures Get(Overlay(base, over), k) == if k in KeySet(over) then Get(over, k) else Get(base, k)
    ensures KeySet(Overlay(base, over)) == KeySet(base) + KeySet(over)
    decreases |over|
  {
    if over != [] {
      var tail := over[1..];
      assert UniqueKeys(tail);
      assert over[0].0 !in KeySet(tail);
      assert forall x :: x in KeySet(over) <==> x == over[0].0 || x in KeySet(tail);
      PutSpec(base, over[0].0, over[0].1);
      OverlayLookup(Put(base, over[0].0, over[0].1), tail, k);
      if k !in KeySet(tail) && k != over[0].0 {
        assert k !in KeySet(over);
      } else if k in KeySet(tail) {
        assert k != over[0].0;
        assert Get(over, k) == Get(tail, k);
      }
    }
  }

  /** The merged dict starts with `base`'s keys in `base`'s order. */
  lemma {:induction false} OverlayKeepsOrder(base: seq<(string, string)>, over: seq<(string, string)>)
    ensures |Overlay(base, over)| >= |base|
    ensures forall i :: 0 <= i < |base| ==> Overlay(base, over)[i].0 == base[i].0
    decreases |over|
  {
    if over != [] {
      var next := Put(base, over[0].0, over[0].1);
      PutKeepsPositions(base, over[0].0, over[0].1);
      OverlayKeepsOrder(next, over[1..]);
    }
  }

  lemma {:induction false} PutKeepsPositions<V>(o: seq<(string, V)>, k: string, v: V)
    ensures |Put(o, k, v)| >= |o|
    ensures forall i :: 0 <= i < |o| ==> Put(o, k, v)[i].0 == o[i].0
  {
    if o != [] && o[0].0 != k {
      PutKeepsPositions(o[1..], k, v);
      assert Put(o, k, v) == [o[0]] + Put(o[1..], k, v);
    }
  }

  /** The variables of a prompt: the two defaults first, the caller's laid over them. */
  function AllVars(schema: string, rules: string, variables: seq<(string, string)>): seq<(string, string)>
  {
    Overlay([("pydantic_schema_json", schema), ("schema_specific_rules", rules)], variables)
  }

  /** The substitution loop: each variable's placeholder replaced in turn, in order. */
  function Substitute(t: string, vars: seq<(string, string)>): string
    decreases |vars|
  {
    if vars == [] then t
    else Substitute(ReplaceAll(t, Placeholder(vars[0].0), vars[0].1), vars[1..])
  }

  /** A template that contains none of the placeholders comes back unchanged. */
  lemma {:induction false} SubstituteAbsent(t: string, vars: seq<(string, string)>)
    requires forall i :: 0 <= i < |vars| ==> !IsSubstring(Placeholder(vars[i].0), t)
    ensures Substitute(t, vars) == t
    decreases |vars|
  {
    if vars != [] {
      ReplaceAbsent(t, Placeholder(vars[0].0), vars[0].1);
      SubstituteAbsent(t, vars[1..]);
    }
  }

  /** A template without `{{` contains no placeholder, so substitution leaves it as it is. */
  lemma NoBracesUnchanged(t: string, vars: seq<(string, string)>)
    requires !IsSubstring("{{", t)
    ensures Substitute(t, vars) == t
  {
    forall i | 0 <= i < |vars| ensures !IsSubstring(Placeholder(vars[i].0), t) {
      var k := vars[i].0;
      assert Placeholder(k) == "{{" + (k + "}}");
      if IsSubstring(Placeholder(k), t) {
        SubstringOfPrefix("{{", k + "}}", t);
      }
    }
    SubstituteAbsent(t, vars);
  }

  /**
   * A template that is exactly the placeholder of variable `j` becomes that variable's value,
   * provided no earlier variable's placeholder occurs in the template and no later variable's
   * placeholder occurs in the value.
   */
  lemma SubstituteOne(vars: seq<(string, string)>, j: nat)
    requires j < |vars|
    requires forall i :: 0 <= i < j ==> !IsSubstring(Placeholder(vars[i].0), Placeholder(vars[j].0))
    requires forall i :: j < i < |vars| ==> !IsSubstring(Placeholder(vars[i].0), vars[j].1)
    ensures Substitute(Placeholder(vars[j].0), vars) == vars[j].1
  {
    SubstituteStep(Placeholder(vars[j].0), vars, j);
    ReplaceWhole(Placeholder(vars[j].0), vars[j].1);
    SubstituteAbsent(vars[j].1, vars[j + 1..]);
  }

  /** Substituting variables that do not occur skips straight to variable `j`. */
  lemma {:induction false} SubstituteStep(t: string, vars: seq<(string, string)>, j: nat)
    requires j < |vars|
    requires forall i :: 0 <= i < j ==> !IsSubstring(Placeholder(vars[i].0), t)
    ensures Substitute(t, vars) == Substitute(ReplaceAll(t, Placeholder(vars[j].0), vars[j].1), vars[j + 1..])
    decreases j
  {
    if j > 0 {
      ReplaceAbsent(t, Placeholder(vars[0].0), vars[0].1);
      SubstituteStep(t, vars[1..], j - 1);
      assert vars[1..][j - 1 + 1..] == vars[j + 1..];
    }
  }

  /** `prompts.get(name)` with a missing entry read as the empty string. */
  function Lookup(prompts: map<string, string>, name: string): string
  {
    if name in prompts then prompts[name] else ""
  }

  /**
   * `get_prepared_prompt(name, model, variables, doc_type)`, where `schema` is the model's JSON
   * schema as `json.dumps` renders it and `rulesKey` is the lower-cased document type, when the
   * caller passes one.
   */
  function PreparedPrompt(prompts: map<string, string>, name: string, schema: string,
                          variables: seq<(string, string)>, rulesKey: Option<string>): Result<string, PromptError>
  {
    var template := Lookup(prompts, name);
    if template == "" then Err(PromptNotFound(name))
    else
      var rules := if rulesKey.Some? then Lookup(prompts, rulesKey.value) else "";
      Ok(Substitute(template, AllVars(schema, rules, variables)))
  }

  /** The method as the source runs it: a loop that reassigns the template once per variable. */
  method PreparePrompt(prompts: map<string, string>, name: string, schema: string,
                       variables: seq<(string, string)>, rulesKey: Option<string>) returns (r: Result<string, PromptError>)
    ensures r == PreparedPrompt(prompts, name, schema, variables, rulesKey)
  {
    if name !in prompts || prompts[name] == "" {
      return Err(PromptNotFound(name));
    }
    var template := prompts[name];
    var rules := "";
    if rulesKey.Some? && rulesKey.value in prompts {
      rules := prompts[rulesKey.value];
    }
    var all := AllVars(schema, rules, variables);
    ghost var start := template;
    var i := 0;
    while i < |all|
      invariant i <= |all|
      invariant Substitute(template, all[i..]) == Substitute(start, all)
    {
      assert all[i..][1..] == all[i + 1..];
      template := ReplaceAll(template, Placeholder(all[i].0), all[i].1);
      i := i + 1;
    }
    r := Ok(template);
  }

  /** Preparation fails exactly when the template is missing or empty, and then names it. */
  lemma PromptFailsIffNoTemplate(prompts: map<string, string>, name: string, schema: string,
                                 variables: seq<(string, string)>, rulesKey: Option<string>)
    ensures PreparedPrompt(prompts, name, schema, variables, rulesKey).Err?
            <==> name !in prompts || prompts[name] == ""
    ensures PreparedPrompt(prompts, name, schema, variables, rulesKey).Err? ==>
            PreparedPrompt(prompts, name, schema, variables, rulesKey).error == PromptNotFound(name)
  {
  }

  /**
   * With a dict of caller variables, a caller variable wins over a default of the same name, and
   * each default stays in force otherwise: the rules default is the document type's rules
   * template, or empty without a document type or without such a template.
   */
  lemma CallerOverridesDefaults(schema: string, rules: string, variables: seq<(string, string)>, k: string)
    requires UniqueKeys(variables)
    ensures k in KeySet(variables) ==> Get(AllVars(schema, rules, variables), k) == Get(variables, k)
    ensures k !in KeySet(variables) && k == "pydantic_schema_json" ==>
            Get(AllVars(schema, rules, variables), k) == Some(schema)
    ensures k !in KeySet(variables) && k == "schema_specific_rules" ==>
            Get(AllVars(schema, rules, variables), k) == Some(rules)
    ensures |AllVars(schema, rules, variables)| >= 2
    ensures AllVars(schema, rules, variables)[0].0 == "pydantic_schema_json"
    ensures AllVars(schema, rules, variables)[1].0 == "schema_specific_rules"
  {
    OverlayLookup([("pydantic_schema_json", schema), ("schema_specific_rules", rules)], variables, k);
    OverlayKeepsOrder([("pydantic_schema_json", schema), ("schema_specific_rules", rules)], variables);
  }

  /** Substitution proceeds in order: a value put in for an earlier key is itself scanned for later keys. */
  lemma EarlierValuesAreRescanned()
    ensures Substitute("{{a}}", [("a", "{{b}}"), ("b", "x")]) == "x"
    ensures Substitute("{{a}}", [("b", "x"), ("a", "{{b}}")]) == "{{b}}"
  {
    ReplaceWhole("{{a}}", "{{b}}");
    ReplaceWhole("{{b}}", "x");
    assert Substitute("{{a}}", [("a", "{{b}}"), ("b", "x")]) == Substitute("{{b}}", [("b", "x")]);
    SameLengthSubstring("{{b}}", "{{a}}");
    assert "{{b}}"[2] != "{{a}}"[2];
    assert Placeholder("b") == "{{b}}" && Placeholder("a") == "{{a}}";
    SubstituteOne([("b", "x"), ("a", "{{b}}")], 1);
  }
}
