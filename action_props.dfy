/** What the GitHub Action descriptor model accepts and rejects. */
module GitHubActionProperties {
  import opened JsonValue
  import opened Text
  import opened GitHubAction

  // ----- check_run_or_uses ---------------------------------------------------------------

  /**
   * On a dict, a step passes the before-validator exactly when it has the key `uses`, or both
   * keys `run` and `shell`; what those keys hold does not matter. A dict failing it is rejected
   * with the validator's message and nothing else.
   */
  lemma StepNeedsUsesOrRunAndShell(f: Fields, loc: string)
    ensures CheckRunOrUses(JObj(f)).Valid? <==>
            "uses" in KeySet(f) || ("run" in KeySet(f) && "shell" in KeySet(f))
    ensures !("uses" in KeySet(f) || ("run" in KeySet(f) && "shell" in KeySet(f))) ==>
            DecodeStep(JObj(f), loc) == Invalid([StepMessage])
    ensures DecodeStep(JObj(f), loc).Valid? ==>
            "uses" in KeySet(f) || ("run" in KeySet(f) && "shell" in KeySet(f))
    ensures CheckRunOrUses(JObj(f)).Valid? ==> DecodeStep(JObj(f), loc) == DecodeStepFields(f, loc)
  {
  }

  /** Key presence is all that counts: a step whose only entry is `"uses": null` is accepted. */
  lemma UsesNullIsAccepted(loc: string)
    ensures DecodeStep(JObj([("uses", JNull)]), loc) ==
            Valid(CompositeStep(None, None, None, None, None, None, None, None, Flag(false), None))
  {
    var f: Fields := [("uses", JNull)];
    assert "uses" in KeySet(f) by { assert f[0].0 == "uses"; }
    assert Get(f, "uses") == Some(JNull);
  }

  /** `"run": null, "shell": null` passes the rule too; `run` alone does not. */
  lemma RunAndShellKeysSuffice(loc: string)
    ensures DecodeStep(JObj([("run", JNull), ("shell", JNull)]), loc).Valid?
    ensures DecodeStep(JObj([("run", JStr("make"))]), loc) == Invalid([StepMessage])
  {
    var f: Fields := [("run", JNull), ("shell", JNull)];
    assert f[1..] == [("shell", JNull)];
    assert Get(f, "run") == Some(JNull);
    assert Get(f, "shell") == Some(JNull);
    assert CheckRunOrUses(JObj(f)) == Valid(());
    forall k | k != "run" && k != "shell" ensures Get(f, k) == None { }
    assert DecodeStepFields(f, loc).Valid?;
    var g: Fields := [("run", JStr("make"))];
    assert KeySet(g) == {"run"};
  }

  /**
   * A step that is not a dict never validates: on a string or a list the `in` tests run and
   * the step is rejected, on null, a boolean or an integer they raise `TypeError`, which
   * escapes validation.
   */
  lemma NonObjectSteps(j: Json, loc: string)
    requires !j.JObj?
    ensures !DecodeStep(j, loc).Valid?
    ensures DecodeStep(j, loc).Raised? <==> j.JNull? || j.JBool? || j.JInt?
  {
  }

  /** A step's `shell` takes any string, one of the six `Shell` names or not. */
  lemma ShellTakesAnyString(s: string, u: string, loc: string)
    ensures DecodeStep(JObj([("uses", JStr(u)), ("shell", JStr(s))]), loc).Valid?
    ensures DecodeStep(JObj([("uses", JStr(u)), ("shell", JStr(s))]), loc).value.shell == Some(s)
  {
    var f: Fields := [("uses", JStr(u)), ("shell", JStr(s))];
    assert KeySet(f) == {"uses", "shell"} by { assert f[0].0 == "uses" && f[1].0 == "shell"; }
    assert Get(f, "uses") == Some(JStr(u)) && Get(f, "shell") == Some(JStr(s));
    assert CheckRunOrUses(JObj(f)) == Valid(());
    assert DecodeStep(JObj(f), loc) == DecodeStepFields(f, loc);
    forall k | k !in {"uses", "shell"} ensures Get(f, k) == None { }
    assert OptStr(Get(f, "shell"), loc + ".shell") == Valid(Some(s));
    assert OptStr(Get(f, "uses"), loc + ".uses") == Valid(Some(u));
    assert OptObject(Get(f, "with"), loc + ".with") == Valid(None);
    assert OptEnv(Get(f, "env"), loc + ".env") == Valid(None);
    assert OptFlagOrText(Get(f, "continue-on-error"), loc + ".continue-on-error") == Valid(Flag(false));
  }

  // ----- runs ----------------------------------------------------------------------------

  /**
   * The `using` tag alone chooses the model of the `runs` block: only `node12`, `node16`,
   * `node20`, `composite` and `docker` are accepted. Any other tag, a missing tag or a block
   * that is not a dict is rejected at the block's location.
   */
  lemma RunsNeedAKnownTag(f: Fields, loc: string)
    ensures DecodeRuns(Some(JObj(f)), loc).Valid? ==>
              Get(f, "using").Some? && Get(f, "using").value.JStr? &&
              Get(f, "using").value.s in {"node12", "node16", "node20", "composite", "docker"}
    ensures var tag := Get(f, "using");
            !(tag.Some? && tag.value.JStr? && tag.value.s in {"node12", "node16", "node20", "composite", "docker"}) ==>
              DecodeRuns(Some(JObj(f)), loc) == Invalid([loc])
    ensures forall j: Json :: !j.JObj? ==> DecodeRuns(Some(j), loc) == Invalid([loc])
    ensures DecodeRuns(None, loc) == Invalid([loc])
  {
    var tag := Get(f, "using");
    if tag.Some? && tag.value.JStr? {
      NodeTags(tag.value.s);
    }
  }

  /** `NodeOf` knows exactly the three Node.js tags. */
  lemma NodeTags(tag: string)
    ensures NodeOf(tag).Some? <==> tag in {"node12", "node16", "node20"}
    ensures NodeOf(tag) == Some(Node12) <==> tag == "node12"
    ensures NodeOf(tag) == Some(Node16) <==> tag == "node16"
    ensures NodeOf(tag) == Some(Node20) <==> tag == "node20"
  {
  }

  /** Each of the three decoders of a `runs` block builds only its own kind. */
  lemma RunsDecodersBuildTheirKind(version: NodeVersion, f: Fields, loc: string)
    ensures DecodeJavascript(version, f, loc).Valid? ==>
              DecodeJavascript(version, f, loc).value.RunsJavascript? &&
              DecodeJavascript(version, f, loc).value.using == version &&
              Get(f, "main") == Some(JStr(DecodeJavascript(version, f, loc).value.main))
    ensures DecodeComposite(f, loc).Valid? ==> DecodeComposite(f, loc).value.RunsComposite?
    ensures DecodeDocker(f, loc).Valid? ==>
              DecodeDocker(f, loc).value.RunsDocker? &&
              Get(f, "image") == Some(JStr(DecodeDocker(f, loc).value.image))
  {
  }

  /** Which decoder a tagged `runs` dict goes to. */
  lemma RunsDispatch(f: Fields, loc: string, tag: string)
    requires Get(f, "using") == Some(JStr(tag))
    ensures NodeOf(tag).Some? ==>
              DecodeRuns(Some(JObj(f)), loc) == DecodeJavascript(NodeOf(tag).value, f, loc + "." + tag)
    ensures NodeOf(tag).None? && tag == "composite" ==>
              DecodeRuns(Some(JObj(f)), loc) == DecodeComposite(f, loc + ".composite")
    ensures NodeOf(tag).None? && tag == "docker" ==>
              DecodeRuns(Some(JObj(f)), loc) == DecodeDocker(f, loc + ".docker")
    ensures NodeOf(tag).None? && tag != "composite" && tag != "docker" ==>
              DecodeRuns(Some(JObj(f)), loc) == Invalid([loc])
  {
  }

  /** A JavaScript `runs` block carries its Node.js tag and a string `main`. */
  lemma JavascriptRunsFields(f: Fields, loc: string)
    requires DecodeRuns(Some(JObj(f)), loc).Valid? && DecodeRuns(Some(JObj(f)), loc).value.RunsJavascript?
    ensures var r := DecodeRuns(Some(JObj(f)), loc).value;
            Get(f, "using") == Some(JStr(if r.using == Node12 then "node12"
                                         else if r.using == Node16 then "node16" else "node20")) &&
            Get(f, "main") == Some(JStr(r.main))
  {
    RunsNeedAKnownTag(f, loc);
    var tag := Get(f, "using").value.s;
    NodeTags(tag);
    RunsDispatch(f, loc, tag);
    RunsDecodersBuildTheirKind(if NodeOf(tag).Some? then NodeOf(tag).value else Node12, f, loc + "." + tag);
    RunsDecodersBuildTheirKind(Node12, f, loc + ".composite");
    RunsDecodersBuildTheirKind(Node12, f, loc + ".docker");
  }

  /** A composite `runs` block is tagged `composite` and carries a list `steps`. */
  lemma CompositeRunsFields(f: Fields, loc: string)
    requires DecodeRuns(Some(JObj(f)), loc).Valid? && DecodeRuns(Some(JObj(f)), loc).value.RunsComposite?
    ensures Get(f, "using") == Some(JStr("composite"))
    ensures Get(f, "steps").Some? && Get(f, "steps").value.JList?
  {
    RunsNeedAKnownTag(f, loc);
    var tag := Get(f, "using").value.s;
    NodeTags(tag);
    RunsDispatch(f, loc, tag);
    RunsDecodersBuildTheirKind(if NodeOf(tag).Some? then NodeOf(tag).value else Node12, f, loc + "." + tag);
    RunsDecodersBuildTheirKind(Node12, f, loc + ".docker");
  }

  /** A docker `runs` block is tagged `docker` and carries a string `image`. */
  lemma DockerRunsFields(f: Fields, loc: string)
    requires DecodeRuns(Some(JObj(f)), loc).Valid? && DecodeRuns(Some(JObj(f)), loc).value.RunsDocker?
    ensures Get(f, "using") == Some(JStr("docker"))
    ensures Get(f, "image") == Some(JStr(DecodeRuns(Some(JObj(f)), loc).value.image))
  {
    RunsNeedAKnownTag(f, loc);
    var tag := Get(f, "using").value.s;
    NodeTags(tag);
    RunsDispatch(f, loc, tag);
    RunsDecodersBuildTheirKind(if NodeOf(tag).Some? then NodeOf(tag).value else Node12, f, loc + "." + tag);
    RunsDecodersBuildTheirKind(Node12, f, loc + ".composite");
    RunsDecodersBuildTheirKind(Node12, f, loc + ".docker");
  }

  // ----- outputs -------------------------------------------------------------------------

  /**
   * An output dict entry is of the composite kind exactly when it carries a string `value`;
   * both kinds need a string `description`.
   */
  lemma OutputKinds(f: Fields, loc: string)
    ensures DecodeOutput(JObj(f), loc).Valid? <==>
            Get(f, "description").Some? && Get(f, "description").value.JStr?
    ensures DecodeOutput(JObj(f), loc).Valid? ==>
            (DecodeOutput(JObj(f), loc).value.CompositeOutput? <==>
             Get(f, "value").Some? && Get(f, "value").value.JStr?)
    ensures DecodeOutput(JObj(f), loc).Valid? ==>
            Get(f, "description") == Some(JStr(DecodeOutput(JObj(f), loc).value.description))
  {
  }

  /**
   * `validate_outputs`: an action with no outputs or an empty dict of them passes; otherwise a
   * composite action passes exactly when every output is of the composite kind, any other
   * action exactly when none is. A passing action is returned unchanged.
   */
  lemma OutputsMatchTheAction(a: Action)
    ensures a.outputs.None? || a.outputs.value == [] ==> ValidateOutputs(a) == Valid(a)
    ensures a.outputs.Some? && a.runs.RunsComposite? ==>
            (ValidateOutputs(a).Valid? <==>
             forall i :: 0 <= i < |a.outputs.value| ==> a.outputs.value[i].1.CompositeOutput?)
    ensures a.outputs.Some? && !a.runs.RunsComposite? ==>
            (ValidateOutputs(a).Valid? <==>
             forall i :: 0 <= i < |a.outputs.value| ==> !a.outputs.value[i].1.CompositeOutput?)
    ensures ValidateOutputs(a).Valid? ==> ValidateOutputs(a).value == a
    ensures !ValidateOutputs(a).Raised?
  {
  }

  /**
   * A failing action is rejected with one error that names the first output, in dict order,
   * of the wrong kind.
   */
  lemma OutputErrorNamesFirstOffender(a: Action)
    requires ValidateOutputs(a).Invalid?
    ensures a.outputs.Some?
    ensures exists i :: 0 <= i < |a.outputs.value| &&
              Offends(a.outputs.value[i].1, a.runs.RunsComposite?) &&
              (forall j :: 0 <= j < i ==> !Offends(a.outputs.value[j].1, a.runs.RunsComposite?)) &&
              ValidateOutputs(a).errors == [OutputMessage(a.outputs.value[i].0, a.runs.RunsComposite?)]
  {
  }

  // ----- GitHubAction ---------------------------------------------------------------------

  /**
   * An action validates only as a dict with a string `name`, a string `description` and a
   * valid `runs` block, and the validated action holds exactly those values.
   */
  lemma ActionRequiredFields(f: Fields, icons: set<string>)
    requires DecodeAction(JObj(f), icons).Valid?
    ensures Get(f, "name") == Some(JStr(DecodeAction(JObj(f), icons).value.name))
    ensures Get(f, "description") == Some(JStr(DecodeAction(JObj(f), icons).value.description))
    ensures DecodeRuns(Get(f, "runs"), "runs") == Valid(DecodeAction(JObj(f), icons).value.runs)
  {
  }

  /**
   * `author`, `inputs`, `outputs` and `branding` may all be absent: with just a name, a
   * description and a valid `runs` block the action validates, with those four left `None`.
   */
  lemma ActionOptionalFields(name: string, description: string, runs: Json, icons: set<string>)
    requires DecodeRuns(Some(runs), "runs").Valid?
    ensures DecodeAction(JObj([("name", JStr(name)), ("description", JStr(description)), ("runs", runs)]), icons) ==
            Valid(Action(name, description, DecodeRuns(Some(runs), "runs").value, None, None, None, None))
  {
    var f: Fields := [("name", JStr(name)), ("description", JStr(description)), ("runs", runs)];
    assert f[1..][1..] == [("runs", runs)];
    assert ReqStr(Get(f, "name"), "name") == Valid(name);
    assert ReqStr(Get(f, "description"), "description") == Valid(description);
    assert Get(f, "runs") == Some(runs);
    forall k | k != "name" && k != "description" && k != "runs" ensures Get(f, k) == None { }
    assert OptStr(Get(f, "author"), "author") == Valid(None);
    assert OptInputs(Get(f, "inputs"), "inputs") == Valid(None);
    assert OptOutputs(Get(f, "outputs"), "outputs") == Valid(None);
    assert OptBranding(Get(f, "branding"), icons, "branding") == Valid(None);
    var a := Action(name, description, DecodeRuns(Some(runs), "runs").value, None, None, None, None);
    assert ValidateOutputs(a) == Valid(a);
  }

  /**
   * The output rule runs only on an action whose fields validated, and whatever validates
   * satisfies it: a validated composite action has only composite outputs, any other
   * validated action none.
   */
  lemma ValidatedActionOutputs(j: Json, icons: set<string>)
    requires DecodeAction(j, icons).Valid?
    ensures var a := DecodeAction(j, icons).value;
            a.outputs.Some? ==>
              forall i :: 0 <= i < |a.outputs.value| ==>
                (a.outputs.value[i].1.CompositeOutput? <==> a.runs.RunsComposite?)
  {
    var a := DecodeAction(j, icons).value;
    OutputsMatchTheAction(a);
  }

  /** Each input needs a string `description`; the other three fields are optional. */
  lemma InputNeedsDescription(f: Fields, loc: string)
    ensures DecodeInput(JObj(f), loc).Valid? ==>
            Get(f, "description") == Some(JStr(DecodeInput(JObj(f), loc).value.description))
    ensures Get(f, "description").Some? && Get(f, "description").value.JStr? &&
            Get(f, "deprecationMessage").None? && Get(f, "required").None? && Get(f, "default").None? ==>
            DecodeInput(JObj(f), loc) == Valid(Input(Get(f, "description").value.s, None, None, None))
  {
  }

  /** The branding colour is one of exactly nine values, each named by its own string. */
  lemma ColorsRoundTrip(c: BrandingColor, s: string)
    ensures ColorOf(ColorName(c)) == Some(c)
    ensures ColorOf(s).Some? ==> ColorName(ColorOf(s).value) == s
    ensures ColorOf(s).Some? <==> s in ColorNames
    ensures |ColorNames| == 9
  {
  }
}
