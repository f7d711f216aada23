/**
 * The GitHub Action descriptor (`action.yml`) as the pydantic model `GitHubAction` validates
 * it from a parsed JSON object: required and optional fields, the `runs` block chosen by its
 * `using` tag, the `check_run_or_uses` rule on composite steps, and the `validate_outputs`
 * rule tying the kind of the outputs to the kind of action.
 *
 * Fields are looked up under their aliases only (`pre-if`, `with`, `continue-on-error`, ...);
 * keys the model does not declare are ignored; `null` is accepted wherever the field is
 * `Optional`. An error is reported by the location of the field that failed, or by the
 * validator's own message.
 */
module GitHubAction {
  import opened JsonValue
  import opened Text

  // ----- Records -----------------------------------------------------------------------

  datatype BrandingColor = White | Black | Yellow | Blue | Green | Orange | Red | Purple | GrayDark

  datatype Input = Input(description: string, deprecationMessage: Option<string>,
                         required: Option<bool>, defaultValue: Option<string>)

  /** The union `CompositeOutput | Output`: an output with a `value` is the composite kind. */
  datatype Output =
    | PlainOutput(description: string)
    | CompositeOutput(description: string, value: string)

  datatype Branding = Branding(color: BrandingColor, icon: string)

  /** A value of an `env` dict: `str | int | bool`. */
  datatype EnvValue = EnvStr(s: string) | EnvInt(n: int) | EnvBool(b: bool)

  /** `continue-on-error: bool | str`, `False` when absent. */
  datatype FlagOrText = Flag(flag: bool) | Text(text: string)

  datatype CompositeStep = CompositeStep(
    run: Option<string>,
    shell: Option<string>,
    uses: Option<string>,
    withArgs: Option<Fields>,
    name: Option<string>,
    id: Option<string>,
    ifConditional: Option<string>,
    env: Option<seq<(string, EnvValue)>>,
    continueOnError: FlagOrText,
    workingDirectory: Option<string>)

  datatype NodeVersion = Node12 | Node16 | Node20

  /** The three `runs` models, one per family of `using` tags. */
  datatype Runs =
    | RunsJavascript(using: NodeVersion, main: string, pre: Option<string>, preIf: Option<string>,
                     post: Option<string>, postIf: Option<string>)
    | RunsComposite(steps: seq<CompositeStep>)
    | RunsDocker(image: string, env: Option<seq<(string, EnvValue)>>, entrypoint: Option<string>,
                 preEntrypoint: Option<string>, preIf: Option<string>, postEntrypoint: Option<string>,
                 postIf: Option<string>, args: Option<seq<string>>)

  datatype Action = Action(
    name: string,
    description: string,
    runs: Runs,
    author: Option<string>,
    inputs: Option<seq<(string, Input)>>,
    outputs: Option<seq<(string, Output)>>,
    branding: Option<Branding>)

  // ----- Enumerations ------------------------------------------------------------------

  function ColorName(c: BrandingColor): string
  {
    match c
    case White => "white"
    case Black => "black"
    case Yellow => "yellow"
    case Blue => "blue"
    case Green => "green"
    case Orange => "orange"
    case Red => "red"
    case Purple => "purple"
    case GrayDark => "gray-dark"
  }

  /** `BrandingColor(s)`: the colour whose value is `s`. */
  function ColorOf(s: string): Option<BrandingColor>
  {
    if s == "white" then Some(White)
    else if s == "black" then Some(Black)
    else if s == "yellow" then Some(Yellow)
    else if s == "blue" then Some(Blue)
    else if s == "green" then Some(Green)
    else if s == "orange" then Some(Orange)
    else if s == "red" then Some(Red)
    else if s == "purple" then Some(Purple)
    else if s == "gray-dark" then Some(GrayDark)
    else None
  }

  const ColorNames: set<string> :=
    {"white", "black", "yellow", "blue", "green", "orange", "red", "purple", "gray-dark"}

  function NodeOf(tag: string): Option<NodeVersion>
  {
    if tag == "node12" then Some(Node12)
    else if tag == "node16" then Some(Node16)
    else if tag == "node20" then Some(Node20)
    else None
  }

  // ----- Field decoders ----------------------------------------------------------------

  function Missing<T>(loc: string): Outcome<T>
  {
    Invalid([loc])
  }

  /** A required `str` field. */
  function ReqStr(v: Option<Json>, loc: string): Outcome<string>
  {
    if v.Some? && v.value.JStr? then Valid(v.value.s) else Missing(loc)
  }

  /** An `Optional[str] = None` field. */
  function OptStr(v: Option<Json>, loc: string): Outcome<Option<string>>
  {
    if v.None? || v.value.JNull? then Valid(None)
    else if v.value.JStr? then Valid(Some(v.value.s))
    else Missing(loc)
  }

  /** pydantic's lax `bool`: a boolean, the integers 0 and 1, or one of the usual words in any case. */
  function LaxBool(j: Json): Option<bool>
  {
    match j
    case JBool(b) => Some(b)
    case JInt(n) => if n == 0 then Some(false) else if n == 1 then Some(true) else None
    case JStr(s) =>
      var w := Lower(s);
      if w in {"0", "off", "f", "false", "n", "no"} then Some(false)
      else if w in {"1", "on", "t", "true", "y", "yes"} then Some(true)
      else None
    case _ => None
  }

  /** An `Optional[bool] = None` field. */
  function OptBool(v: Option<Json>, loc: string): Outcome<Option<bool>>
  {
    if v.None? || v.value.JNull? then Valid(None)
    else if LaxBool(v.value).Some? then Valid(Some(LaxBool(v.value).value))
    else Missing(loc)
  }

  /**
   * `Union[bool, str] = False`: a string is kept as text (it matches `str` exactly), anything
   * else must be a lax boolean.
   */
  function OptFlagOrText(v: Option<Json>, loc: string): Outcome<FlagOrText>
  {
    if v.None? then Valid(Flag(false))
    else if v.value.JStr? then Valid(Text(v.value.s))
    else if LaxBool(v.value).Some? then Valid(Flag(LaxBool(v.value).value))
    else Missing(loc)
  }

  /** `Optional[Dict[str, Any]] = None`. */
  function OptObject(v: Option<Json>, loc: string): Outcome<Option<Fields>>
  {
    if v.None? || v.value.JNull? then Valid(None)
    else if v.value.JObj? then Valid(Some(v.value.fields))
    else Missing(loc)
  }

  function EnvEntries(f: Fields): Option<seq<(string, EnvValue)>>
  {
    if f == [] then Some([])
    else
      var rest := EnvEntries(f[1..]);
      var v := match f[0].1
        case JStr(s) => Some(EnvStr(s))
        case JInt(n) => Some(EnvInt(n))
        case JBool(b) => Some(EnvBool(b))
        case _ => None;
      if v.Some? && rest.Some? then Some([(f[0].0, v.value)] + rest.value) else None
  }

  /** `Optional[Dict[str, Union[str, int, bool]]] = None`. */
  function OptEnv(v: Option<Json>, loc: string): Outcome<Option<seq<(string, EnvValue)>>>
  {
    if v.None? || v.value.JNull? then Valid(None)
    else if v.value.JObj? && EnvEntries(v.value.fields).Some? then Valid(Some(EnvEntries(v.value.fields).value))
    else Missing(loc)
  }

  function Strings(items: seq<Json>): Option<seq<string>>
  {
    if items == [] then Some([])
    else
      var rest := Strings(items[1..]);
      if items[0].JStr? && rest.Some? then Some([items[0].s] + rest.value) else None
  }

  /** `Optional[List[str]] = None`. */
  function OptStrList(v: Option<Json>, loc: string): Outcome<Option<seq<string>>>
  {
    if v.None? || v.value.JNull? then Valid(None)
    else if v.value.JList? && Strings(v.value.items).Some? then Valid(Some(Strings(v.value.items).value))
    else Missing(loc)
  }

  // ----- Input, Output, Branding ---------------------------------------------------------

  function DecodeInput(j: Json, loc: string): Outcome<Input>
  {
    if !j.JObj? then Missing(loc)
    else
      var f := j.fields;
      var description := ReqStr(Get(f, "description"), loc + ".description");
      var deprecation := OptStr(Get(f, "deprecationMessage"), loc + ".deprecationMessage");
      var required := OptBool(Get(f, "required"), loc + ".required");
      var default := OptStr(Get(f, "default"), loc + ".default");
      if description.Valid? && deprecation.Valid? && required.Valid? && default.Valid? then
        Valid(Input(description.value, deprecation.value, required.value, default.value))
      else Failed([description.Erase(), deprecation.Erase(), required.Erase(), default.Erase()])
  }

  /**
   * The union `Union[CompositeOutput, Output]` in pydantic's smart mode: both members need a
   * string `description`; when `value` is also a string the composite member is the better
   * match, otherwise `value` is an ignored extra key.
   */
  function DecodeOutput(j: Json, loc: string): Outcome<Output>
  {
    if !j.JObj? then Missing(loc)
    else
      var description := Get(j.fields, "description");
      var value := Get(j.fields, "value");
      if !(description.Some? && description.value.JStr?) then Missing(loc + ".description")
      else if value.Some? && value.value.JStr? then Valid(CompositeOutput(description.value.s, value.value.s))
      else Valid(PlainOutput(description.value.s))
  }

  /** `Branding`: a colour out of the nine and an icon out of `icons`, the `BrandingIcon` values. */
  function DecodeBranding(j: Json, icons: set<string>, loc: string): Outcome<Branding>
  {
    if !j.JObj? then Missing(loc)
    else
      var color := Get(j.fields, "color");
      var icon := Get(j.fields, "icon");
      var c := if color.Some? && color.value.JStr? && ColorOf(color.value.s).Some?
               then Valid(ColorOf(color.value.s).value) else Missing(loc + ".color");
      var i := if icon.Some? && icon.value.JStr? && icon.value.s in icons
               then Valid(icon.value.s) else Missing(loc + ".icon");
      if c.Valid? && i.Valid? then Valid(Branding(c.value, i.value)) else Failed([c.Erase(), i.Erase()])
  }

  function OptBranding(v: Option<Json>, icons: set<string>, loc: string): Outcome<Option<Branding>>
  {
    if v.None? || v.value.JNull? then Valid(None)
    else
      match DecodeBranding(v.value, icons, loc)
      case Valid(b) => Valid(Some(b))
      case Invalid(e) => Invalid(e)
      case Raised => Raised
  }

  /** A dict of inputs: every entry decoded, errors collected in order. */
  function DecodeInputs(f: Fields, loc: string): Outcome<seq<(string, Input)>>
  {
    if f == [] then Valid([])
    else
      var head := DecodeInput(f[0].1, loc + "." + f[0].0);
      var rest := DecodeInputs(f[1..], loc);
      if head.Valid? && rest.Valid? then Valid([(f[0].0, head.value)] + rest.value)
      else Invalid(head.Errors() + rest.Errors())
  }

  function DecodeOutputs(f: Fields, loc: string): Outcome<seq<(string, Output)>>
  {
    if f == [] then Valid([])
    else
      var head := DecodeOutput(f[0].1, loc + "." + f[0].0);
      var rest := DecodeOutputs(f[1..], loc);
      if head.Valid? && rest.Valid? then Valid([(f[0].0, head.value)] + rest.value)
      else Invalid(head.Errors() + rest.Errors())
  }

  /** `Optional[Dict[str, ...]] = None` around a dict decoder. */
  function OptInputs(v: Option<Json>, loc: string): Outcome<Option<seq<(string, Input)>>>
  {
    if v.None? || v.value.JNull? then Valid(None)
    else if !v.value.JObj? then Missing(loc)
    else
      match DecodeInputs(v.value.fields, loc)
      case Valid(d) => Valid(Some(d))
      case Invalid(e) => Invalid(e)
      case Raised => Raised
  }

  function OptOutputs(v: Option<Json>, loc: string): Outcome<Option<seq<(string, Output)>>>
  {
    if v.None? || v.value.JNull? then Valid(None)
    else if !v.value.JObj? then Missing(loc)
    else
      match DecodeOutputs(v.value.fields, loc)
      case Valid(d) => Valid(Some(d))
      case Invalid(e) => Invalid(e)
      case Raised => Raised
  }

  // ----- Composite steps -----------------------------------------------------------------

  const StepMessage := "A step must have either 'uses' or both 'run' and 'shell'"

  /** Python's `key in values` on the raw step: key of a dict, substring of a str, item of a list. */
  function Has(values: Json, key: string): Option<bool>
  {
    match values
    case JObj(f) => Some(key in KeySet(f))
    case JStr(s) => Some(IsSubstring(key, s))
    case JList(items) => Some(JStr(key) in items)
    case _ => None
  }

  /**
   * `check_run_or_uses`, run on the raw input before any field is validated. On `None`, a bool
   * or an int the `in` test itself raises `TypeError`, which pydantic does not turn into a
   * validation error.
   */
  function CheckRunOrUses(values: Json): Outcome<()>
  {
    var run := Has(values, "run");
    var shell := Has(values, "shell");
    var uses := Has(values, "uses");
    if run.None? || shell.None? || uses.None? then Raised
    else if (run.value && shell.value) || uses.value then Valid(())
    else Invalid([StepMessage])
  }

  function DecodeStepFields(f: Fields, loc: string): Outcome<CompositeStep>
  {
    var run := OptStr(Get(f, "run"), loc + ".run");
    var shell := OptStr(Get(f, "shell"), loc + ".shell");
    var uses := OptStr(Get(f, "uses"), loc + ".uses");
    var withArgs := OptObject(Get(f, "with"), loc + ".with");
    var name := OptStr(Get(f, "name"), loc + ".name");
    var id := OptStr(Get(f, "id"), loc + ".id");
    var ifConditional := OptStr(Get(f, "if"), loc + ".if");
    var env := OptEnv(Get(f, "env"), loc + ".env");
    var continueOnError := OptFlagOrText(Get(f, "continue-on-error"), loc + ".continue-on-error");
    var workingDirectory := OptStr(Get(f, "working-directory"), loc + ".working-directory");
    if run.Valid? && shell.Valid? && uses.Valid? && withArgs.Valid? && name.Valid? && id.Valid? &&
       ifConditional.Valid? && env.Valid? && continueOnError.Valid? && workingDirectory.Valid? then
      Valid(CompositeStep(run.value, shell.value, uses.value, withArgs.value, name.value, id.value,
                          ifConditional.value, env.value, continueOnError.value, workingDirectory.value))
    else Failed([run.Erase(), shell.Erase(), uses.Erase(), withArgs.Erase(), name.Erase(),
                 id.Erase(), ifConditional.Erase(), env.Erase(), continueOnError.Erase(),
                 workingDirectory.Erase()])
  }

  /** `CompositeStep.model_validate`: the before-validator, then the fields of a dict input. */
  function DecodeStep(j: Json, loc: string): Outcome<CompositeStep>
  {
    match CheckRunOrUses(j)
    case Raised => Raised
    case Invalid(e) => Invalid(e)
    case Valid(_) => if j.JObj? then DecodeStepFields(j.fields, loc) else Missing(loc)
  }

  /** `List[CompositeStep]`: each item decoded; one escaping exception ends it all. */
  function DecodeSteps(items: seq<Json>, loc: string): Outcome<seq<CompositeStep>>
  {
    if items == [] then Valid([])
    else
      var head := DecodeStep(items[0], loc);
      var rest := DecodeSteps(items[1..], loc);
      if head.Raised? || rest.Raised? then Raised
      else if head.Valid? && rest.Valid? then Valid([head.value] + rest.value)
      else Invalid(head.Errors() + rest.Errors())
  }

  // ----- runs ----------------------------------------------------------------------------

  function DecodeJavascript(version: NodeVersion, f: Fields, loc: string): Outcome<Runs>
  {
    var main := ReqStr(Get(f, "main"), loc + ".main");
    var pre := OptStr(Get(f, "pre"), loc + ".pre");
    var preIf := OptStr(Get(f, "pre-if"), loc + ".pre-if");
    var post := OptStr(Get(f, "post"), loc + ".post");
    var postIf := OptStr(Get(f, "post-if"), loc + ".post-if");
    if main.Valid? && pre.Valid? && preIf.Valid? && post.Valid? && postIf.Valid? then
      Valid(RunsJavascript(version, main.value, pre.value, preIf.value, post.value, postIf.value))
    else Failed([main.Erase(), pre.Erase(), preIf.Erase(), post.Erase(), postIf.Erase()])
  }

  function DecodeComposite(f: Fields, loc: string): Outcome<Runs>
  {
    var steps := Get(f, "steps");
    if !(steps.Some? && steps.value.JList?) then Missing(loc + ".steps")
    else
      match DecodeSteps(steps.value.items, loc + ".steps")
      case Valid(s) => Valid(RunsComposite(s))
      case Invalid(e) => Invalid(e)
      case Raised => Raised
  }

  function DecodeDocker(f: Fields, loc: string): Outcome<Runs>
  {
    var image := ReqStr(Get(f, "image"), loc + ".image");
    var env := OptEnv(Get(f, "env"), loc + ".env");
    var entrypoint := OptStr(Get(f, "entrypoint"), loc + ".entrypoint");
    var preEntrypoint := OptStr(Get(f, "pre-entrypoint"), loc + ".pre-entrypoint");
    var preIf := OptStr(Get(f, "pre-if"), loc + ".pre-if");
    var postEntrypoint := OptStr(Get(f, "post-entrypoint"), loc + ".post-entrypoint");
    var postIf := OptStr(Get(f, "post-if"), loc + ".post-if");
    var args := OptStrList(Get(f, "args"), loc + ".args");
    if image.Valid? && env.Valid? && entrypoint.Valid? && preEntrypoint.Valid? && preIf.Valid? &&
       postEntrypoint.Valid? && postIf.Valid? && args.Valid? then
      Valid(RunsDocker(image.value, env.value, entrypoint.value, preEntrypoint.value, preIf.value,
                       postEntrypoint.value, postIf.value, args.value))
    else Failed([image.Erase(), env.Erase(), entrypoint.Erase(), preEntrypoint.Erase(),
                 preIf.Erase(), postEntrypoint.Erase(), postIf.Erase(), args.Erase()])
  }

  /** The union discriminated by `using`: the tag alone picks the model the block must satisfy. */
  function DecodeRuns(v: Option<Json>, loc: string): Outcome<Runs>
  {
    if !(v.Some? && v.value.JObj?) then Missing(loc)
    else
      var f := v.value.fields;
      var tag := Get(f, "using");
      if !(tag.Some? && tag.value.JStr?) then Missing(loc)
      else if NodeOf(tag.value.s).Some? then DecodeJavascript(NodeOf(tag.value.s).value, f, loc + "." + tag.value.s)
      else if tag.value.s == "composite" then DecodeComposite(f, loc + ".composite")
      else if tag.value.s == "docker" then DecodeDocker(f, loc + ".docker")
      else Missing(loc)
  }

  // ----- validate_outputs ----------------------------------------------------------------

  /** An output of the kind the action may not have. */
  predicate Offends(o: Output, composite: bool)
  {
    if composite then !o.CompositeOutput? else o.CompositeOutput?
  }

  function OutputMessage(key: string, composite: bool): string
  {
    if composite then "Output '" + key + "' for composite action must be a CompositeOutput with a 'value' field."
    else "Output '" + key + "' for non-composite action must not have a 'value' field."
  }

  /** The key of the first output, in dict order, that offends. */
  function FirstOffending(outputs: seq<(string, Output)>, composite: bool): (r: Option<string>)
    ensures r.None? <==> forall i :: 0 <= i < |outputs| ==> !Offends(outputs[i].1, composite)
    ensures r.Some? ==> exists i :: 0 <= i < |outputs| && outputs[i].0 == r.value && Offends(outputs[i].1, composite)
                                    && forall j :: 0 <= j < i ==> !Offends(outputs[j].1, composite)
  {
    if outputs == [] then None
    else if Offends(outputs[0].1, composite) then Some(outputs[0].0)
    else
      var r := FirstOffending(outputs[1..], composite);
      assert forall i :: 0 < i < |outputs| ==> outputs[i] == outputs[1..][i - 1];
      assert r.Some? ==> exists i :: 1 <= i < |outputs| && outputs[i].0 == r.value && Offends(outputs[i].1, composite)
                                    && forall j :: 1 <= j < i ==> !Offends(outputs[j].1, composite);
      r
  }

  /** The after-validator `validate_outputs`. */
  function ValidateOutputs(a: Action): Outcome<Action>
  {
    if a.outputs.None? || a.outputs.value == [] then Valid(a)
    else
      var composite := a.runs.RunsComposite?;
      match FirstOffending(a.outputs.value, composite)
      case None => Valid(a)
      case Some(key) => Invalid([OutputMessage(key, composite)])
  }

  // ----- GitHubAction --------------------------------------------------------------------

  /** `GitHubAction.model_validate(j)`, with `icons` the values of `BrandingIcon`. */
  function DecodeAction(j: Json, icons: set<string>): Outcome<Action>
  {
    if !j.JObj? then Missing("GitHubAction")
    else
      var f := j.fields;
      var name := ReqStr(Get(f, "name"), "name");
      var description := ReqStr(Get(f, "description"), "description");
      var runs := DecodeRuns(Get(f, "runs"), "runs");
      var author := OptStr(Get(f, "author"), "author");
      var inputs := OptInputs(Get(f, "inputs"), "inputs");
      var outputs := OptOutputs(Get(f, "outputs"), "outputs");
      var branding := OptBranding(Get(f, "branding"), icons, "branding");
      if name.Valid? && description.Valid? && runs.Valid? && author.Valid? && inputs.Valid? &&
         outputs.Valid? && branding.Valid? then
        ValidateOutputs(Action(name.value, description.value, runs.value, author.value, inputs.value,
                               outputs.value, branding.value))
      else Failed([name.Erase(), description.Erase(), runs.Erase(), author.Erase(), inputs.Erase(),
                   outputs.Erase(), branding.Erase()])
  }
}
