/** The "select authentication" wizard step generated when an application is
    attached to a source: a hidden bootstrap field, then one sub-form per
    supported authentication type that already has stored values, each
    offering "define new" or one of the stored values. */
module SelectAuthenticationStep {
  import opened Wrappers
  import opened Seqs
  import opened Js
  import opened Catalog

  const StepName := "selectAuthentication"
  const SetterName := "authtypesetter"
  const RadioName := "selectedAuthentication"

  /** Internationalised messages, kept as opaque constructors. */
  datatype Message =
    | SelectAuthenticationTitle                  // "Select authentication"
    | DefineNew(supportedAuthTypeName: string)   // "Define new { supportedAuthTypeName }"

  datatype Label = Plain(text: string) | Intl(message: Message)

  /** One radio option. */
  datatype Choice = Choice(caption: Label, value: string)

  datatype Validator = Required

  /** The form fields the step emits. The two description fields render
      opaque components: the hidden authentication-type setter and the
      "selected application supports ..." summary. */
  datatype Field =
    | AuthTypeSetter(name: string, authenticationValues: seq<AuthValue>, hideField: bool)
    | Summary(name: string, applicationTypeName: string, authenticationTypeName: string)
    | Radio(name: string, caption: Message, isRequired: bool, validate: seq<Validator>, options: seq<Choice>)
    | SubForm(name: string, fields: seq<Field>)

  /** What the `nextStep` closure captures. */
  datatype Routing = Routing(sourceTypeName: string, appId: string)

  datatype Step = Step(name: string, title: Message, fields: seq<Field>, routing: Routing)

  /** Resolving an authentication type's display name throws when the source
      type has no `schema.authentication` list, or when no entry of it has the
      requested type. */
  datatype StepError = NoAuthenticationSchema | UnknownAuthType(authtype: string)

  /** Submitted form values read by `nextStep`. */
  datatype SelectedAuthentication = SelectedAuthentication(authtype: Option<string>)
  datatype FormValues = FormValues(authtype: Option<string>, authentication: Option<SelectedAuthentication>)

  predicate IsOfType(t: string, v: AuthValue)
  {
    v.authtype == t
  }

  function OfType(t: string): AuthValue -> bool
  {
    v => IsOfType(t, v)
  }

  /** Some stored value has authentication type `t`. */
  predicate HasValuesOf(values: seq<AuthValue>, t: string)
  {
    exists i :: 0 <= i < |values| && values[i].authtype == t
  }

  function HasValuesFor(values: seq<AuthValue>): string -> bool
  {
    t => HasValuesOf(values, t)
  }

  /** The label of the option offering stored value `v`:
      type name, then `-username` when the username is non-empty, then
      `-<display name>` when an application type is given and
      `-unused-<id>` otherwise. */
  function OptionLabel(typeName: string, v: AuthValue, appType: Option<AppType>): (s: string)
    ensures typeName <= s
    ensures Truthy(v.username) ==> typeName + "-" + v.username.value <= s
    ensures appType.Some? ==> EndsWith(s, "-" + appType.value.displayName)
    ensures appType.None? ==> EndsWith(s, "-unused-" + v.id)
    ensures |s| == |typeName|
      + (if Truthy(v.username) then |v.username.value| + 1 else 0)
      + (if appType.Some? then |appType.value.displayName| + 1 else |v.id| + 8)
  {
    var userPart := if Truthy(v.username) then "-" + v.username.value else "";
    var appPart := if appType.Some? then "-" + appType.value.displayName else "-unused-" + v.id;
    typeName + userPart + appPart
  }

  predicate EndsWith(s: string, suffix: string)
  {
    |suffix| <= |s| && s[|s| - |suffix|..] == suffix
  }

  function OptionFor(typeName: string, appType: Option<AppType>): AuthValue -> Choice
  {
    v => Choice(Plain(OptionLabel(typeName, v, appType)), v.id)
  }

  /** One option per stored value of type `authType`, in input order, valued
      by the value's id. */
  function GenerateAuthSelectionOptions(values: seq<AuthValue>, appType: Option<AppType>,
                                        typeName: string, authType: string): (r: seq<Choice>)
    ensures |r| == Count(OfType(authType), values)
    ensures forall k :: 0 <= k < |r| ==>
      exists i :: 0 <= i < |values| && values[i].authtype == authType
        && r[k] == Choice(Plain(OptionLabel(typeName, values[i], appType)), values[i].id)
    ensures forall i :: 0 <= i < |values| && values[i].authtype == authType ==>
      Choice(Plain(OptionLabel(typeName, values[i], appType)), values[i].id) in r
  {
    var matching := Filter(OfType(authType), values);
    FilterIsOrderedSelection(OfType(authType), values);
    var r := Map(OptionFor(typeName, appType), matching);
    OptionsSound(values, matching, r, appType, typeName, authType);
    OptionsComplete(values, matching, r, appType, typeName, authType);
    r
  }

  /** Every option built from a selection of the values of type `authType`
      is the option of one of those values. */
  lemma OptionsSound(values: seq<AuthValue>, matching: seq<AuthValue>, r: seq<Choice>,
                     appType: Option<AppType>, typeName: string, authType: string)
    requires forall k :: 0 <= k < |matching| ==> OfType(authType)(matching[k]) && matching[k] in values
    requires r == Map(OptionFor(typeName, appType), matching)
    ensures forall k :: 0 <= k < |r| ==>
      exists i :: 0 <= i < |values| && values[i].authtype == authType
        && r[k] == Choice(Plain(OptionLabel(typeName, values[i], appType)), values[i].id)
  {
  }

  /** Every value of type `authType` kept in the selection has its option
      among those built. */
  lemma OptionsComplete(values: seq<AuthValue>, matching: seq<AuthValue>, r: seq<Choice>,
                        appType: Option<AppType>, typeName: string, authType: string)
    requires forall i :: 0 <= i < |values| && OfType(authType)(values[i]) ==> values[i] in matching
    requires r == Map(OptionFor(typeName, appType), matching)
    ensures forall i :: 0 <= i < |values| && values[i].authtype == authType ==>
      Choice(Plain(OptionLabel(typeName, values[i], appType)), values[i].id) in r
  {
  }

  /** Generated options keep the input order: generating over a
      concatenation is the concatenation of the generated options. */
  lemma GenerateAuthSelectionOptionsConcat(a: seq<AuthValue>, b: seq<AuthValue>, appType: Option<AppType>,
                                           typeName: string, authType: string)
    ensures GenerateAuthSelectionOptions(a + b, appType, typeName, authType)
         == GenerateAuthSelectionOptions(a, appType, typeName, authType)
          + GenerateAuthSelectionOptions(b, appType, typeName, authType)
  {
    FilterConcat(OfType(authType), a, b);
    MapConcat(OptionFor(typeName, appType), Filter(OfType(authType), a), Filter(OfType(authType), b));
  }

  /** The option values are exactly the ids of the stored values of the
      requested type, in input order. */
  lemma GenerateAuthSelectionOptionsValues(values: seq<AuthValue>, appType: Option<AppType>,
                                           typeName: string, authType: string)
    ensures Map((c: Choice) => c.value, GenerateAuthSelectionOptions(values, appType, typeName, authType))
         == Map((v: AuthValue) => v.id, Filter(OfType(authType), values))
  {
  }

  function SchemaOfType(t: string): AuthSchema -> bool
  {
    (e: AuthSchema) => e.authType == t
  }

  /** The first schema entry whose type is `t`. */
  function FindSchema(entries: seq<AuthSchema>, t: string): (r: Option<AuthSchema>)
    ensures r.None? <==> forall i :: 0 <= i < |entries| ==> entries[i].authType != t
    ensures r.Some? ==> r.value.authType == t
    ensures r.Some? ==> exists i :: 0 <= i < |entries| && IsFirst(SchemaOfType(t), entries, i) && entries[i] == r.value
  {
    Find(SchemaOfType(t), entries)
  }

  /** The display name of authentication type `t` on source type `st`. */
  function AuthTypeName(st: SourceType, t: string): (r: Result<string, StepError>)
    ensures st.authSchema.None? ==> r == Failure(NoAuthenticationSchema)
    ensures st.authSchema.Some? ==>
      (r.Success? <==> exists i :: 0 <= i < |st.authSchema.value| && st.authSchema.value[i].authType == t)
    ensures st.authSchema.Some? && r.Failure? ==> r.error == UnknownAuthType(t)
    ensures r.Success? ==>
      exists i :: 0 <= i < |st.authSchema.value| && IsFirst(SchemaOfType(t), st.authSchema.value, i) && st.authSchema.value[i].name == r.value
  {
    match st.authSchema
    case None => Failure(NoAuthenticationSchema)
    case Some(entries) =>
      match FindSchema(entries, t)
      case None => Failure(UnknownAuthType(t))
      case Some(e) => Success(e.name)
  }

  /** The sub-form for authentication type `authType`, whose display name is
      `typeName`. */
  function AuthSubForm(app: AppType, values: seq<AuthValue>, typeName: string, authType: string): Field
  {
    SubForm(app.name + "-subform", [
      Summary(app.name + "-select-authentication-summary", app.displayName, typeName),
      Radio(RadioName, SelectAuthenticationTitle, true, [Required],
            [Choice(Intl(DefineNew(typeName)), "new-" + authType)]
            + GenerateAuthSelectionOptions(values, Some(app), typeName, authType))
    ])
  }

  /** The authentication type codes `app` declares for source type `name`;
      a missing entry reads as the empty list. */
  function SupportedAuthTypes(app: AppType, name: string): seq<string>
  {
    if name in app.supportedAuthTypes then app.supportedAuthTypes[name] else []
  }

  /** The sub-forms for the declared types `types`, visited in order; the
      first type that has stored values but no display name aborts. */
  function SubForms(app: AppType, st: SourceType, values: seq<AuthValue>, types: seq<string>): (r: Result<seq<Field>, StepError>)
    ensures r.Success? <==> AllNamed(st, values, types)
    ensures r.Success? ==> |r.value| == Count(HasValuesFor(values), types)
    ensures r.Failure? ==> FirstUnnamed(st, values, types, r.error)
    decreases |types|
  {
    if |types| == 0 then Success([])
    else
      var t := types[0];
      if !HasValuesOf(values, t) then
        var rest := SubForms(app, st, values, types[1..]);
        if rest.Failure? then FirstUnnamedShift(st, values, types, rest.error); rest
        else rest
      else
        match AuthTypeName(st, t)
        case Failure(e) => assert FailsAt(st, values, types, 0, e); Failure(e)
        case Success(name) =>
          match SubForms(app, st, values, types[1..])
          case Failure(e) => FirstUnnamedShift(st, values, types, e); Failure(e)
          case Success(fs) => Success([AuthSubForm(app, values, name, t)] + fs)
  }

  /** `e` is the error of the first type in `types` that has stored values
      but no resolvable display name. */
  ghost predicate FirstUnnamed(st: SourceType, values: seq<AuthValue>, types: seq<string>, e: StepError)
  {
    exists i :: 0 <= i < |types| && FailsAt(st, values, types, i, e)
  }

  /** Every type in `types` that has stored values has a display name. */
  ghost predicate AllNamed(st: SourceType, values: seq<AuthValue>, types: seq<string>)
    decreases |types|
  {
    |types| == 0
    || ((HasValuesOf(values, types[0]) ==> AuthTypeName(st, types[0]).Success?) && AllNamed(st, values, types[1..]))
  }

  lemma {:induction false} AllNamedMeansEveryTypeNamed(st: SourceType, values: seq<AuthValue>, types: seq<string>)
    ensures AllNamed(st, values, types)
        <==> forall t :: t in types && HasValuesOf(values, t) ==> AuthTypeName(st, t).Success?
    decreases |types|
  {
    if |types| > 0 {
      AllNamedMeansEveryTypeNamed(st, values, types[1..]);
      assert forall t :: t in types <==> t == types[0] || t in types[1..];
    }
  }

  /** A first failure in the tail of `types` is the first failure in
      `types` when the head does not fail. */
  lemma FirstUnnamedShift(st: SourceType, values: seq<AuthValue>, types: seq<string>, e: StepError)
    requires |types| > 0
    requires HasValuesOf(values, types[0]) ==> AuthTypeName(st, types[0]).Success?
    requires FirstUnnamed(st, values, types[1..], e)
    ensures FirstUnnamed(st, values, types, e)
  {
    var i :| 0 <= i < |types[1..]| && FailsAt(st, values, types[1..], i, e);
    assert FailsAt(st, values, types, i + 1, e);
  }

  ghost predicate FailsAt(st: SourceType, values: seq<AuthValue>, types: seq<string>, i: nat, e: StepError)
    requires i < |types|
  {
    && HasValuesOf(values, types[i])
    && AuthTypeName(st, types[i]) == Failure(e)
    && (forall j :: 0 <= j < i && HasValuesOf(values, types[j]) ==> AuthTypeName(st, types[j]).Success?)
  }

  /** `app` is not yet attached to `source` (absent applications count as none). */
  predicate IsAppAvailable(source: Source, app: AppType)
  {
    source.applications.None?
    || forall i :: 0 <= i < |source.applications.value| ==>
         source.applications.value[i].applicationTypeId != Some(app.id)
  }

  /** `app` can be used with source type `st`. */
  predicate IsAppSupported(app: AppType, st: SourceType)
  {
    st.name in app.supportedSourceTypes
  }

  /** The hidden first field carrying the stored values. */
  function Bootstrap(values: seq<AuthValue>): Field
  {
    AuthTypeSetter(SetterName, values, true)
  }

  /** The step definition. It always exists, is named `selectAuthentication`
      and starts with the bootstrap field; sub-forms are generated only for a
      supported application not yet attached to the source. */
  function SelectAuthentication(source: Source, values: seq<AuthValue>, st: SourceType, app: AppType): (r: Result<Step, StepError>)
    ensures r.Success? ==> r.value.name == StepName && r.value.title == SelectAuthenticationTitle
    ensures r.Success? ==> |r.value.fields| >= 1 && r.value.fields[0] == Bootstrap(values)
    ensures r.Success? ==> r.value.routing == Routing(st.name, app.id)
    ensures !IsAppSupported(app, st) || !IsAppAvailable(source, app) ==>
      r.Success? && r.value.fields == [Bootstrap(values)]
    ensures r.Failure? <==> (IsAppSupported(app, st) && IsAppAvailable(source, app)
      && exists t :: t in SupportedAuthTypes(app, st.name) && HasValuesOf(values, t) && AuthTypeName(st, t).Failure?)
    ensures r.Failure? ==> FirstUnnamed(st, values, SupportedAuthTypes(app, st.name), r.error)
    ensures r.Success? ==> (|r.value.fields| == 1 +
      (if IsAppSupported(app, st) && IsAppAvailable(source, app)
       then Count(HasValuesFor(values), SupportedAuthTypes(app, st.name)) else 0))
  {
    var routing := Routing(st.name, app.id);
    if IsAppSupported(app, st) && IsAppAvailable(source, app) then
      AllNamedMeansEveryTypeNamed(st, values, SupportedAuthTypes(app, st.name));
      match SubForms(app, st, values, SupportedAuthTypes(app, st.name))
      case Failure(e) => Failure(e)
      case Success(fs) => Success(Step(StepName, SelectAuthenticationTitle, [Bootstrap(values)] + fs, routing))
    else
      Success(Step(StepName, SelectAuthenticationTitle, [Bootstrap(values)], routing))
  }

  /** The sub-form a declared type yields once its display name resolves. */
  function SubFormOf(app: AppType, st: SourceType, values: seq<AuthValue>): string -> Field
  {
    t => AuthSubForm(app, values, AuthTypeName(st, t).GetOr(""), t)
  }

  /** When every needed display name resolves, the sub-forms are exactly one
      per declared type that has stored values, in declaration order. */
  lemma {:induction false} SubFormsDeclaredOrder(app: AppType, st: SourceType, values: seq<AuthValue>, types: seq<string>)
    requires forall i :: 0 <= i < |types| && HasValuesOf(values, types[i]) ==> AuthTypeName(st, types[i]).Success?
    ensures SubForms(app, st, values, types)
         == Success(Map(SubFormOf(app, st, values), Filter(HasValuesFor(values), types)))
    decreases |types|
  {
    if |types| > 0 {
      assert forall i :: 1 <= i < |types| ==> types[i] == types[1..][i - 1];
      SubFormsDeclaredOrder(app, st, values, types[1..]);
      if HasValuesFor(values)(types[0]) {
        assert Filter(HasValuesFor(values), types) == [types[0]] + Filter(HasValuesFor(values), types[1..]);
        MapConcat(SubFormOf(app, st, values), [types[0]], Filter(HasValuesFor(values), types[1..]));
      }
    }
  }

  /** The field list of a supported, not yet attached application: the
      bootstrap field followed by one sub-form per declared type with stored
      values, in declaration order. A source type the application declares
      no authentication types for yields the bootstrap field alone. */
  lemma SelectAuthenticationFields(source: Source, values: seq<AuthValue>, st: SourceType, app: AppType)
    requires IsAppSupported(app, st) && IsAppAvailable(source, app)
    requires forall t :: t in SupportedAuthTypes(app, st.name) && HasValuesOf(values, t) ==> AuthTypeName(st, t).Success?
    ensures SelectAuthentication(source, values, st, app).Success?
    ensures SelectAuthentication(source, values, st, app).value.fields
         == [Bootstrap(values)] + Map(SubFormOf(app, st, values), Filter(HasValuesFor(values), SupportedAuthTypes(app, st.name)))
    ensures st.name !in app.supportedAuthTypes ==> SelectAuthentication(source, values, st, app).value.fields == [Bootstrap(values)]
  {
    SubFormsDeclaredOrder(app, st, values, SupportedAuthTypes(app, st.name));
  }

  /** Every sub-form has the same shape: a summary naming the application
      and the type, then a required radio whose first option defines a new
      authentication of that type and whose other options are the generated
      ones. */
  lemma SubFormShape(app: AppType, st: SourceType, values: seq<AuthValue>, t: string)
    requires AuthTypeName(st, t).Success?
    ensures var f := SubFormOf(app, st, values)(t);
      var name := AuthTypeName(st, t).value;
      && f.SubForm? && f.name == app.name + "-subform" && |f.fields| == 2
      && f.fields[0] == Summary(app.name + "-select-authentication-summary", app.displayName, name)
      && f.fields[1].Radio? && f.fields[1].name == RadioName && f.fields[1].caption == SelectAuthenticationTitle
      && f.fields[1].isRequired && f.fields[1].validate == [Required]
      && f.fields[1].options[0] == Choice(Intl(DefineNew(name)), "new-" + t)
      && f.fields[1].options[1..] == GenerateAuthSelectionOptions(values, Some(app), name, t)
  {
    var name := AuthTypeName(st, t).value;
    assert SubFormOf(app, st, values)(t) == AuthSubForm(app, values, name, t);
  }

  /** The id of the step that follows, built from the source type name, the
      application id and the chosen authentication type: the direct
      `authtype` value when truthy, the nested one otherwise (rendered as
      "undefined" when absent). */
  function NextStep(routing: Routing, values: FormValues): (id: string)
    ensures var prefix := routing.sourceTypeName + "-" + routing.appId + "-";
      && prefix <= id
      && (Truthy(values.authtype) ==> id[|prefix|..] == values.authtype.value)
      && (!Truthy(values.authtype) && values.authentication.Some? ==> id[|prefix|..] == Text(values.authentication.value.authtype))
      && (!Truthy(values.authtype) && values.authentication.None? ==> id[|prefix|..] == "undefined")
  {
    var chosen := Or(values.authtype, if values.authentication.Some? then values.authentication.value.authtype else None);
    routing.sourceTypeName + "-" + routing.appId + "-" + Text(chosen)
  }

  /** Label composition on concrete values: type "ARN", value id "5". */
  lemma OptionLabelExamples()
    ensures var cost := AppType("7", "cost", "Cost", ["amazon"], map[]);
      && OptionLabel("ARN", AuthValue("5", "arn", Some("")), Some(cost)) == "ARN-Cost"
      && OptionLabel("ARN", AuthValue("5", "arn", Some("")), None) == "ARN-unused-5"
      && OptionLabel("ARN", AuthValue("5", "arn", Some("bob")), Some(cost)) == "ARN-bob-Cost"
  {
  }

  /** Routing on concrete values: both field shapes lead to "aws-7-arn". */
  lemma NextStepExamples()
    ensures NextStep(Routing("aws", "7"), FormValues(Some("arn"), None)) == "aws-7-arn"
    ensures NextStep(Routing("aws", "7"), FormValues(None, Some(SelectedAuthentication(Some("arn"))))) == "aws-7-arn"
    ensures NextStep(Routing("aws", "7"), FormValues(Some("arn"), Some(SelectedAuthentication(Some("ignored"))))) == "aws-7-arn"
  {
  }
}
