/**
 The Sentinel data models: the macro injection result, the rule status the
 service reports, and the scheduled alert rule payload with its validation
 from a resource specification (defaults, aliases, extra keys) and its
 serialisation by alias.

 Validation is the strict reading of the pydantic models: a string field takes
 a JSON string, a boolean field a JSON boolean, an integer field a JSON integer,
 and the first failing field, in declaration order, is the one reported. Nested
 objects (entity mappings, grouping and incident settings, overrides) are kept
 as the JSON objects they were given.
 */
module SentinelModels {
  import opened Base

  /** `MacroInjectionResult`; `message` is "" unless a macro was missing. */
  datatype MacroInjectionResult = MacroInjectionResult(success: bool, query: string, message: string)

  /** A successful injection, with the default empty message. */
  function Injected(query: string): (r: MacroInjectionResult)
    ensures r.success && r.query == query && r.message == ""
  {
    MacroInjectionResult(true, query, "")
  }

  /** `AnalyticRuleTypes`. */
  datatype AnalyticRuleType = UnknownType | MicrosoftSecurityIncidentCreation | Fusion | Scheduled

  const RULE_TYPE_NAMES: set<string> := {"Unknown", "MicrosoftSecurityIncidentCreation", "Fusion", "Scheduled"}

  function RuleTypeName(t: AnalyticRuleType): (s: string)
    ensures s in RULE_TYPE_NAMES
  {
    match t
    case UnknownType => "Unknown"
    case MicrosoftSecurityIncidentCreation => "MicrosoftSecurityIncidentCreation"
    case Fusion => "Fusion"
    case Scheduled => "Scheduled"
  }

  /** Validation of a `rule_type` value: only the four literals are accepted. */
  function ParseRuleType(s: string): (r: Option<AnalyticRuleType>)
    ensures r.Some? <==> s in RULE_TYPE_NAMES
    ensures r.Some? ==> RuleTypeName(r.value) == s
  {
    if s == "Unknown" then Some(UnknownType)
    else if s == "MicrosoftSecurityIncidentCreation" then Some(MicrosoftSecurityIncidentCreation)
    else if s == "Fusion" then Some(Fusion)
    else if s == "Scheduled" then Some(Scheduled)
    else None
  }

  lemma RuleTypeRoundTrip(t: AnalyticRuleType)
    ensures ParseRuleType(RuleTypeName(t)) == Some(t)
  {
  }

  /** The service-level `AnalyticsRuleStatus`. */
  datatype AnalyticsRuleStatus = AnalyticsRuleStatus(enabled: bool, deployed: bool, ruleType: AnalyticRuleType)

  /** The words pydantic's lax boolean validation reads as false and as true,
      after lower-casing. */
  const FALSE_WORDS: set<string> := {"0", "off", "f", "false", "n", "no"}
  const TRUE_WORDS: set<string> := {"1", "on", "t", "true", "y", "yes"}

  /** Lower-casing of the ASCII capitals. */
  function LowerAscii(s: string): (r: string)
    ensures |r| == |s|
  {
    seq(|s|, i requires 0 <= i < |s| => if 'A' <= s[i] <= 'Z' then (s[i] as int + 32) as char else s[i])
  }

  /** Lax validation of a `bool` field, as a model built from keyword arguments
      performs it: a boolean as itself, the integers 0 and 1, and the boolean
      words in any case; nothing else. */
  function LaxBool(j: Json): (r: Option<bool>)
    ensures j.JBool? ==> r == Some(j.b)
    ensures j.JInt? ==> (r.Some? <==> j.i == 0 || j.i == 1) && (r.Some? ==> (r.value <==> j.i == 1))
    ensures j.JStr? ==> (r.Some? <==> LowerAscii(j.s) in FALSE_WORDS || LowerAscii(j.s) in TRUE_WORDS)
    ensures j.JStr? && r.Some? ==> (r.value <==> LowerAscii(j.s) in TRUE_WORDS)
    ensures j.JNull? || j.JArr? || j.JObj? ==> r.None?
  {
    match j
    case JBool(b) => Some(b)
    case JInt(i) => if i == 0 then Some(false) else if i == 1 then Some(true) else None
    case JStr(s) =>
      if LowerAscii(s) in FALSE_WORDS then Some(false)
      else if LowerAscii(s) in TRUE_WORDS then Some(true)
      else None
    case _ => None
  }

  /** No word is read both ways, and the spellings a manifest would use are
      read as expected whatever their case. */
  lemma LaxBoolWords()
    ensures FALSE_WORDS !! TRUE_WORDS
    ensures LaxBool(JStr("True")) == Some(true) && LaxBool(JStr("FALSE")) == Some(false)
    ensures LaxBool(JStr("maybe")) == None && LaxBool(JInt(2)) == None
  {
    assert LowerAscii("True") == "true";
    assert LowerAscii("FALSE") == "false";
    assert LowerAscii("maybe") == "maybe";
  }

  datatype TriggerOperator = Equal | GreaterThan | LessThan | NotEqual

  function TriggerOperatorName(t: TriggerOperator): (s: string)
    ensures s in TRIGGER_OPERATOR_NAMES
  {
    match t
    case Equal => "Equal"
    case GreaterThan => "GreaterThan"
    case LessThan => "LessThan"
    case NotEqual => "NotEqual"
  }

  const TRIGGER_OPERATOR_NAMES: set<string> := {"Equal", "GreaterThan", "LessThan", "NotEqual"}

  /** Validation of a `TriggerOperator` value: only the four literals are accepted. */
  function ParseTriggerOperator(s: string): (r: Option<TriggerOperator>)
    ensures r.Some? <==> s in TRIGGER_OPERATOR_NAMES
    ensures r.Some? ==> TriggerOperatorName(r.value) == s
  {
    if s == "Equal" then Some(Equal)
    else if s == "GreaterThan" then Some(GreaterThan)
    else if s == "LessThan" then Some(LessThan)
    else if s == "NotEqual" then Some(NotEqual)
    else None
  }

  datatype AlertSeverity = High | Medium | Low | Informational

  function SeverityName(s: AlertSeverity): (name: string)
    ensures name in SEVERITY_NAMES
  {
    match s
    case High => "High"
    case Medium => "Medium"
    case Low => "Low"
    case Informational => "Informational"
  }

  const SEVERITY_NAMES: set<string> := {"High", "Medium", "Low", "Informational"}

  /** Validation of an `AlertSeverity` value: only the four literals are accepted. */
  function ParseSeverity(s: string): (r: Option<AlertSeverity>)
    ensures r.Some? <==> s in SEVERITY_NAMES
    ensures r.Some? ==> SeverityName(r.value) == s
  {
    if s == "High" then Some(High)
    else if s == "Medium" then Some(Medium)
    else if s == "Low" then Some(Low)
    else if s == "Informational" then Some(Informational)
    else None
  }

  lemma TriggerOperatorRoundTrip(t: TriggerOperator)
    ensures ParseTriggerOperator(TriggerOperatorName(t)) == Some(t)
  {
  }

  lemma SeverityRoundTrip(s: AlertSeverity)
    ensures ParseSeverity(SeverityName(s)) == Some(s)
  {
  }

  /** `AttackTactic`. */
  const ATTACK_TACTICS: set<string> := {
    "Collection", "CommandAndControl", "CredentialAccess", "DefenseEvasion", "Discovery",
    "Execution", "Exfiltration", "Impact", "ImpairProcessControl", "InhibitResponseFunction",
    "InitialAccess", "LateralMovement", "Persistence", "PreAttack", "PrivilegeEscalation",
    "Reconnaissance", "ResourceDevelopment"}

  /** The interval `queryFrequency` and `queryPeriod` default to. */
  const DEFAULT_INTERVAL: string := "PT1H"

  /** `ScheduledAlertRuleProperties`. Field names follow the Python attributes:
      `querySuffix` is the attribute `query_suffix`, which the input key
      "queryPrefix" populates, and `queryPrefix` is `query_prefix`, populated by
      "querySuffix". Both are excluded from the serialised payload. */
  datatype ScheduledAlertRuleProperties = ScheduledAlertRuleProperties(
    displayName: string,
    enabled: bool,
    query: string,
    querySuffix: string,
    queryPrefix: string,
    queryFrequency: string,
    queryPeriod: string,
    suppressionDuration: string,
    suppressionEnabled: bool,
    triggerOperator: TriggerOperator,
    triggerThreshold: int,
    severity: AlertSeverity,
    alertDetailsOverride: Option<map<string, Json>>,
    alertRuleTemplateName: Option<string>,
    customDetails: Option<map<string, string>>,
    description: Option<string>,
    entityMappings: seq<map<string, Json>>,
    eventGroupingSettings: Option<map<string, Json>>,
    incidentConfiguration: Option<map<string, Json>>,
    tactics: seq<string>,
    techniques: seq<string>,
    templateVersion: Option<string>,
    extra: map<string, Json>)

  /** `CreateScheduledAlertRule`; its `kind` is always the literal "Scheduled". */
  datatype CreateScheduledAlertRule = CreateScheduledAlertRule(
    properties: ScheduledAlertRuleProperties,
    extra: map<string, Json>)

  /** The input keys the properties model recognises (its aliases). */
  const PROPERTY_KEYS: set<string> := {
    "displayName", "enabled", "query", "queryPrefix", "querySuffix", "queryFrequency",
    "queryPeriod", "suppressionDuration", "suppressionEnabled", "triggerOperator",
    "triggerThreshold", "severity", "alertDetailsOverride", "alertRuleTemplateName",
    "customDetails", "description", "entityMappings", "eventGroupingSettings",
    "incidentConfiguration", "tactics", "techniques", "templateVersion"}

  const RULE_KEYS: set<string> := {"kind", "properties"}

  /** One validation failure: where, and what was wrong. */
  datatype FieldError = FieldError(location: string, problem: string)

  /** The text of a validation failure as the status message carries it. */
  function ValidationMessage(model: string, e: FieldError): string {
    "1 validation error for " + model + "\n" + e.location + "\n  " + e.problem
  }

  // ---------------------------------------------------------------------------
  // Field readers

  function Missing<T>(key: string): Result<T, FieldError> {
    Err(FieldError(key, "Field required"))
  }

  function Mistyped<T>(key: string, expected: string): Result<T, FieldError> {
    Err(FieldError(key, "Input should be " + expected))
  }

  function RequiredString(o: map<string, Json>, key: string): (r: Result<string, FieldError>)
    ensures r.Ok? <==> key in o && o[key].JStr?
    ensures r.Ok? ==> o[key] == JStr(r.value)
  {
    if key !in o then Missing(key)
    else if o[key].JStr? then Ok(o[key].s)
    else Mistyped(key, "a valid string")
  }

  function StringOr(o: map<string, Json>, key: string, default: string): (r: Result<string, FieldError>)
    ensures r.Ok? <==> key !in o || o[key].JStr?
    ensures r.Ok? ==> if key in o then o[key] == JStr(r.value) else r.value == default
  {
    if key !in o then Ok(default)
    else if o[key].JStr? then Ok(o[key].s)
    else Mistyped(key, "a valid string")
  }

  function RequiredBool(o: map<string, Json>, key: string): (r: Result<bool, FieldError>)
    ensures r.Ok? <==> key in o && o[key].JBool?
    ensures r.Ok? ==> o[key] == JBool(r.value)
  {
    if key !in o then Missing(key)
    else if o[key].JBool? then Ok(o[key].b)
    else Mistyped(key, "a valid boolean")
  }

  function RequiredInt(o: map<string, Json>, key: string): (r: Result<int, FieldError>)
    ensures r.Ok? <==> key in o && o[key].JInt?
    ensures r.Ok? ==> o[key] == JInt(r.value)
  {
    if key !in o then Missing(key)
    else if o[key].JInt? then Ok(o[key].i)
    else Mistyped(key, "a valid integer")
  }

  function RequiredChoice<T>(o: map<string, Json>, key: string, parse: string -> Option<T>): (r: Result<T, FieldError>)
    ensures r.Ok? <==> key in o && o[key].JStr? && parse(o[key].s).Some?
    ensures r.Ok? ==> parse(o[key].s) == Some(r.value)
  {
    if key !in o then Missing(key)
    else if o[key].JStr? && parse(o[key].s).Some? then Ok(parse(o[key].s).value)
    else Mistyped(key, "one of the allowed literals")
  }

  /** An optional string: absent and null both give None. */
  function OptionalString(o: map<string, Json>, key: string): (r: Result<Option<string>, FieldError>)
    ensures r.Ok? <==> key !in o || o[key].JNull? || o[key].JStr?
    ensures key !in o ==> r == Ok(None)
    ensures r.Ok? && r.value.Some? ==> key in o && o[key] == JStr(r.value.value)
  {
    if key !in o || o[key].JNull? then Ok(None)
    else if o[key].JStr? then Ok(Some(o[key].s))
    else Mistyped(key, "a valid string")
  }

  /** An optional nested model: absent and null give None, an object is kept as given. */
  function OptionalObject(o: map<string, Json>, key: string): (r: Result<Option<map<string, Json>>, FieldError>)
    ensures r.Ok? <==> key !in o || o[key].JNull? || o[key].JObj?
    ensures key !in o ==> r == Ok(None)
    ensures r.Ok? && r.value.Some? ==> key in o && o[key] == JObj(r.value.value)
  {
    if key !in o || o[key].JNull? then Ok(None)
    else if o[key].JObj? then Ok(Some(o[key].fields))
    else Mistyped(key, "a valid dictionary or instance of a model")
  }

  predicate StringValued(m: map<string, Json>) {
    forall k :: k in m ==> m[k].JStr?
  }

  function OptionalStringMap(o: map<string, Json>, key: string): (r: Result<Option<map<string, string>>, FieldError>)
    ensures r.Ok? <==> key !in o || o[key].JNull? || (o[key].JObj? && StringValued(o[key].fields))
    ensures key !in o ==> r == Ok(None)
    ensures r.Ok? && r.value.Some? ==> key in o && o[key].JObj? && forall k :: k in o[key].fields <==> k in r.value.value
  {
    if key !in o || o[key].JNull? then Ok(None)
    else if o[key].JObj? && StringValued(o[key].fields) then
      Ok(Some(map k | k in o[key].fields :: o[key].fields[k].s))
    else Mistyped(key, "a valid dictionary of strings")
  }

  /** Every item is a string that `allowed` admits. */
  predicate AllStrings(items: seq<Json>, allowed: string -> bool) {
    forall i :: 0 <= i < |items| ==> items[i].JStr? && allowed(items[i].s)
  }

  /** Every item is an object. */
  predicate AllObjects(items: seq<Json>) {
    forall i :: 0 <= i < |items| ==> items[i].JObj?
  }

  /** The strings of a JSON array whose items are all strings from `allowed`. */
  function Strings(items: seq<Json>, allowed: string -> bool): (r: Option<seq<string>>)
    ensures r.Some? <==> AllStrings(items, allowed)
    ensures r.Some? ==> |r.value| == |items|
    ensures r.Some? ==> forall i :: 0 <= i < |items| ==> items[i] == JStr(r.value[i]) && allowed(r.value[i])
    decreases |items|
  {
    if |items| == 0 then Some([])
    else if items[0].JStr? && allowed(items[0].s) then
      match Strings(items[1..], allowed)
      case Some(rest) => Some([items[0].s] + rest)
      case None => None
    else None
  }

  function Objects(items: seq<Json>): (r: Option<seq<map<string, Json>>>)
    ensures r.Some? <==> AllObjects(items)
    ensures r.Some? ==> |r.value| == |items|
    ensures r.Some? ==> forall i :: 0 <= i < |items| ==> items[i] == JObj(r.value[i])
    decreases |items|
  {
    if |items| == 0 then Some([])
    else if items[0].JObj? then
      match Objects(items[1..])
      case Some(rest) => Some([items[0].fields] + rest)
      case None => None
    else None
  }

  /** A list of strings defaulting to the empty list. */
  function StringList(o: map<string, Json>, key: string, allowed: string -> bool): (r: Result<seq<string>, FieldError>)
    ensures r.Ok? <==> key !in o || (o[key].JArr? && AllStrings(o[key].items, allowed))
    ensures key !in o ==> r == Ok([])
    ensures r.Ok? && key in o ==> o[key] == JArr(StringsJson(r.value))
  {
    if key !in o then Ok([])
    else if o[key].JArr? && Strings(o[key].items, allowed).Some? then Ok(Strings(o[key].items, allowed).value)
    else Mistyped(key, "a valid list")
  }

  /** A list of nested models defaulting to the empty list. */
  function ObjectList(o: map<string, Json>, key: string): (r: Result<seq<map<string, Json>>, FieldError>)
    ensures r.Ok? <==> key !in o || (o[key].JArr? && AllObjects(o[key].items))
    ensures key !in o ==> r == Ok([])
    ensures r.Ok? && key in o ==> o[key] == JArr(ObjectsJson(r.value))
  {
    if key !in o then Ok([])
    else if o[key].JArr? && Objects(o[key].items).Some? then Ok(Objects(o[key].items).value)
    else Mistyped(key, "a valid list")
  }

  predicate IsTactic(s: string) {
    s in ATTACK_TACTICS
  }

  predicate AnyString(s: string) {
    true
  }

  /** Keys of `o` that no field claims: kept as extra fields. */
  function Extras(o: map<string, Json>, known: set<string>): (r: map<string, Json>)
    ensures forall k :: k in r <==> k in o && k !in known
    ensures forall k :: k in r ==> r[k] == o[k]
  {
    map k | k in o && k !in known :: o[k]
  }

  /** What every validated properties value satisfies: its extra keys are
      unknown ones and its tactics are attack tactics. */
  predicate WellFormedProperties(p: ScheduledAlertRuleProperties) {
    && (forall k :: k in p.extra ==> k !in PROPERTY_KEYS)
    && (forall i :: 0 <= i < |p.tactics| ==> p.tactics[i] in ATTACK_TACTICS)
  }

  predicate WellFormedRule(rule: CreateScheduledAlertRule) {
    && WellFormedProperties(rule.properties)
    && (forall k :: k in rule.extra ==> k !in RULE_KEYS)
  }

  // ---------------------------------------------------------------------------
  // What validation accepts, stated on the JSON alone

  predicate HasString(o: map<string, Json>, key: string) {
    key in o && o[key].JStr?
  }

  predicate HasBool(o: map<string, Json>, key: string) {
    key in o && o[key].JBool?
  }

  predicate HasInt(o: map<string, Json>, key: string) {
    key in o && o[key].JInt?
  }

  /** A string naming one of `names`. */
  predicate HasName(o: map<string, Json>, key: string, names: set<string>) {
    key in o && o[key].JStr? && o[key].s in names
  }

  /** A string field with a default: absent or a string. */
  predicate MayHaveString(o: map<string, Json>, key: string) {
    key !in o || o[key].JStr?
  }

  /** An optional string field: absent, null or a string. */
  predicate NullableString(o: map<string, Json>, key: string) {
    key !in o || o[key].JNull? || o[key].JStr?
  }

  /** An optional nested model: absent, null or an object. */
  predicate NullableObject(o: map<string, Json>, key: string) {
    key !in o || o[key].JNull? || o[key].JObj?
  }

  /** An optional dictionary of strings: absent, null or an object of strings. */
  predicate NullableStringMap(o: map<string, Json>, key: string) {
    key !in o || o[key].JNull? || (o[key].JObj? && StringValued(o[key].fields))
  }

  /** A list field with a default: absent, or an array (null is refused). */
  predicate MayHaveStrings(o: map<string, Json>, key: string, allowed: string -> bool) {
    key !in o || (o[key].JArr? && AllStrings(o[key].items, allowed))
  }

  predicate MayHaveObjects(o: map<string, Json>, key: string) {
    key !in o || (o[key].JArr? && AllObjects(o[key].items))
  }

  predicate QueryFieldsValid(o: map<string, Json>) {
    && HasString(o, "displayName") && HasBool(o, "enabled") && HasString(o, "query")
    && MayHaveString(o, "queryPrefix") && MayHaveString(o, "querySuffix")
    && MayHaveString(o, "queryFrequency") && MayHaveString(o, "queryPeriod")
  }

  predicate AlertFieldsValid(o: map<string, Json>) {
    && HasString(o, "suppressionDuration") && HasBool(o, "suppressionEnabled")
    && HasName(o, "triggerOperator", TRIGGER_OPERATOR_NAMES) && HasInt(o, "triggerThreshold")
    && HasName(o, "severity", SEVERITY_NAMES)
  }

  predicate DetailFieldsValid(o: map<string, Json>) {
    && NullableObject(o, "alertDetailsOverride") && NullableString(o, "alertRuleTemplateName")
    && NullableStringMap(o, "customDetails") && NullableString(o, "description")
    && MayHaveObjects(o, "entityMappings")
  }

  predicate GroupingFieldsValid(o: map<string, Json>) {
    && NullableObject(o, "eventGroupingSettings") && NullableObject(o, "incidentConfiguration")
    && MayHaveStrings(o, "tactics", IsTactic) && MayHaveStrings(o, "techniques", AnyString)
    && NullableString(o, "templateVersion")
  }

  /** A properties object `ScheduledAlertRuleProperties` accepts: every field
      present with the right JSON type where required, absent or well typed where
      optional; keys outside the model are allowed and never cause a failure. */
  predicate PropertiesValid(o: map<string, Json>) {
    QueryFieldsValid(o) && AlertFieldsValid(o) && DetailFieldsValid(o) && GroupingFieldsValid(o)
  }

  /** A specification `CreateScheduledAlertRule` accepts. */
  predicate RuleValid(spec: map<string, Json>) {
    && ("kind" !in spec || spec["kind"] == JStr("Scheduled"))
    && "properties" in spec && spec["properties"].JObj?
    && PropertiesValid(spec["properties"].fields)
  }

  // ---------------------------------------------------------------------------
  // Validation

  /** The fields of `ScheduledAlertRuleProperties` up to the query period, as
      the first stretch of validation reads them. */
  datatype QueryFields = QueryFields(
    displayName: string, enabled: bool, query: string, querySuffix: string, queryPrefix: string,
    queryFrequency: string, queryPeriod: string)

  function ParseQueryFields(o: map<string, Json>): (r: Result<QueryFields, FieldError>)
    ensures r.Ok? <==> QueryFieldsValid(o)
    ensures r.Ok? ==> o["query"] == JStr(r.value.query)
    ensures r.Ok? ==> if "queryPrefix" in o then o["queryPrefix"] == JStr(r.value.querySuffix) else r.value.querySuffix == ""
    ensures r.Ok? ==> if "querySuffix" in o then o["querySuffix"] == JStr(r.value.queryPrefix) else r.value.queryPrefix == ""
    ensures r.Ok? && "queryFrequency" !in o ==> r.value.queryFrequency == DEFAULT_INTERVAL
    ensures r.Ok? && "queryPeriod" !in o ==> r.value.queryPeriod == DEFAULT_INTERVAL
  {
    var displayName :- RequiredString(o, "displayName");
    var enabled :- RequiredBool(o, "enabled");
    var query :- RequiredString(o, "query");
    var querySuffix :- StringOr(o, "queryPrefix", "");
    var queryPrefix :- StringOr(o, "querySuffix", "");
    var queryFrequency :- StringOr(o, "queryFrequency", DEFAULT_INTERVAL);
    var queryPeriod :- StringOr(o, "queryPeriod", DEFAULT_INTERVAL);
    Ok(QueryFields(displayName, enabled, query, querySuffix, queryPrefix, queryFrequency, queryPeriod))
  }

  /** The required alerting fields. */
  datatype AlertFields = AlertFields(
    suppressionDuration: string, suppressionEnabled: bool, triggerOperator: TriggerOperator,
    triggerThreshold: int, severity: AlertSeverity)

  function ParseAlertFields(o: map<string, Json>): (r: Result<AlertFields, FieldError>)
    ensures r.Ok? <==> AlertFieldsValid(o)
    ensures r.Ok? ==> o["severity"] == JStr(SeverityName(r.value.severity))
    ensures r.Ok? ==> o["triggerOperator"] == JStr(TriggerOperatorName(r.value.triggerOperator))
  {
    var suppressionDuration :- RequiredString(o, "suppressionDuration");
    var suppressionEnabled :- RequiredBool(o, "suppressionEnabled");
    var triggerOperator :- RequiredChoice(o, "triggerOperator", ParseTriggerOperator);
    var triggerThreshold :- RequiredInt(o, "triggerThreshold");
    var severity :- RequiredChoice(o, "severity", ParseSeverity);
    Ok(AlertFields(suppressionDuration, suppressionEnabled, triggerOperator, triggerThreshold, severity))
  }

  /** The first half of the optional fields. */
  datatype DetailFields = DetailFields(
    alertDetailsOverride: Option<map<string, Json>>, alertRuleTemplateName: Option<string>,
    customDetails: Option<map<string, string>>, description: Option<string>,
    entityMappings: seq<map<string, Json>>)

  function ParseDetailFields(o: map<string, Json>): (r: Result<DetailFields, FieldError>)
    ensures r.Ok? <==> DetailFieldsValid(o)
    ensures "alertDetailsOverride" !in o && "alertRuleTemplateName" !in o && "customDetails" !in o
            && "description" !in o && "entityMappings" !in o
            ==> r == Ok(DetailFields(None, None, None, None, []))
    ensures r.Ok? && "alertDetailsOverride" !in o ==> r.value.alertDetailsOverride == None
    ensures r.Ok? && "alertRuleTemplateName" !in o ==> r.value.alertRuleTemplateName == None
    ensures r.Ok? && "customDetails" !in o ==> r.value.customDetails == None
    ensures r.Ok? && "description" !in o ==> r.value.description == None
    ensures r.Ok? && "entityMappings" !in o ==> r.value.entityMappings == []
  {
    var alertDetailsOverride :- OptionalObject(o, "alertDetailsOverride");
    var alertRuleTemplateName :- OptionalString(o, "alertRuleTemplateName");
    var customDetails :- OptionalStringMap(o, "customDetails");
    var description :- OptionalString(o, "description");
    var entityMappings :- ObjectList(o, "entityMappings");
    Ok(DetailFields(alertDetailsOverride, alertRuleTemplateName, customDetails, description, entityMappings))
  }

  /** The second half of the optional fields. */
  datatype GroupingFields = GroupingFields(
    eventGroupingSettings: Option<map<string, Json>>, incidentConfiguration: Option<map<string, Json>>,
    tactics: seq<string>, techniques: seq<string>, templateVersion: Option<string>)

  function ParseGroupingFields(o: map<string, Json>): (r: Result<GroupingFields, FieldError>)
    ensures r.Ok? <==> GroupingFieldsValid(o)
    ensures "eventGroupingSettings" !in o && "incidentConfiguration" !in o && "tactics" !in o
            && "techniques" !in o && "templateVersion" !in o
            ==> r == Ok(GroupingFields(None, None, [], [], None))
    ensures r.Ok? && "eventGroupingSettings" !in o ==> r.value.eventGroupingSettings == None
    ensures r.Ok? && "incidentConfiguration" !in o ==> r.value.incidentConfiguration == None
    ensures r.Ok? && "tactics" !in o ==> r.value.tactics == []
    ensures r.Ok? && "techniques" !in o ==> r.value.techniques == []
    ensures r.Ok? && "templateVersion" !in o ==> r.value.templateVersion == None
    ensures r.Ok? ==> forall i :: 0 <= i < |r.value.tactics| ==> r.value.tactics[i] in ATTACK_TACTICS
  {
    var eventGroupingSettings :- OptionalObject(o, "eventGroupingSettings");
    var incidentConfiguration :- OptionalObject(o, "incidentConfiguration");
    var tactics :- StringList(o, "tactics", IsTactic);
    var techniques :- StringList(o, "techniques", AnyString);
    var templateVersion :- OptionalString(o, "templateVersion");
    Ok(GroupingFields(eventGroupingSettings, incidentConfiguration, tactics, techniques, templateVersion))
  }

  /** `ScheduledAlertRuleProperties.model_validate` of a properties object. The
      fields are checked in declaration order and the first failure is
      reported. */
  function ParseProperties(o: map<string, Json>): (r: Result<ScheduledAlertRuleProperties, FieldError>)
    // when validation succeeds; in particular a missing required field fails it
    ensures r.Ok? <==> PropertiesValid(o)
    ensures ("displayName" !in o || "enabled" !in o || "query" !in o || "suppressionDuration" !in o
             || "suppressionEnabled" !in o || "triggerOperator" !in o || "triggerThreshold" !in o
             || "severity" !in o) ==> r.Err?
    // defaults
    ensures r.Ok? && "queryFrequency" !in o ==> r.value.queryFrequency == DEFAULT_INTERVAL
    ensures r.Ok? && "queryPeriod" !in o ==> r.value.queryPeriod == DEFAULT_INTERVAL
    ensures r.Ok? && "entityMappings" !in o ==> r.value.entityMappings == []
    ensures r.Ok? && "tactics" !in o ==> r.value.tactics == []
    ensures r.Ok? && "techniques" !in o ==> r.value.techniques == []
    ensures r.Ok? && "alertDetailsOverride" !in o ==> r.value.alertDetailsOverride == None
    ensures r.Ok? && "alertRuleTemplateName" !in o ==> r.value.alertRuleTemplateName == None
    ensures r.Ok? && "customDetails" !in o ==> r.value.customDetails == None
    ensures r.Ok? && "description" !in o ==> r.value.description == None
    ensures r.Ok? && "eventGroupingSettings" !in o ==> r.value.eventGroupingSettings == None
    ensures r.Ok? && "incidentConfiguration" !in o ==> r.value.incidentConfiguration == None
    ensures r.Ok? && "templateVersion" !in o ==> r.value.templateVersion == None
    // the swapped aliases of the query prefix and suffix, which default to ""
    ensures r.Ok? ==> if "queryPrefix" in o then o["queryPrefix"] == JStr(r.value.querySuffix) else r.value.querySuffix == ""
    ensures r.Ok? ==> if "querySuffix" in o then o["querySuffix"] == JStr(r.value.queryPrefix) else r.value.queryPrefix == ""
    // the query itself is taken verbatim
    ensures r.Ok? ==> o["query"] == JStr(r.value.query)
    // unknown keys are kept, and only they
    ensures r.Ok? ==> forall k :: k in r.value.extra <==> k in o && k !in PROPERTY_KEYS
    ensures r.Ok? ==> forall k :: k in r.value.extra ==> r.value.extra[k] == o[k]
    ensures r.Ok? ==> WellFormedProperties(r.value)
  {
    var q :- ParseQueryFields(o);
    var a :- ParseAlertFields(o);
    var d :- ParseDetailFields(o);
    var g :- ParseGroupingFields(o);
    Ok(ScheduledAlertRuleProperties(
         q.displayName, q.enabled, q.query, q.querySuffix, q.queryPrefix, q.queryFrequency, q.queryPeriod,
         a.suppressionDuration, a.suppressionEnabled, a.triggerOperator, a.triggerThreshold, a.severity,
         d.alertDetailsOverride, d.alertRuleTemplateName, d.customDetails, d.description, d.entityMappings,
         g.eventGroupingSettings, g.incidentConfiguration, g.tactics, g.techniques, g.templateVersion,
         Extras(o, PROPERTY_KEYS)))
  }

  function Nested<T>(prefix: string, r: Result<T, FieldError>): Result<T, FieldError> {
    match r
    case Ok(v) => Ok(v)
    case Err(e) => Err(FieldError(prefix + "." + e.location, e.problem))
  }

  /** `CreateScheduledAlertRule.model_validate` of a rule specification. */
  function ParseRule(spec: map<string, Json>): (r: Result<CreateScheduledAlertRule, FieldError>)
    ensures r.Ok? <==> RuleValid(spec)
    ensures "kind" in spec && spec["kind"] != JStr("Scheduled") ==> r.Err?
    ensures "properties" !in spec ==> r.Err?
    ensures r.Ok? ==> "properties" in spec && spec["properties"].JObj?
                      && ParseProperties(spec["properties"].fields) == Ok(r.value.properties)
    ensures r.Ok? ==> forall k :: k in r.value.extra <==> k in spec && k !in RULE_KEYS
    ensures r.Ok? ==> forall k :: k in r.value.extra ==> r.value.extra[k] == spec[k]
    ensures r.Ok? ==> WellFormedRule(r.value)
  {
    if "kind" in spec && spec["kind"] != JStr("Scheduled") then
      Err(FieldError("kind", "Input should be 'Scheduled'"))
    else if "properties" !in spec then Missing("properties")
    else if !spec["properties"].JObj? then Mistyped("properties", "a valid dictionary or instance of a model")
    else
      var properties :- Nested("properties", ParseProperties(spec["properties"].fields));
      Ok(CreateScheduledAlertRule(properties, Extras(spec, RULE_KEYS)))
  }

  // ---------------------------------------------------------------------------
  // Serialisation

  function OptionalStringJson(s: Option<string>): (j: Json)
    ensures j.JNull? || j.JStr?
  {
    match s
    case Some(v) => JStr(v)
    case None => JNull
  }

  function OptionalObjectJson(o: Option<map<string, Json>>): (j: Json)
    ensures j.JNull? || j.JObj?
  {
    match o
    case Some(v) => JObj(v)
    case None => JNull
  }

  function StringMapJson(m: Option<map<string, string>>): (j: Json)
    ensures j.JNull? || (j.JObj? && StringValued(j.fields))
  {
    match m
    case Some(v) => JObj(map k | k in v :: JStr(v[k]))
    case None => JNull
  }

  function StringsJson(xs: seq<string>): (r: seq<Json>)
    ensures |r| == |xs| && forall i :: 0 <= i < |xs| ==> r[i] == JStr(xs[i])
    decreases |xs|
  {
    if |xs| == 0 then [] else [JStr(xs[0])] + StringsJson(xs[1..])
  }

  function ObjectsJson(xs: seq<map<string, Json>>): (r: seq<Json>)
    ensures |r| == |xs| && forall i :: 0 <= i < |xs| ==> r[i] == JObj(xs[i])
    decreases |xs|
  {
    if |xs| == 0 then [] else [JObj(xs[0])] + ObjectsJson(xs[1..])
  }

  /** `model_dump(by_alias=True)` of the properties: every field under its alias,
      None as null, then the extra fields; the query prefix and suffix are
      excluded. */
  function DumpProperties(p: ScheduledAlertRuleProperties): map<string, Json> {
    DumpFields(p) + p.extra
  }

  /** The aliases a serialised properties value carries: all of them but the
      query prefix and suffix. */
  const DUMPED_KEYS: set<string> := PROPERTY_KEYS - {"queryPrefix", "querySuffix"}

  /** The serialised value of the field under alias `key`. Each alias is
      tested by its length first, which spares the verifier most comparisons
      of whole strings. */
  function DumpedValue(p: ScheduledAlertRuleProperties, key: string): Json {
    if |key| == 11 && key == "displayName" then JStr(p.displayName)
    else if |key| == 7 && key == "enabled" then JBool(p.enabled)
    else if |key| == 5 && key == "query" then JStr(p.query)
    else if |key| == 14 && key == "queryFrequency" then JStr(p.queryFrequency)
    else if |key| == 11 && key == "queryPeriod" then JStr(p.queryPeriod)
    else if |key| == 19 && key == "suppressionDuration" then JStr(p.suppressionDuration)
    else if |key| == 18 && key == "suppressionEnabled" then JBool(p.suppressionEnabled)
    else if |key| == 15 && key == "triggerOperator" then JStr(TriggerOperatorName(p.triggerOperator))
    else if |key| == 16 && key == "triggerThreshold" then JInt(p.triggerThreshold)
    else if |key| == 8 && key == "severity" then JStr(SeverityName(p.severity))
    else if |key| == 20 && key == "alertDetailsOverride" then OptionalObjectJson(p.alertDetailsOverride)
    else if |key| == 21 && key == "alertRuleTemplateName" then OptionalStringJson(p.alertRuleTemplateName)
    else if |key| == 13 && key == "customDetails" then StringMapJson(p.customDetails)
    else if |key| == 11 && key == "description" then OptionalStringJson(p.description)
    else if |key| == 14 && key == "entityMappings" then JArr(ObjectsJson(p.entityMappings))
    else if |key| == 21 && key == "eventGroupingSettings" then OptionalObjectJson(p.eventGroupingSettings)
    else if |key| == 21 && key == "incidentConfiguration" then OptionalObjectJson(p.incidentConfiguration)
    else if |key| == 7 && key == "tactics" then JArr(StringsJson(p.tactics))
    else if |key| == 10 && key == "techniques" then JArr(StringsJson(p.techniques))
    else if |key| == 15 && key == "templateVersion" then OptionalStringJson(p.templateVersion)
    else JNull
  }

  /** The declared fields of a properties value, under their aliases. */
  function DumpFields(p: ScheduledAlertRuleProperties): map<string, Json> {
    map k | k in DUMPED_KEYS :: DumpedValue(p, k)
  }

  /** `model_dump(by_alias=True)` of the whole payload. */
  function DumpRule(rule: CreateScheduledAlertRule): Json {
    JObj(rule.extra + map["kind" := JStr("Scheduled"), "properties" := JObj(DumpProperties(rule.properties))])
  }

  // ---------------------------------------------------------------------------
  // Round trip

  /** The serialised payload carries neither the query prefix nor the query
      suffix. */
  lemma PayloadOmitsQueryAffixes(p: ScheduledAlertRuleProperties)
    requires WellFormedProperties(p)
    ensures "queryPrefix" !in DumpProperties(p) && "querySuffix" !in DumpProperties(p)
  {
    assert "queryPrefix" !in DumpFields(p) && "querySuffix" !in DumpFields(p);
    assert "queryPrefix" in PROPERTY_KEYS && "querySuffix" in PROPERTY_KEYS;
  }

  /** The serialised payload carries the query verbatim and every extra field. */
  lemma PayloadKeepsQueryAndExtras(p: ScheduledAlertRuleProperties)
    requires WellFormedProperties(p)
    ensures var d := DumpProperties(p);
      && "query" in d && d["query"] == JStr(p.query)
      && forall k :: k in p.extra ==> k in d && d[k] == p.extra[k]
  {
    assert "query" in DumpFields(p) && DumpFields(p)["query"] == JStr(p.query);
    assert "query" in PROPERTY_KEYS;
  }

  /** Reading back a dumped list of admitted strings gives the list. */
  lemma StringsRoundTrip(xs: seq<string>, allowed: string -> bool)
    requires forall i :: 0 <= i < |xs| ==> allowed(xs[i])
    ensures Strings(StringsJson(xs), allowed) == Some(xs)
  {
    var r := Strings(StringsJson(xs), allowed);
    assert r.Some?;
    assert r.value == xs;
  }

  /** `o` holds the serialised value of every declared field but the query
      prefix and suffix. */
  predicate HoldsDumpedFields(o: map<string, Json>, p: ScheduledAlertRuleProperties) {
    forall k :: k in DUMPED_KEYS ==> k in o && o[k] == DumpedValue(p, k)
  }

  /** The serialised properties hold every dumped field: no extra key shadows
      one, and they leave out the query prefix and suffix. */
  lemma DumpHoldsFields(p: ScheduledAlertRuleProperties)
    requires WellFormedProperties(p)
    ensures HoldsDumpedFields(DumpProperties(p), p)
    ensures "queryPrefix" !in DumpProperties(p) && "querySuffix" !in DumpProperties(p)
  {
    PayloadOmitsQueryAffixes(p);
  }

  /** The serialised properties pass validation: every declared field is
      dumped with the JSON type its reader takes, and the extra fields are
      keys validation ignores. */
  lemma DumpIsValid(p: ScheduledAlertRuleProperties)
    requires WellFormedProperties(p)
    ensures PropertiesValid(DumpProperties(p))
  {
    var d := DumpProperties(p);
    DumpHoldsFields(p);
    DumpedQueryFieldsValid(d, p);
    DumpedAlertFieldsValid(d, p);
    DumpedDetailFieldsValid(d, p);
    DumpedGroupingFieldsValid(d, p);
  }

  // Each group of fields is valid in any object holding the dumped fields.

  lemma DumpedQueryFieldsValid(o: map<string, Json>, p: ScheduledAlertRuleProperties)
    requires HoldsDumpedFields(o, p)
    requires "queryPrefix" !in o && "querySuffix" !in o
    ensures QueryFieldsValid(o)
  {
    QueryKeysDumped();
    DumpedQueryValues(p);
  }

  lemma DumpedAlertFieldsValid(o: map<string, Json>, p: ScheduledAlertRuleProperties)
    requires HoldsDumpedFields(o, p)
    ensures AlertFieldsValid(o)
  {
    AlertKeysDumped();
    DumpedAlertValues(p);
  }

  lemma DumpedDetailFieldsValid(o: map<string, Json>, p: ScheduledAlertRuleProperties)
    requires HoldsDumpedFields(o, p)
    ensures DetailFieldsValid(o)
  {
    DetailKeysDumped();
    DumpedDetailValues(p);
  }

  lemma DumpedGroupingFieldsValid(o: map<string, Json>, p: ScheduledAlertRuleProperties)
    requires HoldsDumpedFields(o, p)
    requires forall i :: 0 <= i < |p.tactics| ==> p.tactics[i] in ATTACK_TACTICS
    ensures GroupingFieldsValid(o)
  {
    GroupingKeysDumped();
    DumpedGroupingValues(p);
    DumpedTagFieldsValid(o, p);
  }

  lemma DumpedTagFieldsValid(o: map<string, Json>, p: ScheduledAlertRuleProperties)
    requires HoldsDumpedFields(o, p)
    requires forall i :: 0 <= i < |p.tactics| ==> p.tactics[i] in ATTACK_TACTICS
    ensures MayHaveStrings(o, "tactics", IsTactic) && MayHaveStrings(o, "techniques", AnyString)
  {
    assert "tactics" in DUMPED_KEYS && "techniques" in DUMPED_KEYS;
    DumpedTagValues(p);
  }

  // Which aliases are dumped, and the dumped value of each, one group at a time.

  lemma QueryKeysDumped()
    ensures "displayName" in DUMPED_KEYS && "enabled" in DUMPED_KEYS && "query" in DUMPED_KEYS
    ensures "queryFrequency" in DUMPED_KEYS && "queryPeriod" in DUMPED_KEYS
  {
  }

  lemma AlertKeysDumped()
    ensures "suppressionDuration" in DUMPED_KEYS && "suppressionEnabled" in DUMPED_KEYS
    ensures "triggerOperator" in DUMPED_KEYS && "triggerThreshold" in DUMPED_KEYS
    ensures "severity" in DUMPED_KEYS
  {
  }

  lemma DetailKeysDumped()
    ensures "alertDetailsOverride" in DUMPED_KEYS && "alertRuleTemplateName" in DUMPED_KEYS
    ensures "customDetails" in DUMPED_KEYS && "description" in DUMPED_KEYS
    ensures "entityMappings" in DUMPED_KEYS
  {
  }

  lemma GroupingKeysDumped()
    ensures "eventGroupingSettings" in DUMPED_KEYS && "incidentConfiguration" in DUMPED_KEYS
    ensures "tactics" in DUMPED_KEYS && "techniques" in DUMPED_KEYS
    ensures "templateVersion" in DUMPED_KEYS
  {
  }

  lemma DumpedQueryValues(p: ScheduledAlertRuleProperties)
    ensures DumpedValue(p, "displayName") == JStr(p.displayName)
    ensures DumpedValue(p, "enabled") == JBool(p.enabled)
    ensures DumpedValue(p, "query") == JStr(p.query)
    ensures DumpedValue(p, "queryFrequency") == JStr(p.queryFrequency)
    ensures DumpedValue(p, "queryPeriod") == JStr(p.queryPeriod)
  {
  }

  lemma DumpedAlertValues(p: ScheduledAlertRuleProperties)
    ensures DumpedValue(p, "suppressionDuration") == JStr(p.suppressionDuration)
    ensures DumpedValue(p, "suppressionEnabled") == JBool(p.suppressionEnabled)
    ensures DumpedValue(p, "triggerOperator") == JStr(TriggerOperatorName(p.triggerOperator))
    ensures DumpedValue(p, "triggerThreshold") == JInt(p.triggerThreshold)
    ensures DumpedValue(p, "severity") == JStr(SeverityName(p.severity))
  {
  }

  lemma DumpedDetailValues(p: ScheduledAlertRuleProperties)
    ensures DumpedValue(p, "alertDetailsOverride") == OptionalObjectJson(p.alertDetailsOverride)
    ensures DumpedValue(p, "alertRuleTemplateName") == OptionalStringJson(p.alertRuleTemplateName)
    ensures DumpedValue(p, "customDetails") == StringMapJson(p.customDetails)
    ensures DumpedValue(p, "description") == OptionalStringJson(p.description)
    ensures DumpedValue(p, "entityMappings") == JArr(ObjectsJson(p.entityMappings))
  {
  }

  lemma DumpedGroupingValues(p: ScheduledAlertRuleProperties)
    ensures DumpedValue(p, "eventGroupingSettings") == OptionalObjectJson(p.eventGroupingSettings)
    ensures DumpedValue(p, "incidentConfiguration") == OptionalObjectJson(p.incidentConfiguration)
    ensures DumpedValue(p, "templateVersion") == OptionalStringJson(p.templateVersion)
  {
  }

  lemma DumpedTagValues(p: ScheduledAlertRuleProperties)
    ensures DumpedValue(p, "tactics") == JArr(StringsJson(p.tactics))
    ensures DumpedValue(p, "techniques") == JArr(StringsJson(p.techniques))
  {
  }

  /** Validating a serialised properties value again succeeds and gives back
      its query and its extra fields, while the query prefix and suffix, left
      out of the payload, come back as their defaults. */
  lemma RevalidatedPayload(p: ScheduledAlertRuleProperties)
    requires WellFormedProperties(p)
    ensures var r := ParseProperties(DumpProperties(p));
      && r.Ok?
      && r.value.query == p.query
      && r.value.querySuffix == "" && r.value.queryPrefix == ""
      && forall k :: k in p.extra ==> k in r.value.extra && r.value.extra[k] == p.extra[k]
  {
    DumpIsValid(p);
    PayloadOmitsQueryAffixes(p);
    PayloadKeepsQueryAndExtras(p);
  }

  /** The serialised payload always names the kind "Scheduled" and carries the
      serialised properties, next to the rule's extra fields. */
  lemma PayloadKindIsScheduled(rule: CreateScheduledAlertRule)
    requires WellFormedRule(rule)
    ensures var d := DumpRule(rule).fields;
      && d["kind"] == JStr("Scheduled")
      && d["properties"] == JObj(DumpProperties(rule.properties))
      && forall k :: k in rule.extra ==> k in d && d[k] == rule.extra[k]
  {
    assert "kind" in RULE_KEYS && "properties" in RULE_KEYS;
  }
}
