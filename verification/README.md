# Rule synchronisation engine of dac-operator, modelled in Dafny

dac-operator is a Kubernetes operator. It keeps detection rules, written as
custom resources, in sync with two SIEM back ends: Microsoft Sentinel and
Splunk. This project models the part of the operator that decides, on every
timer tick, what to send upstream and what to write into a resource's status.
It covers:

- **The macro scanner** (`MacroScan`): finding `` `${name}` `` tokens in a
  query and replacing every token of one name.
- **Macro injection and the rule service** (`SentinelService`): looking up each
  referenced macro in the rule's namespace, substituting its content, and
  stopping at the first macro that is missing. Rule identifiers, query assembly
  (prefix, query, suffix), the upserts, removal, and the mapping of an upstream
  rule to its status are modelled here too.
- **The repositories** (`SentinelRepository`, `SplunkRepository`): how each
  HTTP reply is classified as a success, an absent rule, a tolerated conflict or
  a raised error. Every Sentinel operation first exchanges credentials for a
  token.
- **The data models** (`SentinelModels`): validation of an analytic rule
  specification. This covers defaults, the swapped `queryPrefix`/`querySuffix`
  aliases and extra keys. It also covers the rule's serialisation by alias,
  without prefix and suffix.
- **Configuration resolution** (`Providers`): how a namespace's configuration
  map and secret become a service, a skip, or an exception, including the
  `verify` flag.
- **The Splunk service** (`SplunkService`): create-if-absent.
- **The handlers** (`AnalyticRuleTimers`, `AutomationRuleTimers`,
  `DetectionRuleTimerHandlers`, sharing `Reconcile`): one pass of each timer or
  delete handler. A pass is modelled as the status it returns, or the exception
  that escapes, together with the cluster objects it read and the requests it
  sent, in order.

The cluster and the upstream endpoints are parameters:
- `Cluster` is a snapshot of config maps, secrets and macro objects.
- `Upstream` and `SplunkUpstream` are functions from a request to the reply it
  gets.

There is no I/O. Source paths below are relative to the repository root.

## Model

| member | source | states |
|---|---|---|
| MacroScan.UsedMacros | python/dac_operator/microsoft_sentinel/microsoft_sentinel_macro_service.py:6-9 | every name the scanner reports is a non-empty run of `[a-zA-Z-0-9]`; a text without the opening `` `${ `` reports none |
| MacroScan.TokenAtComplete | python/dac_operator/microsoft_sentinel/microsoft_sentinel_macro_service.py:6 | a text that starts with the token of a valid name is recognised as that name's token, whatever follows |
| MacroScan.UsedMacrosAfterToken | python/dac_operator/microsoft_sentinel/microsoft_sentinel_macro_service.py:8-9 | a leading token contributes its name first, and the scan continues after the token |
| MacroScan.UsedMacrosSkipsPlain | python/dac_operator/microsoft_sentinel/microsoft_sentinel_macro_service.py:8-9 | text without backticks contributes no names and does not disturb the scan of what follows |
| MacroScan.UsedMacrosOfTemplate | python/dac_operator/microsoft_sentinel/microsoft_sentinel_macro_service.py:8-9 | for a text made of backtick-free text and tokens, the scan reports exactly the referenced names, in order and with repeats |
| MacroScan.NoOpeningNoMacros | python/dac_operator/microsoft_sentinel/microsoft_sentinel_macro_service.py:8-9 | a text that never contains `` `${ `` uses no macros |
| MacroScan.ReplaceMacro | python/dac_operator/microsoft_sentinel/microsoft_sentinel_macro_service.py:11-12 | a text without the name's token is unchanged, and so is any text when the replacement is the token itself |
| MacroScan.TokensDiffer | python/dac_operator/microsoft_sentinel/microsoft_sentinel_macro_service.py:11-12 | the token of one name never matches at the start of a different name's token |
| MacroScan.ReplaceSkipsOtherToken | python/dac_operator/microsoft_sentinel/microsoft_sentinel_macro_service.py:11-12 | replacing one name passes the token of another name through untouched, provided the text after that token does not start with `$`; when it does, see `SharedTickReplaced` |
| MacroScan.ReplaceSkipsClosingTick | python/dac_operator/microsoft_sentinel/microsoft_sentinel_macro_service.py:11-12 | a closing backtick not followed by `$` cannot start a match, so replacement resumes after it |
| MacroScan.SharedTickScan | python/dac_operator/microsoft_sentinel/microsoft_sentinel_macro_service.py:6-9 | in `` `${a}`${b}` `` the scan reports only `a`: its token takes the backtick that would have opened `b`'s |
| MacroScan.SharedTickReplaced | python/dac_operator/microsoft_sentinel/microsoft_sentinel_macro_service.py:11-12 | yet replacing `b` in that text matches `` `${b}` `` from `a`'s closing backtick on, so `a`'s token loses its closing backtick |
| MacroScan.UnclosedTokenKept | python/dac_operator/microsoft_sentinel/microsoft_sentinel_macro_service.py:11-12 | a token without its closing backtick is not replaced |
| MacroScan.SharedTickInQuery | python/dac_operator/microsoft_sentinel/microsoft_sentinel_macro_service.py:6-12 | `` `${b}``${a}`${b}` `` scans as `b`, `a`; replacing `b` by inert content consumes the backtick shared by the last two tokens, and the replacement of `a` that follows changes nothing |
| MacroScan.ReplaceMacroOfTemplate | python/dac_operator/microsoft_sentinel/microsoft_sentinel_macro_service.py:11-12 | on a template of inert text and references, replacing a name turns exactly that name's references into the replacement text and changes nothing else |
| MacroScan.ReplaceEachOfTemplate | python/dac_operator/microsoft_sentinel/microsoft_sentinel_service.py:41-53 | replacing the referenced names one after another, each by inert content, equals resolving every reference of the template at once |
| SentinelService.RuleIdsAgree | python/dac_operator/microsoft_sentinel/microsoft_sentinel_service.py:30-34 | both derivations give the same id for a name, and different names give different ids |
| SentinelService.MissingMacroMessage | python/dac_operator/microsoft_sentinel/microsoft_sentinel_service.py:54-62 | the failure message names both the missing macro and the referencing rule |
| SentinelService.FirstUnfound | python/dac_operator/microsoft_sentinel/microsoft_sentinel_service.py:41-50 | the position of the first name with no deployed macro; every earlier name has one |
| SentinelService.InjectEach | python/dac_operator/microsoft_sentinel/microsoft_sentinel_service.py:36-64 | lookups go in scan order, in the service namespace, up to and including the first name without a deployed macro. That name decides the outcome: all found gives success with an empty message; not found gives failure with the missing-macro message; an invalid object raises |
| SentinelService.InjectReadsWithin | python/dac_operator/microsoft_sentinel/microsoft_sentinel_service.py:41-50 | injection reads exactly the scanned names, in order, and only in the service's namespace |
| SentinelService.DeployedContentsLiteral | python/dac_operator/microsoft_sentinel/microsoft_sentinel_service.py:43-53 | the contents found for valid names can be substituted literally |
| SentinelService.InjectEachAllFound | python/dac_operator/microsoft_sentinel/microsoft_sentinel_service.py:41-53 | when every lookup succeeds, the result is the sequential replacement of each name by its content |
| SentinelService.InjectEachStopsAtMissing | python/dac_operator/microsoft_sentinel/microsoft_sentinel_service.py:41-62 | at the first missing macro, the result carries the text with the earlier names already substituted and a message naming the missing macro; no later name is read |
| SentinelService.InjectWithoutMacros | python/dac_operator/microsoft_sentinel/microsoft_sentinel_service.py:36-64 | a query without tokens comes back unchanged, successful, with an empty message and no reads |
| SentinelService.InjectTemplate | python/dac_operator/microsoft_sentinel/microsoft_sentinel_service.py:36-64 | with every referenced macro deployed with inert content, every reference is replaced by its content, nothing else changes, and one lookup is made per reference |
| SentinelService.InjectAllFoundLookups | python/dac_operator/microsoft_sentinel/microsoft_sentinel_service.py:41-50 | when every used macro is deployed, exactly one lookup is made per reference, in scan order, in the service namespace |
| SentinelService.InjectDoesNotRescan | python/dac_operator/microsoft_sentinel/microsoft_sentinel_service.py:41-53 | content that is itself a token is not scanned again: the other macro is never read and its token stays in the result |
| SentinelService.InjectLeadingMacro | python/dac_operator/microsoft_sentinel/microsoft_sentinel_service.py:36-64 | a leading token with a deployed macro becomes the content followed by the rest, after one lookup (`` `${greeting}` world `` with `hello` gives `hello world`) |
| SentinelService.InjectPartially | python/dac_operator/microsoft_sentinel/microsoft_sentinel_service.py:36-62 | with the first macro deployed and the second missing, the failure carries the partly substituted text, not the input, and names the second macro |
| SentinelService.InjectSharedTick | python/dac_operator/microsoft_sentinel/microsoft_sentinel_service.py:41-64 | for `` `${b}``${a}`${b}` `` with both macros deployed, both are looked up, `b` is substituted twice, `a` is never substituted, and the injection still reports success |
| SentinelService.AssembledQueryParts | python/dac_operator/microsoft_sentinel/microsoft_sentinel_service.py:80-90 | the assembled query can be read back: the prefix and one space precede the query, and the query is followed by nothing or by a space, the suffix and a trailing space |
| SentinelService.AnalyticsUpsertPayload | python/dac_operator/microsoft_sentinel/microsoft_sentinel_service.py:66-94 | the upsert targets the id of the rule name, and its payload carries the assembled query and neither a queryPrefix nor a querySuffix key |
| SentinelService.CreateOrUpdateAutomationRule | python/dac_operator/microsoft_sentinel/microsoft_sentinel_service.py:96-106 | the automation payload is sent unchanged to the automation id of the rule name |
| SentinelService.RemoveAnalyticsRule | python/dac_operator/microsoft_sentinel/microsoft_sentinel_service.py:108-112 | the deletion targets the id of the rule name and either succeeds or raises |
| SentinelService.StatusOfRule | python/dac_operator/microsoft_sentinel/microsoft_sentinel_service.py:126-138 | a returned rule is deployed, its enabled flag is `properties.enabled` read as a lax boolean, and its type is `kind`. A missing key, an enabled value that is no boolean, or a kind outside the allowed literals raises |
| SentinelService.StatusOfLookup | python/dac_operator/microsoft_sentinel/microsoft_sentinel_service.py:114-138 | an absent rule or a null body is not deployed, not enabled and of unknown type; a lookup error is raised as it is; only a returned rule can be deployed |
| SentinelService.RuleStatus | python/dac_operator/microsoft_sentinel/microsoft_sentinel_service.py:114-125 | the status lookup reads the given id and either produces a status or raises |
| SentinelService.StatusOfMissingRule | python/dac_operator/microsoft_sentinel/microsoft_sentinel_repository.py:66-84 | a 404 on the lookup gives the not-deployed status, and any other error status is raised |
| SentinelRepository.ClassifyEntry | python/dac_operator/microsoft_sentinel/microsoft_sentinel_repository.py:29-64 | the token exchange and the rule listing take one entry ("access_token", "value") of a 2xx object body; an error status or transport failure raises with that status, and any other body raises |
| Http.ClassifyLookup | python/dac_operator/microsoft_sentinel/microsoft_sentinel_repository.py:66-84 | a 404 is reported as absent; any other error status or a transport failure raises; a 2xx returns its body. The Splunk lookup (python/dac_operator/splunk/splunk_repository.py lines 25-51) behaves the same way |
| SentinelRepository.ScheduledConflict | python/dac_operator/microsoft_sentinel/microsoft_sentinel_repository.py:100-109 | a 409 body mentioning a recent deletion is read as such, then one mentioning an Etag mismatch, otherwise the conflict is unknown |
| SentinelRepository.ClassifyScheduledUpsert | python/dac_operator/microsoft_sentinel/microsoft_sentinel_repository.py:86-114 | a 2xx succeeds; every 409 is tolerated; every other error status and every transport failure raises |
| SentinelRepository.ClassifyAutomationUpsertAsWritten | python/dac_operator/microsoft_sentinel/microsoft_sentinel_repository.py:116-142 | as written: only a 409 that does not mention a recent deletion is tolerated; one that does raises an attribute error |
| SentinelRepository.ClassifyAutomationUpsert | python/dac_operator/microsoft_sentinel/microsoft_sentinel_repository.py:116-142 | as intended: a 2xx succeeds; every 409 is tolerated, and a mention of recent deletion is recorded as such; everything else raises |
| SentinelRepository.ClassifyRemove | python/dac_operator/microsoft_sentinel/microsoft_sentinel_repository.py:144-157 | only a 2xx succeeds; every failure raises, 404 included |
| SentinelRepository.Authenticate | python/dac_operator/microsoft_sentinel/microsoft_sentinel_repository.py:29-47 | one token request is sent; it yields a token or raises |
| SentinelRepository.Authenticated | python/dac_operator/microsoft_sentinel/microsoft_sentinel_repository.py:86-99 | every operation starts with the token request; its outcome is a raise or the classification of the operation's own reply |
| SentinelRepository.AuthenticatesFirst | python/dac_operator/microsoft_sentinel/microsoft_sentinel_repository.py:86-99 | a failed token exchange is the operation's error and its request is never sent; otherwise exactly that request follows, and its reply alone decides the outcome |
| SentinelRepository.NotFoundIsAbsentOnGetButRaisedOnRemove | python/dac_operator/microsoft_sentinel/microsoft_sentinel_repository.py:144-157 | a 404 is absence for a lookup but an error for a removal |
| SentinelRepository.ScheduledUpsertToleratesEveryConflict | python/dac_operator/microsoft_sentinel/microsoft_sentinel_repository.py:100-109 | whatever its body, a 409 on the scheduled upsert never raises |
| SentinelRepository.AutomationConflictDiscrepancy | python/dac_operator/microsoft_sentinel/microsoft_sentinel_repository.py:130-137 | the as-written and intended automation classifiers differ exactly on a 409 that mentions a recent deletion |
| SentinelRepository.RecentlyDeletedConflictEscapes | python/dac_operator/microsoft_sentinel/microsoft_sentinel_repository.py:132-135 | a concrete 409 reply on which the as-written upsert raises and the intended one tolerates the conflict |
| SentinelModels.ParseRuleType | python/dac_operator/microsoft_sentinel/microsoft_sentinel_models.py:62-64 | exactly the four rule-type literals are accepted, and each parses to the type that prints as it |
| SentinelModels.RuleTypeRoundTrip | python/dac_operator/microsoft_sentinel/microsoft_sentinel_models.py:62-64 | parsing a rule type's literal gives the type back |
| SentinelModels.ParseTriggerOperator | python/dac_operator/microsoft_sentinel/microsoft_sentinel_models.py:60 | exactly the four operator literals are accepted, and each parses to the operator that prints as it |
| SentinelModels.TriggerOperatorRoundTrip | python/dac_operator/microsoft_sentinel/microsoft_sentinel_models.py:60 | parsing an operator's literal gives the operator back |
| SentinelModels.ParseSeverity | python/dac_operator/microsoft_sentinel/microsoft_sentinel_models.py:61 | exactly the four severity literals are accepted, and each parses to the severity that prints as it |
| SentinelModels.SeverityRoundTrip | python/dac_operator/microsoft_sentinel/microsoft_sentinel_models.py:61 | parsing a severity's literal gives the severity back |
| SentinelModels.LaxBool | python/dac_operator/microsoft_sentinel/microsoft_sentinel_models.py:73-76 | a boolean field built from keyword arguments takes a boolean as itself, 0 and 1, and the words "0", "off", "f", "false", "n", "no", "1", "on", "t", "true", "y", "yes" in any case; nothing else |
| SentinelModels.LaxBoolWords | python/dac_operator/microsoft_sentinel/microsoft_sentinel_models.py:73-76 | no word is read both ways; "True" and "FALSE" are read as expected, "maybe" and 2 are refused |
| SentinelModels.Strings | python/dac_operator/microsoft_sentinel/microsoft_sentinel_models.py:157-158 | a JSON list is accepted exactly when every item is a string the field admits, and the result lists those strings in order |
| SentinelModels.StringsRoundTrip | python/dac_operator/microsoft_sentinel/microsoft_sentinel_models.py:157-158 | reading back a serialised list of admitted strings gives the same list |
| SentinelModels.Objects | python/dac_operator/microsoft_sentinel/microsoft_sentinel_models.py:150 | a JSON list of nested models is accepted exactly when every item is an object |
| SentinelModels.ParseQueryFields | python/dac_operator/microsoft_sentinel/microsoft_sentinel_models.py:131-138 | succeeds exactly when displayName and query are strings, enabled is a boolean, and prefix, suffix, frequency and period are absent or strings. The "queryPrefix" key fills the suffix attribute and the "querySuffix" key fills the prefix attribute, both defaulting to "". Frequency and period default to PT1H |
| SentinelModels.ParseAlertFields | python/dac_operator/microsoft_sentinel/microsoft_sentinel_models.py:139-143 | succeeds exactly when the suppression duration is a string, suppression a boolean, the threshold an integer, and operator and severity strings among their literals; the parsed operator and severity print as the input |
| SentinelModels.ParseDetailFields | python/dac_operator/microsoft_sentinel/microsoft_sentinel_models.py:144-150 | succeeds exactly when each optional field is absent, null or of its type (object, string, object of strings, string) and entity mappings are absent or a list of objects; absent fields default to none and the empty list |
| SentinelModels.ParseGroupingFields | python/dac_operator/microsoft_sentinel/microsoft_sentinel_models.py:151-159 | succeeds exactly when the grouping and incident settings are absent, null or objects, the template version absent, null or a string, and tactics and techniques absent or lists of strings, every tactic a known ATT&CK tactic; absent fields default to none or the empty list |
| SentinelModels.ParseProperties | python/dac_operator/microsoft_sentinel/microsoft_sentinel_models.py:131-159 | succeeds exactly when all four groups of fields are well typed, whatever unknown keys are present; a missing required key fails. Every default is applied and the swapped aliases are honoured. The extra fields are exactly the unclaimed keys, with their values. The result is well formed |
| SentinelModels.ParseRule | python/dac_operator/microsoft_sentinel/microsoft_sentinel_models.py:162-164 | succeeds exactly when "kind" is absent or "Scheduled" and "properties" holds an object that validates; the properties are that validation's result, and the extra fields are exactly the keys other than kind and properties |
| SentinelModels.PayloadOmitsQueryAffixes | python/dac_operator/microsoft_sentinel/microsoft_sentinel_models.py:135-136 | the serialised properties carry neither queryPrefix nor querySuffix |
| SentinelModels.PayloadKeepsQueryAndExtras | python/dac_operator/microsoft_sentinel/microsoft_sentinel_models.py:79-82 | the serialised properties carry the query verbatim and every extra field |
| SentinelModels.RevalidatedPayload | python/dac_operator/microsoft_sentinel/microsoft_sentinel_models.py:131-138 | validating the serialised properties of a well-formed value again succeeds, returns the query and the extra fields, and gives "" for the prefix and suffix |
| SentinelModels.DumpIsValid | python/dac_operator/microsoft_sentinel/microsoft_sentinel_models.py:131-159 | every serialised field has the JSON type validation requires of it, so the serialised properties validate |
| SentinelModels.PayloadKindIsScheduled | python/dac_operator/microsoft_sentinel/microsoft_sentinel_models.py:162-164 | the serialised rule has kind "Scheduled" and carries the serialised properties and the rule's extra fields |
| Cluster.MacroContent | python/dac_operator/crd/crd_models.py:12-25 | an object is accepted as a macro only with a `spec.content` string, and the content is that string |
| Cluster.LookupMacro | python/dac_operator/ext/kubernetes_client.py:59-113 | a macro missing from the namespace is not found; one that fails coercion is invalid; otherwise its content is returned |
| Cluster.LookupIgnoresOtherNamespaces | python/dac_operator/ext/kubernetes_client.py:59-101 | an object deployed in another namespace never changes a lookup |
| Cluster.ReadsWithinJoin | python/dac_operator/microsoft_sentinel/microsoft_sentinel_service.py:41-50 | reads confined to a namespace stay confined when concatenated |
| Providers.FirstMissing | python/dac_operator/providers.py:29-45 | reports a key the data lacks, and none only when every required key is present |
| Providers.VerifyFlagValues | python/dac_operator/providers.py:53 | `verify` holds for 1, True and "true" and nothing else; of configuration strings only exactly "true" |
| Providers.GetSplunkService | python/dac_operator/providers.py:26-55 | no configuration map means no service. A missing secret raises the configuration exception. Otherwise the settings come from the map's entries and the secret's token, and the configuration map is read first |
| Providers.GetSentinelService | python/dac_operator/providers.py:58-86 | a missing configuration map or secret raises the configuration exception. The service is bound to the requested namespace, and every read stays in it |
| Providers.MissingConfigurationSkipsOrRaises | python/dac_operator/providers.py:26-65 | without configuration, the Splunk provider skips the namespace while the Sentinel provider raises; neither reads a secret |
| SplunkRepository.ParseDetectionRule | python/dac_operator/splunk/splunk_models.py:3-8 | a rule needs string name, description and search, and every other key is kept as an extra field |
| SplunkRepository.CreateIgnoresExtraFields | python/dac_operator/splunk/splunk_repository.py:58-62 | extra fields of a rule never reach the creation request |
| SplunkRepository.ClassifyCreate | python/dac_operator/splunk/splunk_repository.py:53-82 | a 2xx succeeds; a 409 means the rule already exists and is tolerated; everything else raises |
| SplunkService.CreateOrUpdateDetectionRule | python/dac_operator/splunk/splunk_service.py:9-19 | the lookup by name comes first. The creation follows exactly when the lookup returned nothing. A failed lookup is raised, and an existing rule ends the call |
| SplunkService.NeverUpdates | python/dac_operator/splunk/splunk_service.py:9-19 | whatever the replies, only the lookup and the creation of the given rule are ever sent |
| AnalyticRuleTimers.InjectQueries | python/dac_operator/handlers/microsoft_sentinel/analytic_rules/analytic_rule_timers.py:78-108 | the three injections read macros only in the service's namespace |
| AnalyticRuleTimers.QueryInjectionComesFirst | python/dac_operator/handlers/microsoft_sentinel/analytic_rules/analytic_rule_timers.py:78-86 | a missing macro in the query ends the pass with its message, and an invalid one escapes; the prefix and suffix texts are not looked at |
| AnalyticRuleTimers.InjectionsInOrder | python/dac_operator/handlers/microsoft_sentinel/analytic_rules/analytic_rule_timers.py:78-108 | the pass goes on exactly when all three injections succeed; the texts are the three results and the reads are concatenated in order |
| AnalyticRuleTimers.SyncRule | python/dac_operator/handlers/microsoft_sentinel/analytic_rules/analytic_rule_timers.py:65-129 | nothing is sent upstream for an invalid specification, and every macro read stays in the namespace |
| AnalyticRuleTimers.SyncPayload | python/dac_operator/handlers/microsoft_sentinel/analytic_rules/analytic_rule_timers.py:73-129 | every macro read of the injections stays in the service's namespace |
| AnalyticRuleTimers.CreateAnalyticRule | python/dac_operator/handlers/microsoft_sentinel/analytic_rules/analytic_rule_timers.py:43-129 | a resource is skipped, untouched, exactly when it is outside the allow-list. Otherwise the configuration map is read first and every read stays in the namespace. Nothing is sent upstream without a configured service and a valid specification |
| AnalyticRuleTimers.UnconfiguredNamespaceReported | python/dac_operator/handlers/microsoft_sentinel/analytic_rules/analytic_rule_timers.py:53-63 | an unconfigured namespace is reported with the initialisation message, and nothing is sent |
| AnalyticRuleTimers.InvalidRuleReported | python/dac_operator/handlers/microsoft_sentinel/analytic_rules/analytic_rule_timers.py:65-71 | an invalid specification is reported with its validation message, before any macro read or request |
| AnalyticRuleTimers.UpsertSendsAssembledQuery | python/dac_operator/handlers/microsoft_sentinel/analytic_rules/analytic_rule_timers.py:110-118 | after the token, the upsert goes to the rule's id and carries the query assembled from prefix, query and suffix |
| AnalyticRuleTimers.RawPrefixComesFirst | python/dac_operator/handlers/microsoft_sentinel/analytic_rules/analytic_rule_timers.py:73-118 | validation puts the "queryPrefix" text into the suffix attribute. Even so, the text under "queryPrefix" is sent before the query and the text under "querySuffix" after it |
| AnalyticRuleTimers.UpsertFailureReported | python/dac_operator/handlers/microsoft_sentinel/analytic_rules/analytic_rule_timers.py:110-118 | a failed upsert is reported with the create message, and the status is never looked up |
| AnalyticRuleTimers.ConflictStillReportsStatus | python/dac_operator/handlers/microsoft_sentinel/analytic_rules/analytic_rule_timers.py:110-129 | a 409 on the upsert is not an error: the status is looked up and reported as usual |
| AnalyticRuleTimers.MissingUpstreamRuleReported | python/dac_operator/handlers/microsoft_sentinel/analytic_rules/analytic_rule_timers.py:120-129 | a rule the upstream does not know is reported as "Not deployed", "Disabled" and of type "Unknown", with no message |
| AnalyticRuleTimers.RemoveAnalyticRule | python/dac_operator/handlers/microsoft_sentinel/analytic_rules/analytic_rule_timers.py:132-156 | the delete handler always reports "Deployed". Its message is empty exactly when the service is configured and the removal succeeded, and otherwise is the initialisation message. Only a provider crash escapes |
| AutomationRuleTimers.SyncAutomation | python/dac_operator/handlers/microsoft_sentinel/automation_rules/automation_rule_timers.py:49-60 | the properties are sent as given. The rule is reported deployed exactly when the upsert returns; a missing "properties" key or a raised upsert is reported with the analytics create message |
| AutomationRuleTimers.AutomationHandler | python/dac_operator/handlers/microsoft_sentinel/automation_rules/automation_rule_timers.py:30-60 | a pass always ends with a status or an exception. Only a provider crash escapes, and the enabled field stays "Unknown" |
| AutomationRuleTimers.CreateAutomationRule | python/dac_operator/handlers/microsoft_sentinel/automation_rules/automation_rule_timers.py:30-60 | as intended (corrected upsert): the only rule sent is the automation rule of the resource's name, with the specification's properties as given |
| AutomationRuleTimers.AutomationDeployedIff | python/dac_operator/handlers/microsoft_sentinel/automation_rules/automation_rule_timers.py:49-60 | as intended (corrected upsert): with a configured service and a token, the rule is reported deployed exactly when the upsert gets a 2xx or a 409; otherwise the create message is reported |
| AutomationRuleTimers.CreateAutomationRuleAsWritten | python/dac_operator/handlers/microsoft_sentinel/automation_rules/automation_rule_timers.py:30-60 | the handler over the as-written upsert also always ends with a status or an exception |
| AutomationRuleTimers.AutomationDeployedIffAsWritten | python/dac_operator/handlers/microsoft_sentinel/automation_rules/automation_rule_timers.py:49-60 | as written: with a configured service and a token, the rule is reported deployed exactly when the upsert gets a 2xx or a 409 that does not mention a recent deletion; otherwise, that 409 included, the create message is reported |
| AutomationRuleTimers.RecentlyDeletedConflictReported | python/dac_operator/handlers/microsoft_sentinel/automation_rules/automation_rule_timers.py:49-57 | on a 409 mentioning a recent deletion, the as-written handler reports a failed creation where the intended one reports the rule deployed |
| DetectionRuleTimerHandlers.CreateSplunkDetectionRule | python/dac_operator/handlers/splunk/detection_rules/detection_rule_timer_handlers.py:11-27 | the handler never reports a status. An unconfigured namespace is skipped without requests. A missing secret or an invalid specification escapes before any request. Otherwise create-if-absent runs exactly once |
| DetectionRuleTimerHandlers.DetectionRuleQuietIff | python/dac_operator/handlers/splunk/detection_rules/detection_rule_timer_handlers.py:22-27 | the pass ends quietly exactly when the rule already existed, or the lookup found nothing and the creation got a 2xx or a 409 |

### Where the code and its description differ

The model follows the code in each of these places:

- **Missing macro.** When a macro is missing, `inject_macros` returns the text
  with the earlier macros already substituted, not the original query
  (`InjectEachStopsAtMissing`, `InjectPartially`).
- **Conflicts on the scheduled upsert.** Every 409 is tolerated, not only the
  "recently deleted" and "Etag does not match" ones.
- **Removal.** A 404 is raised, not treated as already done.
- **Non-empty suffix.** It is followed by a trailing space in the assembled
  query.
- **Invalid macro objects.** A macro object that fails coercion raises
  `ResourceValidationError`, which neither `inject_macros` nor the handler
  catches.
- **Adjacent tokens.** Each occurrence of a macro is not resolved
  independently when two tokens share a backtick. In
  `` `${b}``${a}`${b}` `` the scan finds `b` and `a`. Replacing `b` then
  matches `` `${b}` `` starting at the closing backtick of `a`'s token, so `a`'s
  token is left unclosed and is never replaced, although `a` is looked up and
  the injection reports success (`SharedTickInQuery`, `InjectSharedTick`).
- **Null body.** A 2xx lookup reply whose body is JSON null is treated as an
  absent rule.
- **The analytics handler:**
  - The status lookup after the upsert is outside any `try`, so its failures
    escape.
  - The delete handler reports "Deployed" in every case.
  - A failed removal carries the initialisation message, so the delete message
    is never used.
- **The automation handler.** It reports the analytics create message, both for
  a failed upsert and for a specification without "properties".
- **The Splunk detection handler.** It never writes a status, and every failure
  escapes it.

## Left out

- HTTP transport details are not modelled: URLs, API versions, headers, the
  OAuth form and timeouts. A request is a symbolic value, and the reply to it
  is a parameter.
- The HTTP library is not modelled: a reply counts as successful exactly when
  its status is 2xx, as `raise_for_status` decides, and redirects are not
  followed.
- SentinelService.RuleIdsAgree: the SHA-1 digest of the name is kept symbolic
  and treated as injective; hash collisions are not modelled.
- SentinelService.InjectMacros: `re.sub` interprets backslash escapes in the
  replacement text. The model covers only macro contents without a backslash:
  the `LiteralMacros` precondition of the injection and of the analytics
  handler.
- Providers.GetSplunkService: base64 decoding of secret values and `int()` of
  the port are not modelled; a value that fails either is not an error here.
- Providers.GetSentinelService: base64 decoding of the client id and secret is
  not modelled.
- SentinelModels.ParseProperties: pydantic's lax coercions are not modelled
  for the properties (for example, "true" accepted for a boolean); the status
  record's `enabled` does use the lax reading (`LaxBool`). Validation by field name
  (`populate_by_name`) is not modelled either: only the aliases are accepted.
  Nested models (entity mappings, grouping, incident and override settings) are
  kept as raw objects without inner validation. Only the first failing field is
  reported.
- SentinelModels.ValidationMessage: the text gives the model, the location and
  the problem. It does not give pydantic's full rendering, which also shows the
  input value and a documentation link.
- SentinelModels.RevalidatedPayload: the full round trip of a payload through
  serialisation and validation is not stated. Success of the revalidation, the
  query, the extras and the dropped prefix and suffix are proved; the other
  fields are not compared.
- AutomationRuleTimers.AutomationDeployedIff: states the handler with the
  corrected upsert. The handler as written, where a 409 mentioning a recent
  deletion is reported as a failed creation, is stated by
  `AutomationDeployedIffAsWritten`.
- SentinelModels.LaxBool: Python's full Unicode lower-casing is not modelled,
  only ASCII capitals are lowered; the words it must match are ASCII.
- SentinelRepository.ClassifyRuleList: the type of the `value` entry is not
  checked, and no handler lists rules.
- Cluster.LookupMacro: every Kubernetes API failure counts as not found, as the
  client wrapper does. The config map model's own validation is not modelled.
- Logging and the `print` in the skip branch are not modelled: they have no
  effect on results.
- The kopf framework is not modelled: timer intervals, handler registration,
  status storage and retries. The handlers are modelled as functions of one pass.
- The CRD definitions in Rust, `operator.py` and `config.py` are not part of
  this model.
- async/await scheduling and concurrency between passes are not modelled.

## Findings

| source | as written | input that shows it | evidently intended | confidence | as-written member | corrected member |
|---|---|---|---|---|---|---|
| python/dac_operator/microsoft_sentinel/microsoft_sentinel_repository.py:132-135 | On a 409 whose body contains "was recently deleted", the log line reads `payload['properties'].displayName`, an attribute access on a plain dict. This raises `AttributeError` out of the upsert, and the automation handler reports "Unable to create Analytics Rule upstream." | any automation rule upsert answered `409` with body `... was recently deleted ...` (`RecentlyDeletedConflictEscapes`, `RecentlyDeletedConflictReported`) | log the conflict and tolerate it, as the other 409 branch and the scheduled upsert do, so the rule is reported deployed | medium; not executed | SentinelRepository.ClassifyAutomationUpsertAsWritten | SentinelRepository.ClassifyAutomationUpsert |
