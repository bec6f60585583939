/**
 The Sentinel service: rule identifiers, macro injection against the macros
 deployed in the service's namespace, assembly of the upserted query, and the
 mapping of an upstream rule to its status.
 */
module SentinelService {
  import opened Base
  import opened Http
  import opened MacroScan
  import opened Cluster
  import opened SentinelModels
  import opened SentinelRepository

  /** A service bound to one namespace: its macro lookups read that namespace
      only. */
  datatype SentinelService = SentinelService(namespace: string, cluster: Cluster, upstream: Upstream)

  // ---------------------------------------------------------------------------
  // Rule identifiers

  function AnalyticsRuleId(ruleName: string): (id: RuleId)
    ensures id.name == ruleName
  {
    Sha1Hex(ruleName)
  }

  function AutomationRuleId(ruleName: string): (id: RuleId)
    ensures id.name == ruleName
  {
    Sha1Hex(ruleName)
  }

  /** Both identifiers are the same deterministic function of the rule name. */
  lemma RuleIdsAgree(a: string, b: string)
    ensures AnalyticsRuleId(a) == AutomationRuleId(a)
    ensures AnalyticsRuleId(a) == AnalyticsRuleId(b) <==> a == b
  {
  }

  // ---------------------------------------------------------------------------
  // Macro injection

  /** `re.sub` copies a macro's content verbatim only when it has no
      backslash; the model is stated for clusters whose macros are such. */
  predicate LiteralMacros(cluster: Cluster) {
    forall key :: key in cluster.macros && MacroContent(cluster.macros[key]).Some?
                  ==> Literal(MacroContent(cluster.macros[key]).value)
  }

  /** The message of a failed injection. */
  function MissingMacroMessage(macroName: string, ruleName: string): (m: string)
    ensures Occurs(macroName, m) && Occurs(ruleName, m)
  {
    var m := "The macro '" + macroName + "' is referenced in '" + ruleName
             + "', but is not deployed in the Tenant namespace.";
    OccursInside("The macro '", macroName, "' is referenced in '" + ruleName
                 + "', but is not deployed in the Tenant namespace.");
    assert m == "The macro '" + macroName + ("' is referenced in '" + ruleName
                 + "', but is not deployed in the Tenant namespace.");
    OccursInside("The macro '" + macroName + "' is referenced in '", ruleName,
                 "', but is not deployed in the Tenant namespace.");
    m
  }

  /** The outcome of `inject_macros` and the macro lookups it issued. */
  datatype Injection = Injection(outcome: Result<MacroInjectionResult, Fault>, lookups: seq<ClusterRead>)

  function MacroReadOf(namespace: string, name: string): ClusterRead {
    MacroRead(ObjectKey(namespace, name))
  }

  /** The content a lookup finds, or "" when it finds none. */
  function DeployedContent(cluster: Cluster, namespace: string, name: string): string {
    var lookup := LookupMacro(cluster, namespace, name);
    if lookup.Found? then lookup.content else ""
  }

  /** Every name of `names` has a deployed macro. */
  predicate AllFound(cluster: Cluster, namespace: string, names: seq<string>) {
    forall i :: 0 <= i < |names| ==> LookupMacro(cluster, namespace, names[i]).Found?
  }

  /** The position of the first name without a deployed macro, or `|names|`. */
  function FirstUnfound(cluster: Cluster, namespace: string, names: seq<string>): (j: nat)
    ensures j <= |names|
    ensures AllFound(cluster, namespace, names[..j])
    ensures j < |names| ==> !LookupMacro(cluster, namespace, names[j]).Found?
    decreases |names|
  {
    if |names| == 0 || !LookupMacro(cluster, namespace, names[0]).Found? then 0
    else
      var j := FirstUnfound(cluster, namespace, names[1..]);
      assert names[..j + 1] == [names[0]] + names[1..][..j];
      1 + j
  }

  /** The loop of `inject_macros` from the current text over the names still to
      process. */
  function InjectEach(cluster: Cluster, namespace: string, query: string, names: seq<string>, ruleName: string)
    : (r: Injection)
    requires LiteralMacros(cluster)
    requires forall i :: 0 <= i < |names| ==> IsMacroName(names[i])
    // the names are looked up in order, in the service namespace, up to the
    // first one without a deployed macro
    ensures var j := FirstUnfound(cluster, namespace, names);
      |r.lookups| == if j < |names| then j + 1 else j
    ensures forall i :: 0 <= i < |r.lookups| ==> r.lookups[i] == MacroReadOf(namespace, names[i])
    // the outcome is decided by that name
    ensures var j := FirstUnfound(cluster, namespace, names);
      && (j == |names| ==> r.outcome.Ok? && r.outcome.value.success && r.outcome.value.message == "")
      && (j < |names| && LookupMacro(cluster, namespace, names[j]).NotFound? ==>
            r.outcome.Ok? && !r.outcome.value.success
            && r.outcome.value.message == MissingMacroMessage(names[j], ruleName))
      && (j < |names| && LookupMacro(cluster, namespace, names[j]).Invalid? ==>
            r.outcome == Err(InvalidResource(names[j])))
    decreases |names|
  {
    if |names| == 0 then Injection(Ok(Injected(query)), [])
    else
      var name := names[0];
      var read := MacroReadOf(namespace, name);
      match LookupMacro(cluster, namespace, name)
      case Found(content) =>
        var rest := InjectEach(cluster, namespace, ReplaceMacro(query, name, content), names[1..], ruleName);
        Injection(rest.outcome, [read] + rest.lookups)
      case NotFound =>
        Injection(Ok(MacroInjectionResult(false, query, MissingMacroMessage(name, ruleName))), [read])
      case Invalid =>
        Injection(Err(InvalidResource(name)), [read])
  }

  /** `inject_macros`: the names are scanned once, from the input query. */
  function InjectMacros(service: SentinelService, query: string, ruleName: string): Injection
    requires LiteralMacros(service.cluster)
  {
    InjectEach(service.cluster, service.namespace, query, UsedMacros(query), ruleName)
  }

  /** Injection looks up the macros the query uses, in order, in the
      service's namespace only. */
  lemma InjectReadsWithin(service: SentinelService, query: string, ruleName: string)
    requires LiteralMacros(service.cluster)
    ensures var lookups := InjectMacros(service, query, ruleName).lookups;
      && |lookups| <= |UsedMacros(query)|
      && (forall i :: 0 <= i < |lookups| ==> lookups[i] == MacroRead(ObjectKey(service.namespace, UsedMacros(query)[i])))
      && ReadsWithin(lookups, service.namespace)
  {
  }

  /** The contents `contentOf` gives the names are literal replacements. */
  lemma DeployedContentsLiteral(cluster: Cluster, namespace: string, names: seq<string>)
    requires LiteralMacros(cluster)
    requires forall i :: 0 <= i < |names| ==> IsMacroName(names[i])
    ensures Replaceable(names, n => DeployedContent(cluster, namespace, n))
  {
    forall i | 0 <= i < |names|
      ensures Literal(DeployedContent(cluster, namespace, names[i]))
    {
      var lookup := LookupMacro(cluster, namespace, names[i]);
      if lookup.Found? {
        assert ObjectKey(namespace, names[i]) in cluster.macros;
      }
    }
  }

  /** When every lookup succeeds, the loop's text is the sequential
      replacement of each name by its content. */
  lemma {:induction false} InjectEachAllFound(cluster: Cluster, namespace: string, query: string, names: seq<string>, ruleName: string)
    requires LiteralMacros(cluster)
    requires forall i :: 0 <= i < |names| ==> IsMacroName(names[i])
    requires AllFound(cluster, namespace, names)
    ensures Replaceable(names, n => DeployedContent(cluster, namespace, n))
    ensures InjectEach(cluster, namespace, query, names, ruleName).outcome
         == Ok(Injected(ReplaceEach(query, names, n => DeployedContent(cluster, namespace, n))))
    decreases |names|
  {
    DeployedContentsLiteral(cluster, namespace, names);
    if |names| > 0 {
      var contentOf := n => DeployedContent(cluster, namespace, n);
      var next := ReplaceMacro(query, names[0], contentOf(names[0]));
      assert AllFound(cluster, namespace, names[1..]) by {
        forall i | 0 <= i < |names[1..]| ensures LookupMacro(cluster, namespace, names[1..][i]).Found? {
          assert names[1..][i] == names[i + 1];
        }
      }
      InjectEachAllFound(cluster, namespace, next, names[1..], ruleName);
    }
  }

  /** When the lookup of `names[j]` finds nothing and every earlier one
      succeeded, the loop returns the text with the earlier names already
      substituted, a failure naming the missing macro and the rule, and never
      looks up a later name. */
  lemma {:induction false} InjectEachStopsAtMissing(cluster: Cluster, namespace: string, query: string, names: seq<string>, ruleName: string, j: nat)
    requires LiteralMacros(cluster)
    requires forall i :: 0 <= i < |names| ==> IsMacroName(names[i])
    requires j < |names| && AllFound(cluster, namespace, names[..j])
    requires LookupMacro(cluster, namespace, names[j]).NotFound?
    ensures Replaceable(names[..j], n => DeployedContent(cluster, namespace, n))
    ensures var r := InjectEach(cluster, namespace, query, names, ruleName);
      && r.outcome == Ok(MacroInjectionResult(false,
                                ReplaceEach(query, names[..j], n => DeployedContent(cluster, namespace, n)),
                                MissingMacroMessage(names[j], ruleName)))
      && |r.lookups| == j + 1
    decreases j
  {
    DeployedContentsLiteral(cluster, namespace, names[..j]);
    if j > 0 {
      var contentOf := n => DeployedContent(cluster, namespace, n);
      assert names[..j][0] == names[0];
      var next := ReplaceMacro(query, names[0], contentOf(names[0]));
      assert names[1..][..j - 1] == names[..j][1..];
      var earlier := names[1..][..j - 1];
      assert AllFound(cluster, namespace, earlier) by {
        forall i | 0 <= i < |earlier| ensures LookupMacro(cluster, namespace, earlier[i]).Found? {
          assert earlier[i] == names[..j][i + 1];
        }
      }
      InjectEachStopsAtMissing(cluster, namespace, next, names[1..], ruleName, j - 1);
    }
  }

  /** A query without macro references is returned unchanged, with success and
      an empty message, and no macro is read. */
  lemma InjectWithoutMacros(service: SentinelService, query: string, ruleName: string)
    requires LiteralMacros(service.cluster)
    requires !Occurs(OPENING, query)
    ensures InjectMacros(service, query, ruleName) == Injection(Ok(Injected(query)), [])
  {
    NoOpeningNoMacros(query);
  }

  /** The query as a template of inert text and references whose macros are
      all deployed with inert contents: the injection succeeds and every
      reference is replaced by its content, and nothing else changes. Contents
      are not scanned again. */
  lemma InjectTemplate(service: SentinelService, ps: seq<Piece>, ruleName: string)
    requires LiteralMacros(service.cluster)
    requires IsInertTemplate(ps)
    requires AllFound(service.cluster, service.namespace, RefNames(ps))
    requires forall i :: 0 <= i < |RefNames(ps)| ==> Inert(DeployedContent(service.cluster, service.namespace, RefNames(ps)[i]))
    ensures InjectMacros(service, Render(ps), ruleName).outcome
         == Ok(Injected(Render(Resolve(ps, n => DeployedContent(service.cluster, service.namespace, n)))))
    ensures InjectMacros(service, Render(ps), ruleName).lookups
         == seq(|RefNames(ps)|, i requires 0 <= i < |RefNames(ps)| => MacroReadOf(service.namespace, RefNames(ps)[i]))
  {
    var cluster, namespace := service.cluster, service.namespace;
    assert IsTemplate(ps) by {
      forall i | 0 <= i < |ps| ensures PieceWith(ps[i], Plain) {
        assert PieceWith(ps[i], Inert);
      }
    }
    UsedMacrosOfTemplate(ps);
    var names := RefNames(ps);
    InjectAllFoundLookups(service, Render(ps), ruleName);
    InjectEachAllFound(cluster, namespace, Render(ps), names, ruleName);
    RefNamesWithin(ps);
    ReplaceEachOfTemplate(ps, names, n => DeployedContent(cluster, namespace, n));
  }

  /** When every used macro is deployed, exactly one lookup is made per
      reference, in order. */
  lemma InjectAllFoundLookups(service: SentinelService, query: string, ruleName: string)
    requires LiteralMacros(service.cluster)
    requires AllFound(service.cluster, service.namespace, UsedMacros(query))
    ensures InjectMacros(service, query, ruleName).lookups
         == seq(|UsedMacros(query)|, i requires 0 <= i < |UsedMacros(query)| => MacroReadOf(service.namespace, UsedMacros(query)[i]))
  {
  }

  /** Substituted content is not scanned again: a macro whose content is the
      token of another macro leaves that token in the result, and the other
      macro is never read. */
  lemma InjectDoesNotRescan(service: SentinelService, a: string, b: string, ruleName: string)
    requires LiteralMacros(service.cluster)
    requires IsMacroName(a) && IsMacroName(b)
    requires LookupMacro(service.cluster, service.namespace, a) == Found(Token(b))
    ensures InjectMacros(service, Token(a), ruleName)
         == Injection(Ok(Injected(Token(b))), [MacroReadOf(service.namespace, a)])
  {
    var t, u := Token(a), Token(b);
    UsedMacrosAfterToken(a, "");
    assert t + "" == t;
    assert UsedMacros(t) == [a];
    assert t[..|t|] == t && t[|t|..] == "";
    assert ReplaceAll(t, t, u) == u + ReplaceAll("", t, u);
    assert ReplaceMacro(t, a, u) == u;
    var cluster, namespace := service.cluster, service.namespace;
    assert [a][1..] == [];
    assert InjectEach(cluster, namespace, u, [], ruleName) == Injection(Ok(Injected(u)), []);
    assert InjectEach(cluster, namespace, t, [a], ruleName)
        == Injection(Ok(Injected(u)), [MacroReadOf(namespace, a)] + []);
  }

  /** "`${a}` rest" with `a` deployed becomes its content followed by the
      rest, after a single lookup (for "`${greeting}` world" and content
      "hello": "hello world"). */
  lemma InjectLeadingMacro(service: SentinelService, a: string, rest: string, ruleName: string)
    requires LiteralMacros(service.cluster)
    requires IsMacroName(a) && Inert(rest)
    requires LookupMacro(service.cluster, service.namespace, a).Found?
    requires Inert(LookupMacro(service.cluster, service.namespace, a).content)
    ensures InjectMacros(service, Token(a) + rest, ruleName)
         == Injection(Ok(Injected(LookupMacro(service.cluster, service.namespace, a).content + rest)),
                      [MacroReadOf(service.namespace, a)])
  {
    var ps := [Ref(a), Text(rest)];
    OneRefTemplate(a, rest);
    InjectTemplate(service, ps, ruleName);
    var contentOf := n => DeployedContent(service.cluster, service.namespace, n);
    OneRefResolved(a, rest, contentOf);
  }

  /** The template of "`${a}` rest". */
  lemma OneRefTemplate(a: string, rest: string)
    requires IsMacroName(a) && Inert(rest)
    ensures IsInertTemplate([Ref(a), Text(rest)])
    ensures Render([Ref(a), Text(rest)]) == Token(a) + rest
    ensures RefNames([Ref(a), Text(rest)]) == [a]
  {
    var ps := [Ref(a), Text(rest)];
    assert Render(ps[1..]) == rest + Render([]);
    assert RefNames(ps[1..]) == [] + RefNames([]);
  }

  /** Resolving the reference of that template. */
  lemma OneRefResolved(a: string, rest: string, contentOf: string -> string)
    ensures Render(Resolve([Ref(a), Text(rest)], contentOf)) == contentOf(a) + rest
  {
    var resolved := Resolve([Ref(a), Text(rest)], contentOf);
    assert resolved == [Text(contentOf(a)), Text(rest)];
    assert Render(resolved[1..]) == rest + Render([]);
  }

  /** The template of "`${a}` text `${b}`". */
  lemma TwoRefTemplate(a: string, text: string, b: string)
    requires IsMacroName(a) && IsMacroName(b) && Inert(text)
    ensures IsInertTemplate([Ref(a), Text(text), Ref(b)])
    ensures Render([Ref(a), Text(text), Ref(b)]) == Token(a) + text + Token(b)
    ensures RefNames([Ref(a), Text(text), Ref(b)]) == [a, b]
  {
    var ps := [Ref(a), Text(text), Ref(b)];
    assert Render(ps[1..]) == text + Render(ps[2..]);
    assert Render(ps[2..]) == Token(b) + Render([]);
    assert PieceWith(ps[1], Plain);
    assert RefNames(ps[1..]) == [] + RefNames(ps[2..]);
    assert RefNames(ps[2..]) == [b] + RefNames([]);
  }

  /** Substituting the first reference of that template. */
  lemma TwoRefSubst(a: string, text: string, b: string, content: string)
    requires IsMacroName(a) && IsMacroName(b) && a != b
    ensures Render(Subst([Ref(a), Text(text), Ref(b)], a, content)) == content + text + Token(b)
  {
    var subst := Subst([Ref(a), Text(text), Ref(b)], a, content);
    assert subst == [Text(content), Text(text), Ref(b)];
    assert Render(subst[1..]) == text + Render(subst[2..]);
    assert Render(subst[2..]) == Token(b) + Render([]);
  }

  /** "`${a}` text `${b}`" with `a` deployed and `b` missing: the result
      carries the text with `a` already substituted, not the input, and the
      message names `b`. */
  lemma InjectPartially(service: SentinelService, a: string, text: string, b: string, ruleName: string)
    requires LiteralMacros(service.cluster)
    requires IsMacroName(a) && IsMacroName(b) && Inert(text)
    requires LookupMacro(service.cluster, service.namespace, a).Found?
    requires Inert(LookupMacro(service.cluster, service.namespace, a).content)
    requires LookupMacro(service.cluster, service.namespace, b).NotFound?
    ensures InjectMacros(service, Token(a) + text + Token(b), ruleName).outcome
         == Ok(MacroInjectionResult(false, LookupMacro(service.cluster, service.namespace, a).content + text + Token(b),
                                    MissingMacroMessage(b, ruleName)))
  {
    var cluster, namespace := service.cluster, service.namespace;
    var content := LookupMacro(cluster, namespace, a).content;
    var ps := [Ref(a), Text(text), Ref(b)];
    TwoRefTemplate(a, text, b);
    UsedMacrosOfTemplate(ps);
    var names := RefNames(ps);
    assert names[..1] == [a];
    InjectEachStopsAtMissing(cluster, namespace, Render(ps), names, ruleName, 1);
    ReplaceMacroOfTemplate(ps, a, content);
    var contentOf := n => DeployedContent(cluster, namespace, n);
    assert ReplaceEach(Render(ps), [a], contentOf) == ReplaceMacro(Render(ps), a, content);
    TwoRefSubst(a, text, b, content);
  }

  /** "`${b}``${a}`${b}`": the scan finds `b` and then `a`, whose token
      swallows the backtick that would have opened the second `b`. Yet
      replacing `b` consumes that backtick as the opening of "`${b}`", which
      leaves `a`'s token without its closing backtick: `a` is looked up, never
      substituted, and the injection still reports success. */
  lemma InjectSharedTick(service: SentinelService, a: string, b: string, ruleName: string)
    requires LiteralMacros(service.cluster)
    requires IsMacroName(a) && IsMacroName(b) && a != b
    requires LookupMacro(service.cluster, service.namespace, a).Found?
    requires LookupMacro(service.cluster, service.namespace, b).Found?
    requires Inert(LookupMacro(service.cluster, service.namespace, b).content)
    ensures var cb := LookupMacro(service.cluster, service.namespace, b).content;
      InjectMacros(service, Token(b) + Token(a) + "${" + b + "}`", ruleName)
        == Injection(Ok(Injected(cb + "`${" + a + "}" + cb)),
                     [MacroReadOf(service.namespace, b), MacroReadOf(service.namespace, a)])
  {
    var cluster, namespace := service.cluster, service.namespace;
    var ca := LookupMacro(cluster, namespace, a).content;
    var cb := LookupMacro(cluster, namespace, b).content;
    var query := Token(b) + Token(a) + "${" + b + "}`";
    var afterB := cb + "`${" + a + "}" + cb;
    SharedTickInQuery(a, b, ca, cb);
    assert [b, a][1..] == [a] && [a][1..] == [];
    assert InjectEach(cluster, namespace, afterB, [], ruleName) == Injection(Ok(Injected(afterB)), []);
    assert InjectEach(cluster, namespace, afterB, [a], ruleName)
        == Injection(Ok(Injected(afterB)), [MacroReadOf(namespace, a)] + []);
    assert InjectEach(cluster, namespace, query, [b, a], ruleName)
        == Injection(Ok(Injected(afterB)), [MacroReadOf(namespace, b)] + [MacroReadOf(namespace, a)]);
  }

  // ---------------------------------------------------------------------------
  // Upserts, removal and status

  /** The query sent upstream: the prefix and a space before the query when the
      prefix is non-empty, then a space, the suffix and a trailing space when
      the suffix is non-empty. */
  function AssembleQuery(prefix: string, query: string, suffix: string): string
  {
    var withPrefix := if prefix != "" then prefix + " " + query else query;
    if suffix != "" then withPrefix + " " + suffix + " " else withPrefix
  }

  /** The parts of an assembled query can be read back from it: the query
      starts after the prefix and its separator, and is followed by the
      separator and suffix. */
  lemma AssembledQueryParts(prefix: string, query: string, suffix: string)
    ensures var r := AssembleQuery(prefix, query, suffix);
      var start := if prefix == "" then 0 else |prefix| + 1;
      && |r| == start + |query| + (if suffix == "" then 0 else |suffix| + 2)
      && r[start..start + |query|] == query
      && r[..|prefix|] == prefix
      && (suffix == "" ==> r[start + |query|..] == "")
      && (suffix != "" ==> r[start + |query|..] == " " + suffix + " ")
  {
  }

  /** `create_or_update_analytics_rule`: the query gets its prefix and suffix,
      then the rule is upserted under the id of its name. */
  function CreateOrUpdateAnalyticsRule(service: SentinelService, ruleName: string, payload: CreateScheduledAlertRule)
    : Call<()>
  {
    var p := payload.properties;
    var assembled := payload.(properties := p.(query := AssembleQuery(p.queryPrefix, p.query, p.querySuffix)));
    UpsertScheduledAlertRule(service.upstream, AnalyticsRuleId(ruleName), DumpRule(assembled))
  }

  /** The rule upserted is the one the name identifies, and its payload carries
      the assembled query and neither the prefix nor the suffix. */
  lemma AnalyticsUpsertPayload(service: SentinelService, ruleName: string, payload: CreateScheduledAlertRule)
    requires WellFormedRule(payload)
    ensures var c := CreateOrUpdateAnalyticsRule(service, ruleName, payload);
      var p := payload.properties;
      |c.sent| == 2 ==>
        && c.sent[1].PutAlertRule?
        && c.sent[1].id == AnalyticsRuleId(ruleName)
        && c.sent[1].payload.JObj?
        && "properties" in c.sent[1].payload.fields
        && var sent := c.sent[1].payload.fields["properties"];
           && sent.JObj?
           && "query" in sent.fields
           && sent.fields["query"] == JStr(AssembleQuery(p.queryPrefix, p.query, p.querySuffix))
           && "queryPrefix" !in sent.fields && "querySuffix" !in sent.fields
  {
    var p := payload.properties;
    var assembled := payload.(properties := p.(query := AssembleQuery(p.queryPrefix, p.query, p.querySuffix)));
    PayloadKindIsScheduled(assembled);
    PayloadKeepsQueryAndExtras(assembled.properties);
    PayloadOmitsQueryAffixes(assembled.properties);
  }

  /** `create_or_update_automation_rule`: the payload is sent as given. */
  function CreateOrUpdateAutomationRule(service: SentinelService, ruleName: string, payload: Json): (c: Call<()>)
    ensures |c.sent| == 2 ==> c.sent[1] == PutAutomationRule(AutomationRuleId(ruleName), payload)
  {
    UpsertAutomationRule(service.upstream, AutomationRuleId(ruleName), payload)
  }

  /** `remove_analytics_rule`. */
  function RemoveAnalyticsRule(service: SentinelService, ruleName: string): (c: Call<()>)
    ensures |c.sent| == 2 ==> c.sent[1] == DeleteAlertRule(AnalyticsRuleId(ruleName))
    ensures c.outcome.Success? || c.outcome.Raise?
  {
    RemoveScheduledAlertRule(service.upstream, AnalyticsRuleId(ruleName))
  }

  /** The status record of a rule the lookup returned (`rule is not None`). */
  function StatusOfRule(rule: Json): (r: Outcome<AnalyticsRuleStatus>)
    requires rule != JNull
    ensures r.Success? || r.Raise?
    ensures r.Success? <==>
      && rule.JObj? && "properties" in rule.fields && rule.fields["properties"].JObj?
      && "enabled" in rule.fields["properties"].fields && "kind" in rule.fields
      && LaxBool(rule.fields["properties"].fields["enabled"]).Some?
      && rule.fields["kind"].JStr? && rule.fields["kind"].s in RULE_TYPE_NAMES
    ensures r.Success? ==>
      && r.value.deployed
      && Some(r.value.enabled) == LaxBool(rule.fields["properties"].fields["enabled"])
      && RuleTypeName(r.value.ruleType) == rule.fields["kind"].s
  {
    if !rule.JObj? then Raise(BadBody)
    else if "properties" !in rule.fields then Raise(KeyMissing("properties"))
    else if !rule.fields["properties"].JObj? then Raise(BadBody)
    else if "enabled" !in rule.fields["properties"].fields then Raise(KeyMissing("enabled"))
    else if "kind" !in rule.fields then Raise(KeyMissing("kind"))
    else
      var enabled, kind := rule.fields["properties"].fields["enabled"], rule.fields["kind"];
      if LaxBool(enabled).None? then Raise(ValidationFailed("AnalyticsRuleStatus.enabled"))
      else if !kind.JStr? || ParseRuleType(kind.s).None? then Raise(ValidationFailed("AnalyticsRuleStatus.rule_type"))
      else Success(AnalyticsRuleStatus(LaxBool(enabled).value, true, ParseRuleType(kind.s).value))
  }

  /** The status for what the rule lookup returned: an absent rule (404, or a
      null body) is neither deployed nor enabled and of unknown type. */
  function StatusOfLookup(lookup: Outcome<Json>): (r: Outcome<AnalyticsRuleStatus>)
    requires !lookup.Swallowed?
    ensures r.Success? || r.Raise?
    ensures lookup.Absent? || lookup == Success(JNull) ==> r == Success(AnalyticsRuleStatus(false, false, UnknownType))
    ensures lookup.Raise? ==> r == Raise(lookup.fault)
    ensures r.Success? && r.value.deployed ==> lookup.Success? && lookup.value != JNull
  {
    match lookup
    case Absent => Success(AnalyticsRuleStatus(false, false, UnknownType))
    case Success(rule) =>
      if rule == JNull then Success(AnalyticsRuleStatus(false, false, UnknownType)) else StatusOfRule(rule)
    case Raise(fault) => Raise(fault)
  }

  /** `analytics_rule_status`. */
  function RuleStatus(service: SentinelService, id: RuleId): (c: Call<AnalyticsRuleStatus>)
    ensures |c.sent| == 2 ==> c.sent[1] == GetAlertRule(id)
    ensures c.outcome.Success? || c.outcome.Raise?
  {
    var lookup := GetAnalyticsRule(service.upstream, id);
    Call(StatusOfLookup(lookup.outcome), lookup.sent)
  }

  /** A 404 on the lookup gives the "not deployed" status, while any other
      error status is raised. */
  lemma StatusOfMissingRule(service: SentinelService, id: RuleId)
    requires ClassifyToken(service.upstream(TokenRequest)).Success?
    ensures HasStatus(service.upstream(GetAlertRule(id)), 404) ==>
              RuleStatus(service, id).outcome == Success(AnalyticsRuleStatus(false, false, UnknownType))
    ensures IsErrorStatus(service.upstream(GetAlertRule(id))) && service.upstream(GetAlertRule(id)).status != 404 ==>
              RuleStatus(service, id).outcome == Raise(HttpStatusError(service.upstream(GetAlertRule(id)).status))
  {
    AuthenticatesFirst(service.upstream, GetAlertRule(id), ClassifyLookup);
  }
}
