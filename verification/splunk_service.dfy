/**
 The Splunk service: create-if-absent. A rule is looked up by name and
 created only when the lookup returns nothing; an existing rule is left as it
 is.
 */
module SplunkService {
  import opened Base
  import opened Http
  import opened SplunkRepository

  /** The outcome of a service call, with the requests it sent in order. */
  datatype SplunkCall = SplunkCall(outcome: Outcome<()>, sent: seq<SplunkRequest>)

  /** Python's `value is None` for a decoded body: JSON null. */
  predicate IsNone(lookup: Outcome<Json>) {
    lookup.Absent? || lookup == Success(JNull)
  }

  /** `create_or_update_detection_rule`. */
  function CreateOrUpdateDetectionRule(upstream: SplunkUpstream, rule: SplunkDetectionRule): (c: SplunkCall)
    // the lookup uses the rule's name and always comes first
    ensures 1 <= |c.sent| <= 2 && c.sent[0] == GetSavedSearch(rule.name)
    // the creation follows exactly when the lookup returned nothing
    ensures |c.sent| == 2 <==> IsNone(GetDetectionRule(upstream, rule.name))
    ensures |c.sent| == 2 ==> c.sent[1] == CreateSavedSearch(CreateForm(rule))
                              && c.outcome == CreateDetectionRule(upstream, rule)
    // a failed lookup is raised as it is
    ensures GetDetectionRule(upstream, rule.name).Raise? ==> c.outcome == Raise(GetDetectionRule(upstream, rule.name).fault)
    // an existing rule ends the call
    ensures GetDetectionRule(upstream, rule.name).Success? && !IsNone(GetDetectionRule(upstream, rule.name))
            ==> c.outcome == Success(())
  {
    var lookup := GetDetectionRule(upstream, rule.name);
    var get := GetSavedSearch(rule.name);
    if IsNone(lookup) then SplunkCall(CreateDetectionRule(upstream, rule), [get, CreateSavedSearch(CreateForm(rule))])
    else if lookup.Raise? then SplunkCall(Raise(lookup.fault), [get])
    else SplunkCall(Success(()), [get])
  }

  /** Whatever the replies, the service never sends anything but the lookup
      and at most one creation: it never updates a rule. */
  lemma NeverUpdates(upstream: SplunkUpstream, rule: SplunkDetectionRule)
    ensures forall i :: 0 <= i < |CreateOrUpdateDetectionRule(upstream, rule).sent| ==>
              CreateOrUpdateDetectionRule(upstream, rule).sent[i]
                in {GetSavedSearch(rule.name), CreateSavedSearch(CreateForm(rule))}
  {
  }
}
