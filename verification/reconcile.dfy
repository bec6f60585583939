/**
 What the operator's handlers have in common: the status words they report,
 their error messages, and how one pass of a handler ends. A handler either
 returns nothing, returns a status record that the operator stores on the
 resource, or lets an exception escape.
 */
module Reconcile {
  import opened Base
  import opened Cluster

  /** The `deployed` literal of a status record. */
  datatype Deployment = DeploymentUnknown | Deployed | NotDeployed

  /** The `enabled` literal of a status record. */
  datatype Enablement = EnablementUnknown | Enabled | Disabled

  function DeploymentText(d: Deployment): string {
    match d
    case DeploymentUnknown => "Unknown"
    case Deployed => "Deployed"
    case NotDeployed => "Not deployed"
  }

  function EnablementText(e: Enablement): string {
    match e
    case EnablementUnknown => "Unknown"
    case Enabled => "Enabled"
    case Disabled => "Disabled"
  }

  /** The `ErrorMessages` values. */
  const INITIALIZATION_ERROR: string := "Unable to configure provider, see controller logs."
  const AUTOMATION_RULE_CREATE_ERROR: string := "Unable to create Automation Rule upstream."
  const ANALYTICS_RULE_CREATE_ERROR: string := "Unable to create Analytics Rule upstream."
  const ANALYTICS_RULE_DELETE_ERROR: string := "Unable to delete Analytics Rule upstream."

  /** How a handler invocation ends. */
  datatype HandlerResult<+S> =
    | NoStatus              // the handler returned None
    | Reported(status: S)   // the handler returned a dumped status record
    | Escaped(fault: Fault) // an exception left the handler

  /** One handler invocation: how it ended, the cluster objects it read and the
      requests it sent upstream, each in order. */
  datatype Pass<+S, +R> = Pass(result: HandlerResult<S>, clusterReads: seq<ClusterRead>, requests: seq<R>)

  /** How a handler ends once it is past its skip check: with a status record
      or with an exception. */
  datatype Ending<+S> = Report(status: S) | Throw(fault: Fault)

  function Ended<S>(e: Ending<S>): (r: HandlerResult<S>)
    ensures !r.NoStatus?
    ensures e.Report? <==> r.Reported?
  {
    match e
    case Report(status) => Reported(status)
    case Throw(fault) => Escaped(fault)
  }

  /** The part of a pass after its skip check. */
  datatype Partial<+S, +R> = Partial(ending: Ending<S>, clusterReads: seq<ClusterRead>, requests: seq<R>)

  /** A step of a handler: either the pipeline goes on with a value, or the
      handler ends here. */
  datatype Stage<+T, +S> = Continue(value: T) | Stop(ending: Ending<S>)
}
