/** Baseline Deployment (lambdas/stackset.py): create a uniquely named stack
    set, deploy it to the Workloads unit, poll the operation until it reports
    SUCCEEDED, then publish the completion event. */
module Stackset {
  import opened Common
  import opened Services

  const BaselinePrefix := "account-baseline-"
  const BaselineDescription := "Baseline for new accounts"
  const TemplateUrl := "https://testing-org-lambda.s3.amazonaws.com/accountAssembleBase.yml"
  const Region := "us-east-1"
  const PollSeconds: nat := 10
  const EventSource := "assembler-stackset"
  const EventDetailType := "account-assemble event"

  // ---------------------------------------------------------------------------
  // The cold-start lookup of the Workloads unit id.

  /** The scan's test: the name contains "workloads" (a name that also says
      "master" passes too; there is no master test here). */
  predicate IsWorkloadsName(p: Parameter)
  {
    Contains(p.name, "workloads")
  }

  /** What `getOuIds` returns: the value of the last workloads entry, or the
      never-assigned `workloads`. */
  function OuIdOf(params: seq<Parameter>): Result<string, Failure>
  {
    match LastIndex(params, IsWorkloadsName)
    case None => Err(UnboundLocal("workloads"))
    case Some(i) => Ok(params[i].value)
  }

  /** `getOuIds`, given the `get_parameters_by_path` listing: the loop that
      reassigns `workloads` on every matching entry. */
  method GetOuIds(params: seq<Parameter>) returns (r: Result<string, Failure>)
    ensures r == OuIdOf(params)
  {
    var workloads: Option<string> := None;
    for i := 0 to |params|
      invariant workloads == (match LastIndex(params[..i], IsWorkloadsName)
                              case None => None case Some(k) => Some(params[k].value))
    {
      LastIndexSnoc(params[..i], params[i], IsWorkloadsName);
      assert params[..i + 1] == params[..i] + [params[i]];
      if Contains(params[i].name, "workloads") {
        workloads := Some(params[i].value);
      }
    }
    assert params[..|params|] == params;
    if workloads.None? {
      r := Err(UnboundLocal("workloads"));
    } else {
      r := Ok(workloads.value);
    }
  }

  /** The module-level lookup run at cold start: list the namespace (without
      decryption) and scan the listing the store answers with. */
  method ColdStart(log: CallLog, listing: seq<Parameter>) returns (r: Result<string, Failure>)
    modifies log
    ensures log.calls == old(log.calls) + [GetParametersByPath("/account-assemble/orgIds", true, false)]
    ensures r == OuIdOf(listing)
  {
    log.Record(GetParametersByPath(OrgIdsPath, true, false));
    r := GetOuIds(listing);
  }

  /** The lookup answers the value of the last entry whose name contains
      "workloads", and fails exactly when there is none. */
  lemma OuIdIsLastWorkloadsEntry(params: seq<Parameter>, i: int)
    requires IsLastPassing(params, IsWorkloadsName, i)
    ensures OuIdOf(params) == Ok(params[i].value)
  {
  }

  lemma OuIdNeedsWorkloadsEntry(params: seq<Parameter>)
    ensures OuIdOf(params).Err? <==> forall k :: 0 <= k < |params| ==> !Contains(params[k].name, "workloads")
  {
  }

  // ---------------------------------------------------------------------------
  // The requests.

  /** The stack set name for a `uuid4()` text `suffix`. */
  function BaselineStackName(suffix: string): string
  {
    BaselinePrefix + suffix
  }

  /** Every stack set name starts with "account-baseline-", and names made
      from different suffixes differ. */
  lemma BaselineStackNameIsPrefixed(s1: string, s2: string)
    ensures BaselineStackName(s1)[..17] == "account-baseline-"
    ensures BaselineStackName(s1) == BaselineStackName(s2) ==> s1 == s2
  {
  }

  function StackSetRequest(stackName: string): Effect
  {
    CreateStackSet(stackName, BaselineDescription, TemplateUrl, ["CAPABILITY_NAMED_IAM"],
                   "SERVICE_MANAGED", true, false)
  }

  function InstancesRequest(stackName: string, ou: string): Effect
  {
    CreateStackInstances(stackName, [ou], [Region], 0, 100)
  }

  function CompletionEvent(): Effect
  {
    PutEvents([EventEntry(EventSource, EventDetailType, Detail(EventSource, "SUCCEEDED"))])
  }

  /** `createBaseStack`: request the stack set under a fresh name and return
      the name; `created` is false when the service raised. */
  method CreateBaseStack(log: CallLog, suffix: string, created: bool) returns (r: Result<string, Failure>)
    modifies log
    ensures log.calls == old(log.calls) + [StackSetRequest(BaselineStackName(suffix))]
    ensures r == if created then Ok(BaselineStackName(suffix)) else Err(ServiceError("create_stack_set"))
  {
    var baselineStackName := "account-baseline-" + suffix;
    log.Record(CreateStackSet(baselineStackName, "Baseline for new accounts", TemplateUrl,
                              ["CAPABILITY_NAMED_IAM"], "SERVICE_MANAGED", true, false));
    if !created {
      return Err(ServiceError("create_stack_set"));
    }
    r := Ok(baselineStackName);
  }

  /** `putEvent`: publish the completion event. */
  method PutEvent(log: CallLog)
    modifies log
    ensures log.calls == old(log.calls)
      + [PutEvents([EventEntry("assembler-stackset", "account-assemble event",
                               Detail("assembler-stackset", "SUCCEEDED"))])]
  {
    log.Record(CompletionEvent());
  }

  // ---------------------------------------------------------------------------
  // Polling. The k-th `describe_stack_set_operation` answers `statuses[k]`.

  /** The position of the first SUCCEEDED status. */
  function FirstSucceeded(statuses: seq<string>): (r: Option<nat>)
    ensures r.Some? ==> r.value < |statuses| && statuses[r.value] == "SUCCEEDED"
    ensures r.Some? ==> forall j :: 0 <= j < r.value ==> statuses[j] != "SUCCEEDED"
    ensures r.None? <==> forall j :: 0 <= j < |statuses| ==> statuses[j] != "SUCCEEDED"
  {
    if statuses == [] then None
    else if statuses[0] == "SUCCEEDED" then Some(0)
    else match FirstSucceeded(statuses[1..])
         case None => None
         case Some(k) => Some(k + 1)
  }

  /** How the loop stands after the observed statuses: it has left after
      `polls` polls, or it is still polling after all of them. */
  datatype PollOutcome = Exited(polls: nat) | StillPolling(polls: nat)

  function PollOutcomeOf(statuses: seq<string>): (o: PollOutcome)
    ensures o.polls <= |statuses|
  {
    match FirstSucceeded(statuses)
    case Some(k) => Exited(k + 1)
    case None => StillPolling(|statuses|)
  }

  /** One iteration: the poll, then a sleep only when it said RUNNING. */
  function PollStep(stackName: string, operationId: string, status: string): seq<Effect>
  {
    [DescribeStackSetOperation(stackName, operationId)]
      + (if status == "RUNNING" then [Sleep(PollSeconds)] else [])
  }

  /** The effects of the iterations that observed `statuses`, in order. */
  function PollEffects(stackName: string, operationId: string, statuses: seq<string>): seq<Effect>
  {
    if statuses == [] then []
    else PollEffects(stackName, operationId, statuses[..|statuses| - 1])
           + PollStep(stackName, operationId, statuses[|statuses| - 1])
  }

  function IsRunning(status: string): bool
  {
    status == "RUNNING"
  }

  /** Polling makes one query per observed status, always for the same stack
      set and operation, sleeps 10 once per RUNNING status and does nothing
      else: no other status (FAILED included) sleeps, stops or publishes. */
  lemma {:induction false} PollEffectsShape(stackName: string, operationId: string, statuses: seq<string>)
    ensures Count(PollEffects(stackName, operationId, statuses), IsPoll) == |statuses|
    ensures Count(PollEffects(stackName, operationId, statuses), IsSleep) == Count(statuses, IsRunning)
    ensures var effects := PollEffects(stackName, operationId, statuses);
      forall k :: 0 <= k < |effects| ==>
        effects[k] == DescribeStackSetOperation(stackName, operationId) || effects[k] == Sleep(10)
    decreases |statuses|
  {
    if statuses != [] {
      var init := statuses[..|statuses| - 1];
      var status := statuses[|statuses| - 1];
      var step := PollStep(stackName, operationId, status);
      PollEffectsShape(stackName, operationId, init);
      CountAppend(PollEffects(stackName, operationId, init), step, IsPoll);
      CountAppend(PollEffects(stackName, operationId, init), step, IsSleep);
      assert step[..0] == [];
      if status == "RUNNING" {
        assert step[..1] == [DescribeStackSetOperation(stackName, operationId)];
      }
    }
  }

  /** `deployBaselineStack`: request the instances, then poll. `reply` is the
      OperationId the service answers with (None when it raised). The loop
      leaves at the first SUCCEEDED, after that many polls; with none among the
      observed statuses it is still polling after all of them. */
  method DeployBaselineStack(log: CallLog, stackName: string, ou: string,
                             reply: Option<string>, statuses: seq<string>)
    returns (r: Result<PollOutcome, Failure>)
    modifies log
    ensures reply.None? ==>
      && r == Err(ServiceError("create_stack_instances"))
      && log.calls == old(log.calls) + [InstancesRequest(stackName, ou)]
    ensures reply.Some? ==>
      && r == Ok(PollOutcomeOf(statuses))
      && log.calls == old(log.calls) + [InstancesRequest(stackName, ou)]
                      + PollEffects(stackName, reply.value, statuses[..r.value.polls])
  {
    log.Record(CreateStackInstances(stackName, [ou], ["us-east-1"], 0, 100));
    if reply.None? {
      return Err(ServiceError("create_stack_instances"));
    }
    var baselineOpId := reply.value;
    var polls := 0;
    while polls < |statuses|
      invariant polls <= |statuses|
      invariant forall j :: 0 <= j < polls ==> statuses[j] != "SUCCEEDED"
      invariant log.calls == old(log.calls) + [InstancesRequest(stackName, ou)]
                             + PollEffects(stackName, baselineOpId, statuses[..polls])
    {
      var status := statuses[polls];
      log.Record(DescribeStackSetOperation(stackName, baselineOpId));
      if status == "RUNNING" {
        log.Record(Sleep(10));
      }
      assert statuses[..polls + 1][..polls] == statuses[..polls];
      polls := polls + 1;
      if status == "SUCCEEDED" {
        return Ok(Exited(polls));
      }
    }
    assert statuses[..polls] == statuses;
    r := Ok(StillPolling(polls));
  }

  // ---------------------------------------------------------------------------
  // The handler.

  /** What one invocation asks of the services: the stack set request; then,
      if it was accepted, the instances request; then, if that was accepted,
      the polls; then the completion event only if polling left the loop. */
  function BaselineEffects(stackName: string, ou: string, created: bool,
                           reply: Option<string>, statuses: seq<string>): seq<Effect>
  {
    if !created then [StackSetRequest(stackName)]
    else if reply.None? then [StackSetRequest(stackName), InstancesRequest(stackName, ou)]
    else
      var outcome := PollOutcomeOf(statuses);
      [StackSetRequest(stackName), InstancesRequest(stackName, ou)]
        + PollEffects(stackName, reply.value, statuses[..outcome.polls])
        + (if outcome.Exited? then [CompletionEvent()] else [])
  }

  /** `lambda_handler`. `ou` is the cold-start workloads id, `suffix` the
      `uuid4()` text; `created`, `reply` and `statuses` are the services'
      answers. A raise in either creation step, or polling that has not left
      the loop, leaves the event unpublished. */
  method Handle(log: CallLog, ou: string, suffix: string, created: bool,
                reply: Option<string>, statuses: seq<string>)
    returns (r: Result<PollOutcome, Failure>)
    modifies log
    ensures log.calls == old(log.calls)
      + BaselineEffects(BaselineStackName(suffix), ou, created, reply, statuses)
    ensures !created ==> r == Err(ServiceError("create_stack_set"))
    ensures created && reply.None? ==> r == Err(ServiceError("create_stack_instances"))
    ensures created && reply.Some? ==> r == Ok(PollOutcomeOf(statuses))
  {
    var envStackName := CreateBaseStack(log, suffix, created);
    if envStackName.Err? {
      return Err(envStackName.error);
    }
    var outcome := DeployBaselineStack(log, envStackName.value, ou, reply, statuses);
    if outcome.Err? {
      return outcome;
    }
    if outcome.value.StillPolling? {
      return outcome;
    }
    PutEvent(log);
    r := outcome;
  }

  /** The loop leaves exactly when some observed status is SUCCEEDED, after
      as many polls as the position of the first one plus one; a run of
      statuses without SUCCEEDED (FAILED, say) keeps it polling through all of
      them. */
  lemma PollExitsIffSucceeded(statuses: seq<string>)
    ensures PollOutcomeOf(statuses).Exited? <==> "SUCCEEDED" in statuses
    ensures forall k :: 0 <= k < |statuses| && statuses[k] == "SUCCEEDED"
                        && (forall j :: 0 <= j < k ==> statuses[j] != "SUCCEEDED")
                        ==> PollOutcomeOf(statuses) == Exited(k + 1)
  {
  }

  /** Effects without a publication, followed by the completion event only
      when the loop was left. */
  lemma PublishAfter(pre: seq<Effect>, exited: bool)
    requires Count(pre, IsPublish) == 0
    ensures var calls := pre + (if exited then [CompletionEvent()] else []);
      && Count(calls, IsPublish) == (if exited then 1 else 0)
      && (exited ==> calls[|calls| - 1] == CompletionEvent())
  {
  }

  /** The completion event is published at most once, as the last effect, and
      exactly when both creation steps were accepted and some observed status
      is SUCCEEDED. */
  lemma PublishedIffSucceeded(stackName: string, ou: string, created: bool,
                              reply: Option<string>, statuses: seq<string>)
    ensures var calls := BaselineEffects(stackName, ou, created, reply, statuses);
      && Count(calls, IsPublish)
         == (if created && reply.Some? && "SUCCEEDED" in statuses then 1 else 0)
      && (Count(calls, IsPublish) == 1 ==> calls[|calls| - 1] == CompletionEvent())
  {
    var calls := BaselineEffects(stackName, ou, created, reply, statuses);
    PollExitsIffSucceeded(statuses);
    var head := [StackSetRequest(stackName), InstancesRequest(stackName, ou)];
    if created && reply.Some? {
      var outcome := PollOutcomeOf(statuses);
      var polled := PollEffects(stackName, reply.value, statuses[..outcome.polls]);
      PollEffectsShape(stackName, reply.value, statuses[..outcome.polls]);
      CountAppend(head, polled, IsPublish);
      PublishAfter(head + polled, outcome.Exited?);
    }
  }
}
