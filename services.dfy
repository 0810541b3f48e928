/** The external services, seen from the handlers: every request a handler
    makes (and every log line and sleep) is an `Effect` appended to a
    `CallLog`; every response is an input of the handler that receives it. */
module Services {
  import opened Common

  /** The parameter-store namespace the organizational-unit ids live under. */
  const OrgIdsPath := "/account-assemble/orgIds"

  /** One `DataResources` item of a CloudTrail event selector. */
  datatype DataResource = DataResource(kind: string, values: seq<string>)

  /** One CloudTrail event selector (only `DataResources` is set). */
  datatype EventSelector = EventSelector(dataResources: seq<DataResource>)

  /** The `metadata` object serialised into an event's `Detail`. */
  datatype Detail = Detail(service: string, status: string)

  /** One entry of an EventBridge `put_events` request. */
  datatype EventEntry = EventEntry(source: string, detailType: string, detail: Detail)

  datatype Effect =
    // Parameter store (SSM)
    | GetParametersByPath(path: string, recursive: bool, withDecryption: bool)
    | PutParameter(name: string, description: string, value: string, kind: string)
    // Organizations
    | ListRoots
    | CreateOrganizationalUnit(parentId: string, ouName: string)
    | DescribeAccount(accountId: string)
    | ListAccounts
    | MoveAccount(accountId: string, sourceParentId: string, destinationParentId: string)
    | CreateAccount(email: Option<string>, accountName: string, roleName: string, iamUserAccessToBilling: string)
    // CloudTrail
    | DescribeTrails(includeShadowTrails: bool)
    | UpdateTrail(trailName: string, isOrganizationTrail: bool)
    | PutEventSelectors(selectorTrail: string, selectors: seq<EventSelector>)
    // CloudFormation
    | CreateStackSet(stackSetName: string, description: string, templateUrl: string,
                     capabilities: seq<string>, permissionModel: string,
                     autoDeploymentEnabled: bool, retainStacksOnAccountRemoval: bool)
    | CreateStackInstances(instancesStackSet: string, organizationalUnitIds: seq<string>,
                           regions: seq<string>, failureTolerancePercentage: nat,
                           maxConcurrentPercentage: nat)
    | DescribeStackSetOperation(operationStackSet: string, operationId: string)
    // EventBridge
    | PutEvents(entries: seq<EventEntry>)
    // the process itself
    | Sleep(seconds: nat)
    | LogInfo(message: string)

  /** The parameters a trace writes, in write order. */
  function Written(calls: seq<Effect>): (ps: seq<Parameter>)
    ensures |ps| <= |calls|
  {
    if calls == [] then []
    else
      var last := calls[|calls| - 1];
      Written(calls[..|calls| - 1])
        + (if last.PutParameter? then [Parameter(last.name, last.value)] else [])
  }

  /** Writing is append-only: a later trace adds its writes after the earlier
      ones and changes none of them. */
  lemma {:induction false} WrittenAppend(a: seq<Effect>, b: seq<Effect>)
    ensures Written(a + b) == Written(a) + Written(b)
    decreases |b|
  {
    if b == [] {
      assert a + b == a;
    } else {
      var b' := b[..|b| - 1];
      assert (a + b)[..|a + b| - 1] == a + b';
      WrittenAppend(a, b');
    }
  }

  /** The effect is a `put_events` request. */
  predicate IsPublish(e: Effect)
  {
    e.PutEvents?
  }

  /** The effect is a sleep. */
  predicate IsSleep(e: Effect)
  {
    e.Sleep?
  }

  /** The effect is a status poll. */
  predicate IsPoll(e: Effect)
  {
    e.DescribeStackSetOperation?
  }

  /** The recorder every handler appends its effects to. */
  class CallLog {
    var calls: seq<Effect>

    constructor ()
      ensures calls == []
    {
      calls := [];
    }

    method Record(e: Effect)
      modifies this
      ensures calls == old(calls) + [e]
    {
      calls := calls + [e];
    }
  }
}
