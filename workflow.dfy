/** How the stages agree through the parameter store: what the bootstrap
    writes is what the relocation and the baseline deployment read back; and
    a few end-to-end runs of single handlers. */
module Workflow {
  import opened Common
  import opened Services
  import CreateOu
  import MoveAccount
  import Stackset
  import EnableLogging

  /** A character of `str(uuid4())`: a lower-case hex digit or '-'. */
  predicate IsUuidChar(c: char)
  {
    '0' <= c <= '9' || 'a' <= c <= 'f' || c == '-'
  }

  predicate IsUuidText(u: string)
  {
    forall k :: 0 <= k < |u| ==> IsUuidChar(u[k])
  }

  /** The root-id name is read as a master entry by both scans: it contains
      "master" and not "workloads" ('w' is not a uuid character). */
  lemma MasterNameIsMasterOnly(u: string)
    requires IsUuidText(u)
    ensures Contains(CreateOu.MasterParameterName(u), "master")
    ensures !Contains(CreateOu.MasterParameterName(u), "workloads")
  {
    var x := CreateOu.MasterParameterName(u);
    assert x == "/account-assemble/orgIds/master-" + u;
    assert x[25..31] == "master";
    assert MatchesAt(x, "master", 25);
    assert 'w' !in u;
    AbsentChar(x, "workloads", 0);
  }

  /** The unit-id name contains "workloads". */
  lemma WorkloadsNameHasWorkloads(u: string)
    ensures Contains(CreateOu.WorkloadsParameterName(u), "workloads")
  {
    var x := CreateOu.WorkloadsParameterName(u);
    assert x == "/account-assemble/orgIds/workloads-" + u;
    assert x[25..34] == "workloads";
    assert MatchesAt(x, "workloads", 25);
  }

  /** The unit-id name does not contain "master": its only 'm' is the one of
      "assemble", followed by 'b'. */
  lemma WorkloadsNameLacksMaster(u: string)
    requires IsUuidText(u)
    ensures !Contains(CreateOu.WorkloadsParameterName(u), "master")
  {
    var l := "/account-asse";
    var r := "ble/orgIds/workloads-" + u;
    var x := l + ['m'] + r;
    assert x == CreateOu.WorkloadsParameterName(u);
    assert 'm' !in u;
    forall i: nat | i <= |x|
      ensures !MatchesAt(x, "master", i)
    {
      AnchorPosition(l, 'm', r, "master", 0, i);
      MatchedChar(x, "master", 13, 1);
    }
  }

  /** Both names lie inside the hierarchy the readers list: the namespace
      followed by a path separator. */
  lemma NamesUnderOrgIdsPath(u1: string, u2: string)
    ensures CreateOu.MasterParameterName(u1)[..|OrgIdsPath| + 1] == "/account-assemble/orgIds/"
    ensures CreateOu.WorkloadsParameterName(u2)[..|OrgIdsPath| + 1] == "/account-assemble/orgIds/"
  {
  }

  /** Round trip: when the listing returns every entry of the store, in write
      order and on one page,
      the relocation's lookup and the deployment's lookup read back exactly the
      ids the latest bootstrap wrote; the entries of earlier bootstraps are
      still there in front of them. */
  lemma ReadersSeeLatestBootstrap(earlier: seq<Effect>, masterId: string, masterSuffix: string,
                                  workloadsSuffix: string, workloadsId: string)
    requires IsUuidText(masterSuffix) && IsUuidText(workloadsSuffix)
    ensures var listing := Written(earlier + CreateOu.BootstrapEffects(masterId, masterSuffix, workloadsSuffix, workloadsId));
      && |listing| == |Written(earlier)| + 2
      && listing[..|Written(earlier)|] == Written(earlier)
      && MoveAccount.OrgIdsOf(listing) == Ok(MoveAccount.OrgIds(masterId, workloadsId))
      && Stackset.OuIdOf(listing) == Ok(workloadsId)
  {
    var before := Written(earlier);
    var m := Parameter(CreateOu.MasterParameterName(masterSuffix), masterId);
    var w := Parameter(CreateOu.WorkloadsParameterName(workloadsSuffix), workloadsId);
    CreateOu.BootstrapAppendsTwoEntries(earlier, masterId, masterSuffix, workloadsSuffix, workloadsId);
    var listing := before + [m, w];
    MasterNameIsMasterOnly(masterSuffix);
    WorkloadsNameHasWorkloads(workloadsSuffix);
    WorkloadsNameLacksMaster(workloadsSuffix);
    MoveAccount.OrgIdsLastMatchWins(listing, |before|, |before| + 1);
    Stackset.OuIdIsLastWorkloadsEntry(listing, |before| + 1);
  }

  /** The two entries of one bootstrap are classified the same whichever
      order the listing gives them in. */
  lemma BootstrapEntriesInEitherOrder(masterId: string, masterSuffix: string,
                                      workloadsSuffix: string, workloadsId: string)
    requires IsUuidText(masterSuffix) && IsUuidText(workloadsSuffix)
    ensures var m := Parameter(CreateOu.MasterParameterName(masterSuffix), masterId);
            var w := Parameter(CreateOu.WorkloadsParameterName(workloadsSuffix), workloadsId);
      && MoveAccount.OrgIdsOf([w, m]) == Ok(MoveAccount.OrgIds(masterId, workloadsId))
      && Stackset.OuIdOf([w, m]) == Ok(workloadsId)
  {
    var m := Parameter(CreateOu.MasterParameterName(masterSuffix), masterId);
    var w := Parameter(CreateOu.WorkloadsParameterName(workloadsSuffix), workloadsId);
    MasterNameIsMasterOnly(masterSuffix);
    WorkloadsNameHasWorkloads(workloadsSuffix);
    WorkloadsNameLacksMaster(workloadsSuffix);
    MoveAccount.OrgIdsLastMatchWins([w, m], 1, 0);
    Stackset.OuIdIsLastWorkloadsEntry([w, m], 0);
  }

  // ---------------------------------------------------------------------------
  // Single runs.

  /** An account named "Prod" is moved once, from the root to the unit. */
  method RelocateProdAccount(ids: MoveAccount.OrgIds) returns (calls: seq<Effect>, message: Option<string>)
    ensures calls == [DescribeAccount("111111111111"),
                      MoveAccount("111111111111", ids.master, ids.workloads)]
    ensures message == Some("accountName: Prod, accountId: 111111111111")
  {
    var log := new CallLog();
    message := MoveAccount.Handle(log, "111111111111", "Prod", ids);
    calls := log.calls;
    assert MoveAccount.MoveMessage("Prod", "111111111111") == "accountName: Prod, accountId: 111111111111";
  }

  /** An account named "Sandbox" is not moved; the trigger is only logged. */
  method IgnoreSandboxAccount(ids: MoveAccount.OrgIds) returns (calls: seq<Effect>, message: Option<string>)
    ensures calls == [DescribeAccount("222222222222"), LogInfo("Accidental Trigger")]
    ensures message == None
  {
    var log := new CallLog();
    message := MoveAccount.Handle(log, "222222222222", "Sandbox", ids);
    calls := log.calls;
  }

  /** RUNNING then SUCCEEDED: two polls, one sleep, one completion event. */
  method DeployRunningThenSucceeded(ou: string, suffix: string, operationId: string)
    returns (calls: seq<Effect>, r: Result<Stackset.PollOutcome, Failure>)
    ensures r == Ok(Stackset.Exited(2))
    ensures var name := Stackset.BaselineStackName(suffix);
      calls == [Stackset.StackSetRequest(name), Stackset.InstancesRequest(name, ou),
                DescribeStackSetOperation(name, operationId), Sleep(10),
                DescribeStackSetOperation(name, operationId), Stackset.CompletionEvent()]
  {
    var log := new CallLog();
    r := Stackset.Handle(log, ou, suffix, true, Some(operationId), ["RUNNING", "SUCCEEDED"]);
    calls := log.calls;
    var statuses := ["RUNNING", "SUCCEEDED"];
    assert Stackset.FirstSucceeded(statuses[1..]) == Some(0);
    assert Stackset.PollOutcomeOf(statuses) == Stackset.Exited(2);
    assert statuses[..2] == statuses && statuses[..1] == ["RUNNING"] && statuses[..1][..0] == [];
    var name := Stackset.BaselineStackName(suffix);
    assert Stackset.PollEffects(name, operationId, statuses[..1])
        == [DescribeStackSetOperation(name, operationId), Sleep(10)];
    assert Stackset.PollEffects(name, operationId, statuses)
        == [DescribeStackSetOperation(name, operationId), Sleep(10), DescribeStackSetOperation(name, operationId)];
  }

  /** FAILED on the first poll neither raises nor sleeps nor publishes: the
      loop polls again (and, with no later SUCCEEDED, never returns). */
  method DeployFailedKeepsPolling(ou: string, suffix: string, operationId: string)
    returns (calls: seq<Effect>, r: Result<Stackset.PollOutcome, Failure>)
    ensures r == Ok(Stackset.StillPolling(1))
    ensures var name := Stackset.BaselineStackName(suffix);
      calls == [Stackset.StackSetRequest(name), Stackset.InstancesRequest(name, ou),
                DescribeStackSetOperation(name, operationId)]
  {
    var log := new CallLog();
    r := Stackset.Handle(log, ou, suffix, true, Some(operationId), ["FAILED"]);
    calls := log.calls;
    var statuses := ["FAILED"];
    assert Stackset.PollOutcomeOf(statuses) == Stackset.StillPolling(1);
    assert statuses[..1] == statuses && statuses[..0] == [];
    var name := Stackset.BaselineStackName(suffix);
    assert Stackset.PollEffects(name, operationId, statuses) == [DescribeStackSetOperation(name, operationId)];
  }

  /** An organization-wide trail is not updated, and still gets the
      account's selector. */
  method LogOnOrganizationTrail(trailName: string, accountEmail: string, accountId: string)
    returns (calls: seq<Effect>, r: Result<(), Failure>)
    ensures r.Ok?
    ensures calls == [DescribeTrails(false), ListAccounts,
                      PutEventSelectors(trailName,
                        [EventSelector([DataResource("AWS::S3::Object",
                                                     ["arn:aws:s3:::bucket-" + accountId + "/"])])])]
  {
    var log := new CallLog();
    var accounts := [EnableLogging.Account(accountId, accountEmail, "Prod")];
    r := EnableLogging.Handle(log, accountEmail, [EnableLogging.Trail(trailName, true)], accounts);
    calls := log.calls;
    EnableLogging.AccountIdIsLastExactMatch(accounts, accountEmail, 0);
  }
}
