/** Org-Structure Bootstrap (lambdas/createOu.py): store the root id, create
    the "Workloads" organizational unit under it, store that unit's id. */
module CreateOu {
  import opened Common
  import opened Services

  const WorkloadsOuName := "Workloads"

  /** One root of `list_roots`. */
  datatype Root = Root(id: string)

  /** The name the root id is stored under, for a uuid text `suffix`. */
  function MasterParameterName(suffix: string): string
  {
    OrgIdsPath + "/master-" + suffix
  }

  /** The name the Workloads unit id is stored under, for a uuid text `suffix`. */
  function WorkloadsParameterName(suffix: string): string
  {
    OrgIdsPath + "/workloads-" + suffix
  }

  /** `grabMasterId`: the id of the first root; an empty list raises. */
  function GrabMasterId(roots: seq<Root>): (r: Result<string, Failure>)
    ensures r.Err? <==> roots == []
    ensures r.Ok? ==> r.value == roots[0].id
    ensures r.Err? ==> r.error == IndexOutOfRange("Roots")
  {
    if roots == [] then Err(IndexOutOfRange("Roots")) else Ok(roots[0].id)
  }

  /** The module-level lookup run at cold start: list the roots and take the
      first one's id from the list the service answers with. */
  method ColdStart(log: CallLog, roots: seq<Root>) returns (r: Result<string, Failure>)
    modifies log
    ensures log.calls == old(log.calls) + [ListRoots]
    ensures r == GrabMasterId(roots)
  {
    log.Record(ListRoots);
    if roots == [] {
      r := Err(IndexOutOfRange("Roots"));
    } else {
      r := Ok(roots[0].id);
    }
  }

  /** What one bootstrap invocation asks of the services, in order. */
  function BootstrapEffects(masterId: string, masterSuffix: string,
                            workloadsSuffix: string, workloadsId: string): seq<Effect>
  {
    [PutParameter(MasterParameterName(masterSuffix), "Master Org Id", masterId, "String"),
     CreateOrganizationalUnit(masterId, WorkloadsOuName),
     PutParameter(WorkloadsParameterName(workloadsSuffix), "Workloads Ou Id", workloadsId, "String")]
  }

  /** `createOrgUnit`: request a unit named `ouName` under `rootId`; `replyId`
      is the id the service answers with, and is returned. */
  method CreateOrgUnit(log: CallLog, rootId: string, ouName: string, replyId: string)
    returns (ouId: string)
    modifies log
    ensures ouId == replyId
    ensures log.calls == old(log.calls) + [CreateOrganizationalUnit(rootId, ouName)]
  {
    log.Record(CreateOrganizationalUnit(rootId, ouName));
    ouId := replyId;
  }

  /** `lambda_handler`. `masterId` is the cold-start value of GrabMasterId,
      the suffixes are the two `uuid4()` texts and `replyId` is the id the
      unit is created with. The root id is written first, then the unit is
      created under it, then its id is written. */
  method Handle(log: CallLog, masterId: string, masterSuffix: string,
                workloadsSuffix: string, replyId: string)
    modifies log
    ensures log.calls == old(log.calls) + BootstrapEffects(masterId, masterSuffix, workloadsSuffix, replyId)
  {
    var masterName := OrgIdsPath + "/master-" + masterSuffix;
    log.Record(PutParameter(masterName, "Master Org Id", masterId, "String"));
    var workloadsId := CreateOrgUnit(log, masterId, WorkloadsOuName, replyId);
    var workloadsName := OrgIdsPath + "/workloads-" + workloadsSuffix;
    log.Record(PutParameter(workloadsName, "Workloads Ou Id", workloadsId, "String"));
  }

  /** One invocation adds exactly two parameters to whatever the store held,
      the root id and then the unit id, and rewrites none of the earlier ones:
      running it twice leaves four entries. */
  lemma BootstrapAppendsTwoEntries(earlier: seq<Effect>, masterId: string, masterSuffix: string,
                                   workloadsSuffix: string, workloadsId: string)
    ensures Written(earlier + BootstrapEffects(masterId, masterSuffix, workloadsSuffix, workloadsId))
         == Written(earlier) + [Parameter(MasterParameterName(masterSuffix), masterId),
                                Parameter(WorkloadsParameterName(workloadsSuffix), workloadsId)]
  {
    var b := BootstrapEffects(masterId, masterSuffix, workloadsSuffix, workloadsId);
    WrittenAppend(earlier, b);
    assert b[..2][..1] == b[..1] && b[..1][..0] == [];
    assert Written(b[..1]) == [Parameter(MasterParameterName(masterSuffix), masterId)];
    assert Written(b[..2]) == Written(b[..1]);
  }
}
