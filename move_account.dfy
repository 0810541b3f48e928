/** Account Relocation (lambdas/moveAccount.py): move a newly created account
    from the root to the Workloads unit, but only when its name is one of the
    workflow's environment names. */
module MoveAccount {
  import opened Common
  import opened Services

  const AllowList: seq<string> := ["Dev", "Staging", "Prod"]
  const AccidentalTrigger := "Accidental Trigger"

  /** The two ids the relocation reads from the parameter store. */
  datatype OrgIds = OrgIds(master: string, workloads: string)

  /** The scan's first test: the name contains "master". */
  predicate IsMasterEntry(p: Parameter)
  {
    Contains(p.name, "master")
  }

  /** The scan's `elif`: only a name that failed the "master" test is tested
      for "workloads". */
  predicate IsWorkloadsEntry(p: Parameter)
  {
    !Contains(p.name, "master") && Contains(p.name, "workloads")
  }

  /** What `getOrgIds` returns for a listing: the values of the last master
      entry and of the last workloads entry, or the local it never assigned
      (`master` is read first by the `return`). */
  function OrgIdsOf(params: seq<Parameter>): Result<OrgIds, Failure>
  {
    match (LastIndex(params, IsMasterEntry), LastIndex(params, IsWorkloadsEntry))
    case (None, _) => Err(UnboundLocal("master"))
    case (Some(_), None) => Err(UnboundLocal("workloads"))
    case (Some(i), Some(j)) => Ok(OrgIds(params[i].value, params[j].value))
  }

  /** `getOrgIds`, given the `get_parameters_by_path` listing: the loop that
      reassigns `master` or (else) `workloads` on every matching entry. */
  method GetOrgIds(params: seq<Parameter>) returns (r: Result<OrgIds, Failure>)
    ensures r == OrgIdsOf(params)
  {
    var master: Option<string> := None;
    var workloads: Option<string> := None;
    for i := 0 to |params|
      invariant master == (match LastIndex(params[..i], IsMasterEntry)
                           case None => None case Some(k) => Some(params[k].value))
      invariant workloads == (match LastIndex(params[..i], IsWorkloadsEntry)
                              case None => None case Some(k) => Some(params[k].value))
    {
      LastIndexSnoc(params[..i], params[i], IsMasterEntry);
      LastIndexSnoc(params[..i], params[i], IsWorkloadsEntry);
      assert params[..i + 1] == params[..i] + [params[i]];
      if Contains(params[i].name, "master") {
        master := Some(params[i].value);
      } else if Contains(params[i].name, "workloads") {
        workloads := Some(params[i].value);
      }
    }
    assert params[..|params|] == params;
    if master.None? {
      r := Err(UnboundLocal("master"));
    } else if workloads.None? {
      r := Err(UnboundLocal("workloads"));
    } else {
      r := Ok(OrgIds(master.value, workloads.value));
    }
  }

  /** The module-level lookup run at cold start: list the namespace (without
      decryption) and scan the listing the store answers with. */
  method ColdStart(log: CallLog, listing: seq<Parameter>) returns (r: Result<OrgIds, Failure>)
    modifies log
    ensures log.calls == old(log.calls) + [GetParametersByPath("/account-assemble/orgIds", true, false)]
    ensures r == OrgIdsOf(listing)
  {
    log.Record(GetParametersByPath(OrgIdsPath, true, false));
    r := GetOrgIds(listing);
  }

  /** With a name containing "master" and another containing "workloads" but
      not "master", the lookup returns the values of the last such entries in
      listing order. */
  lemma OrgIdsLastMatchWins(params: seq<Parameter>, i: int, j: int)
    requires IsLastPassing(params, IsMasterEntry, i)
    requires IsLastPassing(params, IsWorkloadsEntry, j)
    ensures OrgIdsOf(params) == Ok(OrgIds(params[i].value, params[j].value))
  {
  }

  /** The lookup succeeds exactly when some name contains "master" and some
      other name contains "workloads" but not "master". */
  lemma OrgIdsFoundIffBothTags(params: seq<Parameter>)
    ensures OrgIdsOf(params).Ok?
        <==> (exists k :: 0 <= k < |params| && IsMasterEntry(params[k]))
             && (exists k :: 0 <= k < |params| && IsWorkloadsEntry(params[k]))
  {
  }

  /** Without a name containing "master" the lookup fails on `master`. */
  lemma OrgIdsNeedMaster(params: seq<Parameter>)
    ensures OrgIdsOf(params) == Err(UnboundLocal("master"))
        <==> forall k :: 0 <= k < |params| ==> !Contains(params[k].name, "master")
  {
  }

  /** A name holding both tags is classified as master only: such an entry
      never supplies the workloads id, so a listing whose only "workloads" names
      also say "master" fails on `workloads`. */
  lemma BothTagsCountAsMaster(params: seq<Parameter>)
    requires exists k :: 0 <= k < |params| && Contains(params[k].name, "master")
    requires forall k :: 0 <= k < |params| && Contains(params[k].name, "workloads")
                         ==> Contains(params[k].name, "master")
    ensures OrgIdsOf(params) == Err(UnboundLocal("workloads"))
  {
  }

  /** The message a successful relocation returns. */
  function MoveMessage(accountName: string, accountId: string): string
  {
    "accountName: " + accountName + ", accountId: " + accountId
  }

  /** The message identifies the account: two relocations of allow-listed
      accounts return the same message only for the same name and id. */
  lemma MoveMessageIdentifiesAccount(n1: string, id1: string, n2: string, id2: string)
    requires n1 in AllowList && n2 in AllowList
    requires MoveMessage(n1, id1) == MoveMessage(n2, id2)
    ensures n1 == n2 && id1 == id2
  {
    var m := MoveMessage(n1, id1);
    assert m[13] == n1[0] && m[13] == n2[0];
    assert n1 == n2;
    var k := 13 + |n1| + 13;
    assert m[k..] == id1;
    assert m[k..] == id2;
  }

  /** `lambda_handler`, given the event's account id, the name
      `describe_account` answers with and the cold-start ids. An allow-listed
      name gets exactly one `move_account` from the root to the Workloads unit
      and the message; any other name gets only the log line, and no result. */
  method Handle(log: CallLog, accountId: string, describedName: string, ids: OrgIds)
    returns (message: Option<string>)
    modifies log
    ensures describedName in AllowList ==>
      && message == Some(MoveMessage(describedName, accountId))
      && log.calls == old(log.calls) + [DescribeAccount(accountId),
                                        MoveAccount(accountId, ids.master, ids.workloads)]
    ensures describedName !in AllowList ==>
      && message == None
      && log.calls == old(log.calls) + [DescribeAccount(accountId), LogInfo("Accidental Trigger")]
  {
    log.Record(DescribeAccount(accountId));
    var accountName := describedName;
    if accountName in AllowList {
      log.Record(MoveAccount(accountId, ids.master, ids.workloads));
      message := Some("accountName: " + accountName + ", accountId: " + accountId);
    } else {
      log.Record(LogInfo(AccidentalTrigger));
      message := None;
    }
  }
}
