/** Logging Enablement (lambdas/enableLogging.py): make the first trail
    organization-wide if it is not yet, then point its data-event selector at
    the configured account's bucket. */
module EnableLogging {
  import opened Common
  import opened Services

  const S3ObjectType := "AWS::S3::Object"

  /** One account of `list_accounts`. */
  datatype Account = Account(id: string, email: string, name: string)

  /** One trail of `describe_trails`. */
  datatype Trail = Trail(name: string, isOrganizationTrail: bool)

  /** The scan's test: the account's e-mail equals `accountEmail` exactly. */
  function HasEmail(accountEmail: string): Account -> bool
  {
    (a: Account) => a.email == accountEmail
  }

  /** What `getAccountId` returns: the id of the last account whose e-mail is
      exactly `accountEmail`, or the never-assigned `accountId`. */
  function AccountIdOf(accounts: seq<Account>, accountEmail: string): Result<string, Failure>
  {
    match LastIndex(accounts, HasEmail(accountEmail))
    case None => Err(UnboundLocal("accountId"))
    case Some(i) => Ok(accounts[i].id)
  }

  /** `getAccountId`, given the `list_accounts` response: the loop that
      reassigns `accountId` on every account with that e-mail. */
  method GetAccountId(accounts: seq<Account>, accountEmail: string) returns (r: Result<string, Failure>)
    ensures r == AccountIdOf(accounts, accountEmail)
  {
    var accountId: Option<string> := None;
    for i := 0 to |accounts|
      invariant accountId == (match LastIndex(accounts[..i], HasEmail(accountEmail))
                              case None => None case Some(k) => Some(accounts[k].id))
    {
      LastIndexSnoc(accounts[..i], accounts[i], HasEmail(accountEmail));
      assert accounts[..i + 1] == accounts[..i] + [accounts[i]];
      if accounts[i].email == accountEmail {
        accountId := Some(accounts[i].id);
      }
    }
    assert accounts[..|accounts|] == accounts;
    if accountId.None? {
      r := Err(UnboundLocal("accountId"));
    } else {
      r := Ok(accountId.value);
    }
  }

  /** The lookup succeeds exactly when some account has the e-mail, and then
      answers the id of the last such account in listing order. */
  lemma AccountIdIsLastExactMatch(accounts: seq<Account>, accountEmail: string, i: int)
    requires 0 <= i < |accounts| && accounts[i].email == accountEmail
    requires forall j :: i < j < |accounts| ==> accounts[j].email != accountEmail
    ensures AccountIdOf(accounts, accountEmail) == Ok(accounts[i].id)
  {
  }

  lemma AccountIdNeedsMatch(accounts: seq<Account>, accountEmail: string)
    ensures AccountIdOf(accounts, accountEmail).Err?
        <==> forall j :: 0 <= j < |accounts| ==> accounts[j].email != accountEmail
  {
  }

  /** `isOrg`: describe the trails and report whether the first one is
      organization-wide, and its name. An empty trail list raises. */
  method IsOrg(log: CallLog, trails: seq<Trail>) returns (r: Result<(bool, string), Failure>)
    modifies log
    ensures log.calls == old(log.calls) + [DescribeTrails(false)]
    ensures trails == [] ==> r == Err(IndexOutOfRange("trailList"))
    ensures trails != [] ==> r == Ok((trails[0].isOrganizationTrail, trails[0].name))
  {
    log.Record(DescribeTrails(false));
    if trails == [] {
      return Err(IndexOutOfRange("trailList"));
    }
    var cloudtrail := trails[0];
    var orgEnabled := false;
    if cloudtrail.isOrganizationTrail {
      orgEnabled := true;
    }
    r := Ok((orgEnabled, cloudtrail.name));
  }

  /** `updateTrail`: make the named trail organization-wide. */
  method UpdateTrailToOrg(log: CallLog, trailName: string)
    modifies log
    ensures log.calls == old(log.calls) + [UpdateTrail(trailName, true)]
  {
    log.Record(UpdateTrail(trailName, true));
  }

  /** The selector list `addEvent` sends: one selector with one data resource
      of type `AWS::S3::Object` whose only value is the bucket. */
  function BucketSelectors(bucket: string): seq<EventSelector>
  {
    [EventSelector([DataResource(S3ObjectType, [bucket])])]
  }

  /** `addEvent`: set the trail's event selectors to the bucket's. */
  method AddEvent(log: CallLog, trailName: string, bucket: string)
    modifies log
    ensures log.calls == old(log.calls)
      + [PutEventSelectors(trailName, [EventSelector([DataResource("AWS::S3::Object", [bucket])])])]
  {
    log.Record(PutEventSelectors(trailName, BucketSelectors(bucket)));
  }

  /** The per-account bucket resource. */
  function BucketArn(accountId: string): string
  {
    "arn:aws:s3:::bucket-" + accountId + "/"
  }

  /** Distinct accounts get distinct bucket resources. */
  lemma BucketArnIdentifiesAccount(id1: string, id2: string)
    requires BucketArn(id1) == BucketArn(id2)
    ensures id1 == id2
  {
    var b := BucketArn(id1);
    assert |id1| == |id2|;
    assert b[20..20 + |id1|] == id1;
    assert b[20..20 + |id2|] == id2;
  }

  /** The trace of one invocation that reached `list_accounts`: the describe,
      the upgrade only for a trail that is not yet organization-wide, the
      listing, and then the selector call only when the e-mail was found. */
  function LoggingEffects(first: Trail, accountId: Result<string, Failure>): (calls: seq<Effect>)
    ensures |calls| >= 2 && calls[0] == DescribeTrails(false)
    ensures (exists k :: 0 <= k < |calls| && calls[k].UpdateTrail?) <==> !first.isOrganizationTrail
    ensures forall k :: 0 <= k < |calls| && calls[k].UpdateTrail? ==> calls[k] == UpdateTrail(first.name, true)
    ensures accountId.Ok? ==>
              calls[|calls| - 1] == PutEventSelectors(first.name, BucketSelectors("arn:aws:s3:::bucket-" + accountId.value + "/"))
    ensures accountId.Err? ==> forall k :: 0 <= k < |calls| ==> !calls[k].PutEventSelectors?
  {
    var upgrade := if first.isOrganizationTrail then [] else [UpdateTrail(first.name, true)];
    var selector := if accountId.Ok? then [PutEventSelectors(first.name, BucketSelectors(BucketArn(accountId.value)))]
                    else [];
    var calls := [DescribeTrails(false)] + upgrade + [ListAccounts] + selector;
    assert !first.isOrganizationTrail ==> calls[1].UpdateTrail?;
    calls
  }

  /** `lambda_handler`, given the configured e-mail, the `describe_trails`
      list and the `list_accounts` response. The selector is written whether
      or not the trail was already organization-wide; an empty trail list or
      an unknown e-mail raises, the latter after any upgrade was made. */
  method Handle(log: CallLog, accountEmail: string, trails: seq<Trail>, accounts: seq<Account>)
    returns (r: Result<(), Failure>)
    modifies log
    ensures trails == [] ==>
      r == Err(IndexOutOfRange("trailList")) && log.calls == old(log.calls) + [DescribeTrails(false)]
    ensures trails != [] ==>
      && log.calls == old(log.calls) + LoggingEffects(trails[0], AccountIdOf(accounts, accountEmail))
      && (r.Ok? <==> AccountIdOf(accounts, accountEmail).Ok?)
      && (r.Err? ==> r.error == UnboundLocal("accountId"))
  {
    var trail := IsOrg(log, trails);
    if trail.Err? {
      return Err(trail.error);
    }
    var (orgEnabled, trailName) := trail.value;
    if !orgEnabled {
      UpdateTrailToOrg(log, trailName);
    }
    log.Record(ListAccounts);
    var accountId := GetAccountId(accounts, accountEmail);
    if accountId.Err? {
      return Err(accountId.error);
    }
    var accountBucket := "arn:aws:s3:::bucket-" + accountId.value + "/";
    AddEvent(log, trailName, accountBucket);
    r := Ok(());
  }
}
