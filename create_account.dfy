/** Account Creation (lambdas/createAccount.py): look up the configured
    account's e-mail in the parameter store, then request the account. */
module CreateAccount {
  import opened Common
  import opened Services

  const EmailsPath := "/account-assemble/emails"
  const AccessRoleName := "OrganizationAccountAccessRole"
  const BillingAccess := "DENY"

  /** Entry `i` is the first whose name contains `accountName`. */
  ghost predicate IsFirstNameMatch(params: seq<Parameter>, accountName: string, i: int)
  {
    0 <= i < |params| && Contains(params[i].name, accountName)
    && forall j :: 0 <= j < i ==> !Contains(params[j].name, accountName)
  }

  /** `getEmail`: the value of the first parameter whose name contains
      `accountName`; the scan stops there. No such parameter gives None. */
  function GetEmail(params: seq<Parameter>, accountName: string): (r: Option<string>)
    ensures r.None? <==> forall j :: 0 <= j < |params| ==> !Contains(params[j].name, accountName)
    ensures r.Some? ==> exists j :: 0 <= j < |params| && params[j].value == r.value
  {
    if params == [] then None
    else if Contains(params[0].name, accountName) then Some(params[0].value)
    else
      var rest := GetEmail(params[1..], accountName);
      assert forall j :: 0 <= j < |params| - 1 ==> params[1..][j] == params[j + 1];
      rest
  }

  /** The first matching entry decides, whatever follows it. */
  lemma {:induction false} GetEmailTakesFirstMatch(params: seq<Parameter>, accountName: string, i: int)
    requires IsFirstNameMatch(params, accountName, i)
    ensures GetEmail(params, accountName) == Some(params[i].value)
    decreases i
  {
    if i > 0 {
      assert !Contains(params[0].name, accountName);
      GetEmailTakesFirstMatch(params[1..], accountName, i - 1);
    }
  }

  /** An empty account name is found in the first entry, since `""` occurs in
      every name. */
  lemma EmptyNameTakesFirstEntry(params: seq<Parameter>)
    requires |params| > 0
    ensures GetEmail(params, "") == Some(params[0].value)
  {
    EmptyOccursEverywhere(params[0].name);
  }

  /** `createAccount`: the `create_account` request for an e-mail (None when
      the lookup found nothing) and an account name. */
  function CreateAccountRequest(email: Option<string>, accountName: string): (e: Effect)
    ensures e.CreateAccount? && e.email == email && e.accountName == accountName
    ensures e.roleName == "OrganizationAccountAccessRole" && e.iamUserAccessToBilling == "DENY"
  {
    CreateAccount(email, accountName, AccessRoleName, BillingAccess)
  }

  /** `lambda_handler`, given the configured account name and the listing
      under the e-mails path: exactly one lookup, then exactly one
      `create_account` with the e-mail of the first entry naming the account. */
  function Handle(accountName: string, listing: seq<Parameter>): (calls: seq<Effect>)
    ensures |calls| == 2
    ensures calls[0] == GetParametersByPath("/account-assemble/emails", true, false)
    ensures calls[1].CreateAccount? && calls[1].accountName == accountName
    ensures calls[1].email.None? <==> forall j :: 0 <= j < |listing| ==> !Contains(listing[j].name, accountName)
  {
    [GetParametersByPath(EmailsPath, true, false),
     CreateAccountRequest(GetEmail(listing, accountName), accountName)]
  }

  /** The e-mail the handler requests the account with is the value of the
      first listing entry whose name contains the account name. */
  lemma HandleUsesFirstMatch(accountName: string, listing: seq<Parameter>, i: int)
    requires IsFirstNameMatch(listing, accountName, i)
    ensures Handle(accountName, listing)[1].email == Some(listing[i].value)
  {
    GetEmailTakesFirstMatch(listing, accountName, i);
  }
}
