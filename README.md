# account-assemble: the stage handlers' decision logic

account-assemble provisions member accounts of an AWS organization through five
independently triggered Lambda handlers that share identifiers through the SSM
parameter store:

- **Account Creation** (`lambdas/createAccount.py`) finds the configured account's
  e-mail among the parameters under `/account-assemble/emails` (first name that
  contains the account name) and calls `create_account`.
- **Org-Structure Bootstrap** (`lambdas/createOu.py`) stores the first root's id
  under `/account-assemble/orgIds/master-<uuid>`, creates the `Workloads` unit
  under that root and stores its id under `/account-assemble/orgIds/workloads-<uuid>`.
- **Account Relocation** (`lambdas/moveAccount.py`) reads both ids at cold start
  by substring scan (last match wins; "master" is tested before "workloads"),
  and moves an account from the root to the unit only when its name is `Dev`,
  `Staging` or `Prod`.
- **Logging Enablement** (`lambdas/enableLogging.py`) makes the first trail
  organization-wide when it is not yet, finds the account id for the configured
  e-mail (exact match, last wins) and sets the trail's data-event selector to
  `arn:aws:s3:::bucket-<id>/`.
- **Baseline Deployment** (`lambdas/stackset.py`) reads the unit id at cold
  start, creates the stack set `account-baseline-<uuid>`, deploys it to the unit
  in `us-east-1`, polls the operation (`RUNNING` sleeps 10 and polls again,
  `SUCCEEDED` leaves, anything else polls again at once) and only then publishes
  the `assembler-stackset` / `SUCCEEDED` event.

The services are not modelled. Each response a handler receives is an input of
the Dafny member that models it (a listing, a described name, a trail list, an
operation id, the sequence of statuses the polls observe). Each request a
handler makes is an `Effect` appended to a `Services.CallLog`, and so are its
log lines and sleeps. The contracts therefore say exactly which requests are
made, in which order and with which arguments. Python's `sub in name` is
`Common.Contains`. An `UnboundLocalError` (a scan that never assigned its
variable) and an `IndexError` (`[0]` of an empty list) are `Err` results.

Where the code and the design intent for the workflow differ, the model
follows the code:
- a `FAILED` or `STOPPED` status does not raise; the loop keeps polling;
- the baseline handler does not look for an error key in its event;
- bootstrap is not idempotent: every run adds two entries under new names;
- a lookup that matches several entries silently takes the last one (or the
  first, for e-mails);
- the selector request carries only the new account's bucket;
- the published event names the service `assembler-stackset`.

Files: `common.dfy` (outcomes, parameters, substring test, last-match
selection, counting), `services.dfy` (effects, the call log, the path
namespace), one file per handler, and `workflow.dfy` (what the bootstrap writes
is what the readers read back, plus single runs of the handlers).

## Model

| member | source | states |
|---|---|---|
| `Common.LastIndex` | lambdas/moveAccount.py:19-24 | the position a reassign-on-match loop leaves behind: a passing element with no passing element after it, and None exactly when nothing passes |
| `Common.LastIndexFindsLast` | lambdas/stackset.py:18-21 | conversely, the last passing element is the one selected |
| `Common.EmptyOccursEverywhere` | lambdas/createAccount.py:17 | `"" in name` holds for every name |
| `Services.WrittenAppend` | lambdas/createOu.py:32-48 | the parameters a trace writes are those of its parts, in order; later writes change no earlier one |
| `CreateAccount.GetEmail` | lambdas/createAccount.py:9-19 | None exactly when no parameter name contains the account name; otherwise the value of a listed parameter |
| `CreateAccount.GetEmailTakesFirstMatch` | lambdas/createAccount.py:16-18 | the first entry whose name contains the account name decides, whatever follows |
| `CreateAccount.EmptyNameTakesFirstEntry` | lambdas/createAccount.py:16-18 | an empty account name yields the first entry's value |
| `CreateAccount.CreateAccountRequest` | lambdas/createAccount.py:21-28 | `create_account` gets the looked-up e-mail, the same name, role `OrganizationAccountAccessRole` and billing access `DENY` |
| `CreateAccount.Handle` | lambdas/createAccount.py:30-34 | exactly one lookup under `/account-assemble/emails` (recursive, no decryption), then exactly one `create_account` for the configured name, whose e-mail is None exactly when no name matches |
| `CreateAccount.HandleUsesFirstMatch` | lambdas/createAccount.py:30-34 | the e-mail the account is requested with is the value of the first matching entry |
| `CreateOu.GrabMasterId` | lambdas/createOu.py:9-13 | the first root's id; an empty root list raises |
| `CreateOu.ColdStart` | lambdas/createOu.py:9-13 | the cold-start lookup records exactly one `list_roots` request and returns `grabMasterId`'s outcome on the roots the service answers with |
| `CreateOu.CreateOrgUnit` | lambdas/createOu.py:16-23 | one `create_organizational_unit` under the given parent with the given name; the service's id is returned |
| `CreateOu.Handle` | lambdas/createOu.py:28-48 | the trace grows by: put master-<uuid> = root id, create `Workloads` under the root, put workloads-<uuid> = the new unit's id, in that order |
| `CreateOu.BootstrapAppendsTwoEntries` | lambdas/createOu.py:30-48 | one run adds exactly those two parameters after everything stored before, and rewrites none |
| `MoveAccount.GetOrgIds` | lambdas/moveAccount.py:12-24 | the scan loop returns the values of the last "master" entry and of the last entry that says "workloads" but not "master", or fails on the unassigned local |
| `MoveAccount.ColdStart` | lambdas/moveAccount.py:12-26 | one listing request for `/account-assemble/orgIds` (recursive, no decryption), then the scan |
| `MoveAccount.OrgIdsFoundIffBothTags` | lambdas/moveAccount.py:19-24 | the lookup succeeds if and only if some name contains "master" and some name contains "workloads" but not "master" |
| `MoveAccount.OrgIdsLastMatchWins` | lambdas/moveAccount.py:19-24 | with several matches, the values of the last ones in listing order are returned |
| `MoveAccount.OrgIdsNeedMaster` | lambdas/moveAccount.py:19-24 | the lookup fails on `master` exactly when no name contains "master" |
| `MoveAccount.BothTagsCountAsMaster` | lambdas/moveAccount.py:19-23 | a name containing both tags is master only, so if every "workloads" name also says "master" the lookup fails on `workloads` |
| `MoveAccount.MoveMessageIdentifiesAccount` | lambdas/moveAccount.py:51 | for allow-listed names the message determines the account name and id |
| `MoveAccount.Handle` | lambdas/moveAccount.py:45-55 | an allow-listed name gets one `move_account`(event id, root, unit) and the message; any other name gets only the "Accidental Trigger" log and no result; either way after one `describe_account` |
| `EnableLogging.GetAccountId` | lambdas/enableLogging.py:8-14 | the scan loop returns the id of the last account whose e-mail is exactly the configured one, or fails on the unassigned local |
| `EnableLogging.AccountIdIsLastExactMatch` | lambdas/enableLogging.py:10-14 | with several matches the last one's id is returned |
| `EnableLogging.AccountIdNeedsMatch` | lambdas/enableLogging.py:10-14 | the lookup fails exactly when no e-mail matches |
| `EnableLogging.IsOrg` | lambdas/enableLogging.py:16-26 | one `describe_trails` without shadow trails; the first trail's organization flag and name; an empty list raises |
| `EnableLogging.UpdateTrailToOrg` | lambdas/enableLogging.py:28-32 | one `update_trail` making the named trail organization-wide |
| `EnableLogging.AddEvent` | lambdas/enableLogging.py:35-50 | one `put_event_selectors` with exactly one selector holding one `AWS::S3::Object` resource whose only value is the bucket |
| `EnableLogging.BucketArnIdentifiesAccount` | lambdas/enableLogging.py:61 | different account ids give different bucket resources |
| `EnableLogging.LoggingEffects` | lambdas/enableLogging.py:52-63 | `update_trail` occurs exactly when the first trail is not organization-wide; the selector for `arn:aws:s3:::bucket-<id>/` on the first trail's name is the last request when the e-mail is found, and absent otherwise |
| `EnableLogging.Handle` | lambdas/enableLogging.py:52-63 | an empty trail list raises after the describe; otherwise the trace grows by LoggingEffects, and the handler raises exactly when the e-mail is not found (after any upgrade) |
| `Stackset.GetOuIds` | lambdas/stackset.py:11-21 | the scan loop returns the value of the last entry whose name contains "workloads", or fails on the unassigned local |
| `Stackset.ColdStart` | lambdas/stackset.py:11-24 | one listing request for `/account-assemble/orgIds`, then the scan |
| `Stackset.OuIdIsLastWorkloadsEntry` | lambdas/stackset.py:18-21 | with several matches the last one's value is returned |
| `Stackset.OuIdNeedsWorkloadsEntry` | lambdas/stackset.py:18-21 | the lookup fails exactly when no name contains "workloads" |
| `Stackset.BaselineStackNameIsPrefixed` | lambdas/stackset.py:28 | every stack set name begins with `account-baseline-`, and different suffixes give different names |
| `Stackset.CreateBaseStack` | lambdas/stackset.py:26-44 | one `create_stack_set` with the fixed description, template, capability, permission model and auto-deployment settings; the name is returned unless the service raised |
| `Stackset.PutEvent` | lambdas/stackset.py:76-91 | one `put_events` with source `assembler-stackset`, detail type `account-assemble event`, detail service `assembler-stackset`, status `SUCCEEDED` |
| `Stackset.FirstSucceeded` | lambdas/stackset.py:66-74 | the position of the first SUCCEEDED status, None exactly when there is none |
| `Stackset.PollOutcomeOf` | lambdas/stackset.py:66-74 | the loop never makes more polls than statuses observed |
| `Stackset.PollEffectsShape` | lambdas/stackset.py:66-74 | one query per observed status, all for the same stack set and operation id; one 10-unit sleep per RUNNING; nothing else, so FAILED neither sleeps nor publishes |
| `Stackset.PollExitsIffSucceeded` | lambdas/stackset.py:71-74 | the loop is left exactly when a SUCCEEDED status is observed, after (its first position + 1) polls; without one it keeps polling |
| `Stackset.DeployBaselineStack` | lambdas/stackset.py:47-74 | one `create_stack_instances` for [unit] in `us-east-1` with failure tolerance 0 and concurrency 100, then the polls up to the first SUCCEEDED; a raise in the request stops there |
| `Stackset.Handle` | lambdas/stackset.py:93-97 | create, then deploy, then publish, each only if the previous returned |
| `Stackset.PublishedIffSucceeded` | lambdas/stackset.py:93-97 | the event is published at most once, as the last request, and exactly when both creation steps succeeded and a SUCCEEDED status was observed |
| `Workflow.MasterNameIsMasterOnly` | lambdas/createOu.py:30 | the root-id name contains "master" and not "workloads" |
| `Workflow.WorkloadsNameHasWorkloads` | lambdas/createOu.py:41 | the unit-id name contains "workloads" |
| `Workflow.WorkloadsNameLacksMaster` | lambdas/createOu.py:41 | the unit-id name does not contain "master" |
| `Workflow.NamesUnderOrgIdsPath` | lambdas/createOu.py:30-41 | both names begin with `/account-assemble/orgIds/`, so they lie inside the hierarchy both readers list, not merely share its text as a prefix |
| `Workflow.ReadersSeeLatestBootstrap` | lambdas/moveAccount.py:19-26 | when the listing holds every entry written, in write order and on one page, the relocation reads back (root id, unit id) and the deployment the unit id of the latest bootstrap; earlier runs' entries remain |
| `Workflow.BootstrapEntriesInEitherOrder` | lambdas/stackset.py:18-24 | the two entries of one run are read back the same in either listing order |
| `Workflow.RelocateProdAccount` | lambdas/moveAccount.py:45-53 | an account named Prod is moved exactly once from the root to the unit |
| `Workflow.IgnoreSandboxAccount` | lambdas/moveAccount.py:54-55 | an account named Sandbox is not moved; only the log line is written |
| `Workflow.DeployRunningThenSucceeded` | lambdas/stackset.py:66-97 | RUNNING then SUCCEEDED gives two polls, one sleep and one event |
| `Workflow.DeployFailedKeepsPolling` | lambdas/stackset.py:71-74 | FAILED on the first poll raises nothing, publishes nothing and leads to another poll |
| `Workflow.LogOnOrganizationTrail` | lambdas/enableLogging.py:55-63 | an organization-wide trail is not updated but still gets the account's selector |

## Left out

- `lambdas/slack.py` (secret fetch, JSON dump, HTTP POST) and `lambdas/producer.py` (a custom-resource wrapper that emits a fixed event): plumbing with no decision logic.
- The AWS services themselves, and pagination: only the first page of `get_parameters_by_path` and `list_accounts` is read by the code, and the inputs stand for that page.
- Service exceptions are modelled only where a property depends on them: `create_stack_set` and `create_stack_instances` in the baseline deployment. Every other call is taken to answer.
- Missing keys (`event['accountId']`, a trail without `IsOrganizationTrail`) and missing environment variables: the fields are taken to be present.
- SDK-side validation: the request `create_account` is recorded with the e-mail None when the lookup found nothing, although the SDK would refuse to send it.
- `time.sleep` is a `Sleep(10)` trace entry, not a delay; `uuid4()` texts are parameters, and their uniqueness is not modelled.
- Non-termination: the polls observe a finite sequence of statuses. `StillPolling` means the handler has not returned after all of them; with no later SUCCEEDED it never returns.
- Cold-start semantics: the module-level lookups are the `ColdStart` and `GrabMasterId` members. Their results are handler inputs, and a failed lookup means the handler never runs.
- The order in which the parameter store lists entries, and where it cuts pages.
- Workflow.ReadersSeeLatestBootstrap: assumes the listing holds every entry written, in write order, with no page cut. The code reads only the first page, so once repeated bootstraps push the namespace past one page, a first page in write order would hold older entries and the readers would return an earlier run's ids; the lemma does not cover that case.
- JSON serialisation of the event detail; the logger configuration; concurrent invocations.
- `Stackset.PollOutcomeOf`: its own contract bounds only the number of polls; when the loop is left is stated by `Stackset.PollExitsIffSucceeded`.
