# MeshSat Hub: verified core

A Dafny model of the parts of the MeshSat Hub whose correctness spans several
requests, several replicas or a whole run, with proofs of what they promise.
`dafny verify dfyconfig.toml` checks everything.

Each part has the same shape. What one request, or one store operation, does is a
function on the stored rows. Runs are sequences of such steps, and the promises are
lemmas over every run. Where the Hub mutates an object, a class with the same fields
and statements is proved to compute that function, so the run lemmas are about it.

| file | part |
|---|---|
| `Provisioning.dfy`, `ProvisioningRuns.dfy`, `ProvisioningVerdicts.dfy`, `ProvisioningHandler.dfy` | one-time credential bundles: QR, direct call, claim, status, deletion, the stash reaper |
| `SignInRace.dfy`, `SignInEnds.dfy` | concurrent first sign-ins of one subject, one store operation at a time |
| `RoleSync.dfy` | the role a sign-in's groups give, and who keeps theirs |
| `Templates.dfy`, `RenderExactly.dfy`, `LooseBraces.dfy`, `TemplateStore.dfy` | placeholders of message templates and rendering |
| `LoginLimiter.dfy`, `LoginBudget.dfy`, `LoginHandler.dfy` | the per-address login limiter |
| `RefreshTokens.dfy` | sessions: login, refresh, logout |
| `AlertRules.dfy`, `AlertRuns.dfy` | the alert rule evaluator, across replicas and alone |
| `CommandJobs.dfy`, `CommandRuns.dfy`, `CommandKept.dfy`, `FingerprintRuns.dfy`, `CommandOwners.dfy`, `CommandHandler.dfy` | bridge commands claimed before they are sent, one store operation at a time |
| `RotationAdvice.dfy` | the audit line of a deleted kit and the list read back from it |
| `ApiKeys.dfy`, `KeyAuthority.dfy` | minting and revoking API keys |
| `Text.dfy`, `Lists.dfy`, `Clock.dfy`, `Options.dfy` | string, list, time and option helpers |

## What turned out to hold only in part

- *A tenant's own owner is never demoted by a group.* In the race of first sign-ins it
  holds, however the callbacks interleave, exactly for a single callback or when every
  callback's groups say owner (`SignInRace.OwnerSafeIff`). Otherwise a callback whose
  groups name another role may check for the owner of record after the subject is
  claimed and before the winner's owner is written (`SignInRace.OwnerCanBeDemoted`); that
  is the only way (`SignInRace.OwnerRoleKeptIff`, `SignInRace.EarlyMeansUnrecorded`).
- *Exactly one of the tenants built stays live.* When every callback finishes, it does
  exactly when no discard failed (`SignInRace.OneTenantSurvives`); a callback that cannot
  discard its tenant goes on (`SignInRace.FailedDiscardLeavesTwo`). A callback that dies
  after it created its tenant leaves it live as well (`SignInRace.CrashLeavesTwo`), and
  there is no third way (`SignInRace.LiveWhenStopped`).
- *An alert pair fires at most once an hour.* A firing is for the hour its pass began in.
  For each of those hours there is at most one, exactly while no pass takes more than 23
  hours and one nanosecond from reading the clock to claiming a pair
  (`AlertRuns.OncePerHour`, `AlertRuns.LagCanFireTwice`). Counted by the hour in which
  firings go out there can be two as soon as a pass takes any time at all, because
  passes straddle the hour: the bound is one, plus one for every begun hour of lag, and it
  is reached for every lag (`AlertRuns.FiringsDuringAnHour`,
  `AlertRuns.FiringsDuringAnHourReached`, `AlertRuns.OnceDuringAnHourIff`).
- *Five failed logins per window.* That is for one login at a time. With `k` attempts
  of an address in flight a window holds `4 + k` and fifteen minutes `2 (4 + k)`, and
  both are reached (`LoginBudget.WindowBudget`, `LoginBudget.QuarterHourBudget`,
  `LoginBudget.BudgetIsTight`, `LoginBudget.QuarterHourIsTight`).
- *A lost claim is handed the job already running.* The package comment says the loser
  must not send anything, but `SendCommand` goes on to send when the lookup finds no
  job. With a request id that takes a lookup after the job has expired
  (`CommandRuns.KeptIsHanded`, `CommandRuns.NothingKept`); for two hours after a claim no
  other POST of that id that meets no store error is let go, however late the claim
  itself is sent (`CommandKept.SentOnce`). Without an id, the fingerprint is claimed before
  the job is written. A retry inside the 90-second window that meets no store error
  of its own is handed the winner's job exactly when that is stored when it looks
  (`FingerprintRuns.RetryInsideTheWindow`, `FingerprintRuns.LookDecides`). So it sends the
  command again when it looks between the two writes
  (`FingerprintRuns.EarlyLookSendsTwice`), and whenever the winner's job write failed
  (`FingerprintRuns.FailedWriteSendsAgain`).
- *A POST is handed a job of its own bridge.* It is, where no tenant or bridge id holds a
  colon (`CommandOwners.HandedIsOwn`); request ids may. A bridge id with a colon can share
  another bridge's job row (`CommandOwners.ColonsClash`).
- *No re-send overlaps a run.* For POSTs of one request id that meet no store error it
  holds exactly when won claims are sent within 59 minutes and losing a claim and looking up
  its job are one step (`CommandRuns.NeverOverlapIff`). A claim sent later can still
  run when the next is sent (`CommandRuns.LateStartOverlaps`); and a POST that loses the
  claim just before the job expires and looks just after sends beside the next winner
  (`CommandRuns.LateLookOverlaps`).
- *The bridge row carries the bundle last taken up.* An install whose certificate write
  fails leaves the new user and password beside the old certificate
  (`ProvisioningRuns.RowIsExpected` covers that too, `ProvisioningRuns.HalfWritten` is such
  a run); no such call answers 200.
- *Rendering replaces every variable at once.* Whatever the values, it does exactly for
  bodies with at most one variable (`RenderExactly.RendersRightIff`). With more it does
  when opening braces are never loose, in the body or in the value of a variable that
  occurs, or when closing ones never are (`Templates.RenderIsSubstitution`). Where both
  are loose the values can spell a placeholder, wherever the two braces stand
  (`LooseBraces.LooseBracesBreakIt`, `LooseBraces.OrderMatters`).

## Model

| member | source | states |
|---|---|---|
| `Provisioning.TenantRecovered` | internal/api/bridge_provision.go:183-192 | a stash key gives its tenant back exactly when the tenant id is non-empty and free of colons, or is unreadable and the looked-up owner happens to be it |
| `Provisioning.KeysInjective` | internal/api/bridge_provision.go:117-124 | stash keys of different (tenant, bridge) pairs differ for colon-free tenants |
| `Provisioning.FindStash` | internal/api/bridge_provision.go:135-163 | finds a listed key that matches the id and nonce, and nothing only when none does |
| `ProvisioningRuns.RunInv` | internal/api/bridge_provision.go:229-313 | at every reachable state each stash is the untouched latest mint of its own bridge, never handed out, marked installed only when the row carries it |
| `ProvisioningRuns.ClaimFinds` | internal/api/bridge_provision.go:135-163 | in every reachable state the lookup finds exactly the minting bridge's own stash while it holds that nonce, also when two tenants share a bridge id |
| `ProvisioningRuns.GoneForever` | internal/api/bridge_provision.go:555-556 | a minted nonce whose stash is gone never gets one back |
| `ProvisioningRuns.DeliveredOnce` | internal/api/bridge_provision.go:489-572 | once a nonce's bundle has gone out, by claim or by direct call, every later claim of it is refused |
| `ProvisioningRuns.NewMintInvalidates` | internal/api/bridge_provision.go:306-310 | a new QR or direct call invalidates every older code of that bridge for the rest of the run |
| `ProvisioningRuns.DeletedIsRefused` | internal/api/bridges.go:253-259 | after a bridge is deleted every code ever minted for it is refused |
| `ProvisioningRuns.ClaimAnswers` | internal/api/bridge_provision.go:489-572 | a claim that is not refused names the bridge's latest code; it expires exactly after half an hour; a bundle that leaves has the minter's bridge, tenant and user, and the password, certificate, key and expiry drawn with the code; and the row carries that user, hash and certificate, whatever writes failed before |
| `ProvisioningRuns.DirectAnswers` | internal/api/bridge_provision.go:322-376 | a direct call that answers 200 hands out its bridge, tenant and user with the password, certificate, key and expiry it drew, the row carries that user, hash and certificate, and nothing is left to claim |
| `ProvisioningVerdicts.HandedOutWorks` | internal/api/bridge_provision.go:229-313 | the password handed out, by claim or directly, is one the bridge's row verifies, under whatever relation ties a drawn password to its hash; user and certificate are the row's too |
| `ProvisioningVerdicts.HeldIffOpen` | internal/api/bridge_provision.go:489-572 | over every run a bridge holds a code exactly from its mint until the next mint, a claim answered 200 or 410, the bridge's deletion or the reaper, read off the answers |
| `ProvisioningVerdicts.ClaimVerdict` | internal/api/bridge_provision.go:481-572 | the answer to every claim of every run, read off the trace: 404 unless the code is open and its own bridge's, then 410, 500, 503 with the numbers of accepting and asked members, or the bundle drawn with it |
| `ProvisioningVerdicts.StatusVerdict` | internal/api/bridge_provision.go:606-655 | the answer to every status request of every run: absent exactly while no code of the bridge is open, else age, state and members of the open one |
| `ProvisioningVerdicts.ShownCodeIsClaimable` | internal/api/bridge_provision.go:389-450 | a QR that is shown carries the nonce drawn for it, and claiming it next within half an hour hands out what was drawn with it |
| `ProvisioningRuns.OneClaimable` | internal/api/bridge_provision.go:306-310 | at most one nonce per bridge is claimable, the most recently generated |
| `ProvisioningRuns.RowIsExpected` | internal/api/bridge_provision.go:80-112 | over every run and every failing install write, the bridge row is the one the answers imply; an unscanned QR changes nothing |
| `ProvisioningRuns.HalfWritten` | internal/api/bridge_provision.go:80-98 | a run whose failing certificate write leaves the new password beside the old certificate |
| `ProvisioningRuns.StatusAgreesWithClaim` | internal/api/bridge_provision.go:606-655 | status agrees with what claiming the current code would answer at the same clock and prober result, to the members and acceptances of a held claim; ready is exactly not installed; none means not claimable |
| `ProvisioningRuns.InstalledIffHeld` | internal/api/bridge_provision.go:80-112 | a stash is marked installed exactly when a claim of its nonce went through all its writes and was held |
| `ProvisioningRuns.OtherTenantsUnaffected` | internal/api/bridge_provision.go:117-163 | a QR, direct call or deletion of one bridge does not change the answer to a claim of another's code |
| `ProvisioningRuns.ReaperSparesClaimable` | internal/stashreaper/stashreaper.go:89-124 | whatever the reaper may take is more than forty minutes old, ten past the claim TTL |
| `ProvisioningHandler.BridgeProvisionHandler.InstallStash` | internal/api/bridge_provision.go:80-112 | the install writes, in order, with each of them failing |
| `ProvisioningHandler.BridgeProvisionHandler.Lookup` | internal/api/bridge_provision.go:135-163 | the two loops find what the lookup function finds among the rows that can be read |
| `ProvisioningHandler.CandidatesSuffice` | internal/api/bridge_provision.go:139-150 | filtering the keys by suffix first drops no match |
| `ProvisioningHandler.BridgeProvisionHandler.Provision` | internal/api/bridge_provision.go:322-376 | the direct endpoint is the direct step of a run, and a 200 hands out the bridge, tenant and draw it was given |
| `ProvisioningHandler.BridgeProvisionHandler.ProvisionQR` | internal/api/bridge_provision.go:389-450 | the QR endpoint is the QR step of a run |
| `ProvisioningHandler.BridgeProvisionHandler.ClaimProvision` | internal/api/bridge_provision.go:481-572 | the claim endpoint is the claim step of a run, and a 200 hands out the bundle stashed under the nonce within the last half hour, which is then gone |
| `ProvisioningHandler.BridgeProvisionHandler.ProvisionStatus` | internal/api/bridge_provision.go:606-655 | the status endpoint is the status step of a run |
| `ProvisioningHandler.BridgeProvisionHandler.DeleteBridge` | internal/api/bridges.go:240-259 | deletion removes the bridge row and its stash |
| `ProvisioningHandler.Tally` | internal/api/bridge_provision.go:527-553 | counts the accepting members and says whether all accept |
| `SignInRace.StepKeepsInv` | internal/api/oidc.go:427-479 | every store operation of every callback keeps the invariant of links, tenants and owners, and never moves a link |
| `SignInRace.LinkNeverMoves` | internal/store/postgres/oidc.go:45-67 | once the subject is linked no later operation repoints it |
| `SignInRace.SessionsAgree` | internal/api/oidc.go:280-291 | every session, at any point of any run with crashes, is for the linked user in a live tenant |
| `SignInRace.OneTenantSurvives` | internal/api/oidc.go:427-479 | when all callbacks have finished the link points at a live created tenant, the linked user owns it and every session is for that pair; the other live ones are exactly those whose discard failed, so one is live exactly when none did |
| `SignInEnds.Progress` | internal/api/oidc.go:427-479 | no operation kills its own callback, a loser's discard included, and each brings it closer to its end |
| `SignInEnds.DoneWithinNine` | internal/api/oidc.go:280-291 | whatever the others do, a callback is done after at most nine operations, and alive unless a crash struck it |
| `SignInEnds.CanFinish` | internal/api/oidc.go:456-473 | from every state a callback that has not died can be run alone, without faults, to a session for the subject's pair, the winner's where there is one |
| `SignInEnds.AllCanFinish` | internal/api/oidc.go:280-291 | from every state all callbacks that have not died can be run to sessions for one and the same pair |
| `SignInEnds.EveryRaceCanEnd` | internal/api/oidc.go:280-291 | whatever happened so far in a race, all callbacks that have not died can still be run to a session, the losers for the winner's pair |
| `SignInEnds.LaterSignInsCreateNothing` | internal/api/oidc.go:369-398 | once the subject is linked and nobody is still building, further sign-ins create no tenant and no user and touch no tenant |
| `SignInEnds.BlindKeepsRoles` | internal/api/oidc.go:304-321 | while no tenant can be read no run changes anybody's role |
| `SignInRace.LiveWhenStopped` | internal/api/oidc.go:427-479 | when every callback has finished or died, a live tenant is the subject's, one whose discard failed, or one whose builder died |
| `SignInRace.FailedDiscardLeavesTwo` | internal/api/oidc.go:456-473 | for any two callbacks, a run with both finished and two tenants live after a failed discard |
| `SignInRace.CrashLeavesTwo` | internal/api/oidc.go:427-436 | for any two callbacks, a run with two tenants live because one callback died |
| `SignInRace.OwnerSafeIff` | internal/api/oidc.go:369-398 | every interleaving keeps the linked user's owner role exactly for one callback, or when every callback's groups say owner |
| `SignInRace.OwnerRoleKeptIff` | internal/api/oidc.go:369-398 | in one run it is kept exactly when no callback with another role checks ownership before the owner is recorded |
| `SignInRace.EarlyMeansUnrecorded` | internal/api/oidc.go:310-321 | a check is early only between the claim and the owner write of the callback that claimed |
| `SignInRace.OwnerCanBeDemoted` | internal/api/oidc.go:369-398 | for any two callbacks of which one's groups say another role, a run that leaves the owner of record with that role |
| `RoleSync.RoleFromGroups` | internal/api/oidc.go:324-340 | returns the highest-ranked role any group grants, depending on the set of groups only, and whether one is the admin group |
| `RoleSync.BestUnique` | internal/api/oidc.go:324-340 | that role is unique, so order and duplicates cannot matter |
| `RoleSync.BestByName` | internal/api/oidc.go:324-340 | by name: owner if any group grants it, the admin group included, else operator, else viewer, else none |
| `RoleSync.RoleFollowsGroups` | internal/api/oidc.go:369-398 | after any run of sign-ins a user's role is the highest any group of the last deciding sign-in grants, or the one they started with |
| `RoleSync.NameFollows` | internal/api/oidc.go:369-398 | after any run a user is called what their last sign-in that carried a display name and a role called them |
| `RoleSync.OrderDoesNotMatter` | internal/api/oidc.go:324-340 | reordering or repeating groups in any sign-ins of a run changes nothing |
| `RoleSync.OwnerOfRecordKeepsRole` | internal/api/oidc.go:304-321 | no run of sign-ins with any groups changes the role of a tenant's owner of record |
| `RoleSync.OidcHandler.Callback` | internal/api/oidc.go:369-398 | the linked path of a callback is the sign-in step of a run |
| `Templates.TokenizeLosesNothing` | internal/api/message_templates.go:17 | scanning a body into placeholders and characters loses nothing |
| `Templates.WordCharsAre` | internal/api/message_templates.go:17 | a name is made of the ASCII digits, letters and the underscore |
| `Templates.TokenizeShown` | internal/api/message_templates.go:17 | scanning the text of tokens gives them back when one kind of brace is never loose |
| `Templates.ReplaceIsSubstitution` | internal/api/message_templates.go:251-257 | for every text, replacing a placeholder is substituting it among the text's tokens |
| `Templates.RenderIsSubstitution` | internal/api/message_templates.go:251-257 | replacing one variable after another, in any order, is replacing all at once, when opening braces are never loose or closing ones never are |
| `RenderExactly.RendersRightIff` | internal/api/message_templates.go:251-257 | the loop renders a body right for all values exactly when it has at most one variable |
| `RenderExactly.SomeValuesBreakIt` | internal/api/message_templates.go:251-257 | for every body with two variables or more, values whose rendering comes out shorter than replacing all at once |
| `RenderExactly.RenamedIsRead` | internal/api/message_templates.go:17 | a scanned text with one placeholder renamed is scanned as just that |
| `Templates.LeftoverPlaceholders` | internal/api/message_templates.go:251-257 | the placeholders left are exactly those with no supplied value, in order and with repetitions |
| `LooseBraces.LooseBracesBreakIt` | internal/api/message_templates.go:251-257 | for every two variables and every way to spell the second's placeholder between the body and the first's value, the stored order renders a placeholder nobody wrote |
| `LooseBraces.OrderMatters` | internal/api/message_templates.go:251-257 | and the other order does not |
| `Lists.DistinctIsFirstOccurrences` | internal/api/message_templates.go:48-60 | the list of variables has every name once, ordered by first occurrence |
| `TemplateStore.VariablesMatchBody` | internal/api/message_templates.go:109-114 | over every run of creates, updates and deletes the stored variables are those of the stored body |
| `TemplateStore.StoredIsLastSent` | internal/api/message_templates.go:92-195 | over every run a template is there exactly when it was created and not deleted since, with the last name and the last body sent for it that were not empty |
| `TemplateStore.StoredTemplateRenders` | internal/api/message_templates.go:231-257 | so a stored template renders by simultaneous substitution and leaves the unsupplied placeholders |
| `TemplateStore.StoredTemplateRendersIff` | internal/api/message_templates.go:231-257 | over every run a stored template renders right for all values exactly when it lists at most one variable |
| `TemplateStore.ExtractVariables` | internal/api/message_templates.go:48-60 | the loop computes the distinct names in first-occurrence order |
| `TemplateStore.MessageTemplateHandler.CreateTemplate` | internal/api/message_templates.go:92-123 | creating is the create step of a run: refused without a name or a body, else name, body and the body's variables are stored |
| `TemplateStore.MessageTemplateHandler.UpdateTemplate` | internal/api/message_templates.go:160-195 | updating is the update step, recomputing the variables |
| `TemplateStore.MessageTemplateHandler.RenderTemplate` | internal/api/message_templates.go:231-260 | the render loop computes the sequential rendering of the stored template |
| `LoginLimiter.SweepingIsInvisible` | internal/api/login.go:368-405 | in every interleaving under a non-decreasing clock the sweeping limiter answers as one that never sweeps |
| `LoginLimiter.TableBounded` | internal/api/login.go:368-396 | after each decision the table has at most 1025 entries or only unexpired ones |
| `LoginBudget.RunInv` | internal/api/login.go:368-405 | over every interleaving of an address's logins its windows are disjoint and each is charged at most 4 plus those in flight |
| `LoginBudget.WindowBudget` | internal/api/login.go:385-404 | at most 4 + k failures are charged to one window with k in flight |
| `LoginBudget.QuarterHourBudget` | internal/api/login.go:385-404 | any fifteen minutes hold at most 2 (4 + k) failures |
| `LoginBudget.OneAtATime` | internal/api/login.go:102-149 | with each login one step: 5 failures a window, 10 in any fifteen minutes |
| `LoginBudget.BudgetIsTight` | internal/api/login.go:368-405 | the bound 4 + k is reached for every k |
| `LoginBudget.QuarterHourIsTight` | internal/api/login.go:368-405 | and so is 2 (4 + k) |
| `LoginHandler.LoginHandler.Allow` | internal/api/login.go:368-391 | the sweep loop and the decision compute the limiter function |
| `LoginHandler.LoginHandler.Login` | internal/api/login.go:83-165 | a login is the login step: which are refused, in which order, with which status, and which are charged to the address |
| `LoginHandler.UnknownLikeWrong` | internal/api/login.go:102-149 | an unknown address and a wrong password get the same answer and the same charge; each other outcome has its own status and charges nothing |
| `LoginHandler.FiveThenTooMany` | internal/api/login.go:102-149 | of any failed logins of an address within fifteen minutes of the first, unknown and wrong mixed, the first five are answered 401 and all others 429 |
| `LoginHandler.LockedOutUntil` | internal/api/login.go:368-405 | an address with five charged is turned away exactly until its window is over, whatever else the table holds, and the next login opens a new window |
| `RefreshTokens.ExchangedOnce` | internal/api/login.go:237-282 | a refresh token is exchanged at most once, whatever the first exchange answered |
| `RefreshTokens.OneLivePerLogin` | internal/api/login.go:171-207 | each login's chain has at most one live token, the last one issued |
| `RefreshTokens.LogoutRevokesAll` | internal/api/login.go:336-350 | no token issued to a user before that user's logout is accepted after it |
| `RefreshTokens.LogoutSparesOthers` | internal/store/postgres/auth.go:127-158 | a logout leaves every other user's tokens as they were |
| `RefreshTokens.AcceptedRefresh` | internal/api/login.go:237-282 | an accepted refresh has its user enabled and is at most seven days after the token's issue, and its successor belongs to the user and tenant that logged in |
| `RefreshTokens.AcceptedIff` | internal/api/login.go:237-282 | over every run a refresh is answered with tokens exactly when its token was issued and stored, not presented since, not logged out since, at most seven days old, and its user is still there and enabled |
| `RefreshTokens.StoredIffGood` | internal/api/login.go:237-350 | the stored tokens are exactly those handed out and stored, neither presented nor logged out since, read off the trace |
| `RefreshTokens.SessionHandler.IssueSession` | internal/api/login.go:171-207 | issuing stores the token with its user, tenant and expiry |
| `RefreshTokens.SessionHandler.RefreshToken` | internal/api/login.go:237-282 | the refresh handler is the refresh step of a run |
| `RefreshTokens.SessionHandler.EndSession` | internal/api/login.go:336-350 | the logout handler is the logout step of a run |
| `AlertRules.ConsiderOne` | internal/alerting/evaluator.go:129-157 | a pass fires a pair once, exactly when it is due, not remembered, not claimed for the hour and its claim meets no store error, whatever else is due |
| `AlertRules.DueIff` | internal/alerting/evaluator.go:95-136 | a pair is due exactly when some enabled device_not_seen rule with positive hours watches a heard device that is silent for longer |
| `AlertRules.PassFires` | internal/alerting/evaluator.go:129-157 | a pass fires a pair exactly when it is due in that sense, not fired by this process within the hour, not claimed for the clock hour and the store answers; and what it remembers and claims |
| `AlertRules.SilenceKeepsFiring` | internal/alerting/evaluator.go:129-136 | a longer silence never stops an alert |
| `AlertRules.Evaluator.Evaluate` | internal/alerting/evaluator.go:62-88 | the loops over memory and rules compute one pass, and trigger a pair exactly when some enabled rule finds its device silent longer than its hours and it is neither remembered, claimed nor broken |
| `AlertRules.Evaluator.EvaluateRule` | internal/alerting/evaluator.go:95-165 | one rule's loop considers exactly its overdue devices, in order, with their failing claims |
| `AlertRuns.OncePerHour` | internal/alerting/evaluator.go:146-154 | over any replicas, restarts, store errors and purges a pair fires at most once for each UTC hour its passes begin in (the hour of the claim key), while passes take at most 23 hours |
| `AlertRuns.LagCanFireTwice` | cmd/meshsat-hub/main.go:3741-3754 | with any longer lag a pair can fire twice for one hour |
| `AlertRuns.FiringsDuringAnHour` | internal/alerting/evaluator.go:129-157 | during one UTC hour a pair goes out at most once, plus once per begun hour of lag, whatever the lag |
| `AlertRuns.FiringsDuringAnHourReached` | internal/alerting/evaluator.go:129-157 | that many do go out, for every lag |
| `AlertRuns.OnceDuringAnHourIff` | internal/alerting/evaluator.go:146-154 | at most once during any UTC hour holds exactly when a pass takes no time |
| `AlertRuns.FiresExactlyWhenDue` | internal/alerting/evaluator.go:137-154 | alone, a pair fires exactly when it is due and last fired over an hour ago: the claim never refuses what the memory lets through |
| `AlertRuns.FiringsFarApart` | internal/alerting/evaluator.go:72-79 | consecutive firings are more than an hour apart |
| `AlertRuns.FiringsCloseEnough` | internal/alerting/evaluator.go:62-88 | while a pair stays due and passes come at least every interval, it fires at the first pass and then at most an hour and an interval apart |
| `CommandJobs.KeysApart` | internal/cmdjobs/cmdjobs.go:87-126 | a job and a fingerprint pointer never share a key |
| `CommandOwners.JobKeysDiffer` | internal/cmdjobs/cmdjobs.go:87-96 | job rows of different tenants, bridges or request ids differ, where tenant and bridge ids have no colon |
| `CommandOwners.ColonsClash` | internal/cmdjobs/cmdjobs.go:87-96 | a bridge id with a colon can share another bridge's job row |
| `CommandOwners.HandedIsOwn` | internal/cmdjobs/cmdjobs.go:98-143 | over every run, faults included, a POST is handed only a job of its own tenant and bridge that a holder stored, under its own request id or the id of a POST of its tenant with its fingerprint |
| `CommandOwners.ClaimedIffGuarded` | internal/api/bridge_commands.go:153-177 | the POSTs that go out unclaimed are exactly those whose command is not one to claim |
| `CommandRuns.StepKeepsInv` | internal/cmdjobs/cmdjobs.go:98-165 | every store operation of every POST, failing ones included, keeps: each holder's job is stored for as long as it is kept, holders of one key are apart, and every lost claim goes back to a holder |
| `CommandKept.SentOnce` | internal/api/bridge_commands.go:153-225 | per claim and for every lag: a POST of the same id that sends, store errors aside, was decided before the claim or more than two hours after it |
| `CommandKept.SentOnceUntilExpiry` | internal/cmdjobs/cmdjobs.go:146-165 | where claims are sent within 59 minutes, that lasts until the job expires, two hours after its recorded outcome |
| `CommandKept.StepKeepsKept` | internal/cmdjobs/cmdjobs.go:98-165 | every store operation keeps: for two hours after a claim its key is taken, rivals fall outside them, and every lost claim goes back to a holder |
| `CommandKept.SecondSendIsLate` | internal/api/bridge_commands.go:153-225 | of any two such sends of one id, one comes more than two hours after some claim of it, for every lag |
| `CommandRuns.KeptIsHanded` | internal/cmdjobs/cmdjobs.go:113-123 | a POST that lost the claim is handed the job of whoever still keeps one |
| `CommandRuns.NothingKept` | internal/api/bridge_commands.go:164-175 | and goes on to send when nobody does |
| `CommandRuns.RunsNeverOverlap` | internal/api/bridge_commands.go:82-85 | two winners of one request id never run at once: one's whole budget is over before the other claims |
| `CommandRuns.NeverOverlapIff` | internal/api/bridge_commands.go:153-225 | no two sends of one id overlap, winners or not, exactly when claims are sent within 59 minutes and a lost claim is looked up at once |
| `CommandRuns.LateStartOverlaps` | internal/api/bridge_commands.go:177-214 | a claim sent later than 59 minutes can still run when the next one is sent |
| `CommandRuns.LateLookOverlaps` | internal/cmdjobs/cmdjobs.go:113-123 | a POST that loses the claim as the job expires and looks a nanosecond later sends beside the next winner |
| `CommandRuns.FinishedIsReplayed` | internal/api/bridge_commands.go:214-219 | every POST decided in the two hours after a recorded outcome is handed that outcome |
| `FingerprintRuns.StepKeepsPointers` | internal/cmdjobs/cmdjobs.go:124-142 | every store operation keeps: a won fingerprint points at its winner for the window, and a generated job is written by its own POST only |
| `FingerprintRuns.RetryInsideTheWindow` | internal/cmdjobs/cmdjobs.go:124-142 | the same command again in the window, whatever became of the winner's job write, never wins, is handed the winner's job if that was written by then and sends if it was not |
| `FingerprintRuns.LookDecides` | internal/cmdjobs/cmdjobs.go:137-142 | its look hands it the winner's job exactly when that is stored at that moment |
| `FingerprintRuns.EarlyLookSendsTwice` | internal/cmdjobs/cmdjobs.go:127-142 | a run in which the loser looks between the two writes and both POSTs send |
| `FingerprintRuns.FailedWriteSendsAgain` | internal/cmdjobs/cmdjobs.go:127-135 | after a failed job write, a retry at any later moment of the window sends again |
| `CommandHandler.RepeatIsToldTheSame` | internal/api/bridge_commands.go:265-280 | whoever repeats a request id in the two hours after the command finished is told what the first caller was told: the bridge's own body, or the error |
| `CommandHandler.RepeatIsToldToWait` | internal/api/bridge_commands.go:265-280 | and while it runs, that request id |
| `CommandHandler.MemoryKV.SetNX` | internal/cmdjobs/cmdjobs.go:197-215 | takes a key exactly when it is free or expired, and changes nothing else |
| `CommandHandler.MemoryKV.Get` | internal/cmdjobs/cmdjobs.go:197-231 | returns the live value and drops an expired one |
| `CommandHandler.BridgeCommandHandler.Begin` | internal/cmdjobs/cmdjobs.go:106-143 | run without interleaving, the claim is the sequence of its store operations, each failing or not |
| `CommandHandler.BridgeCommandHandler.SendCommand` | internal/api/bridge_commands.go:153-225 | sends exactly when it was not handed a job; answers with the job, its own pending job when asynchronous, or else the bridge's body or the error; and records that body for two hours under a won claim |
| `CommandHandler.StatusTellsHow` | internal/api/bridge_commands.go:228-263 | each status exactly when its kind of ending; the body is the bridge's own, the error the commander's own or one of two fixed texts |
| `CommandHandler.UnforeseenTextGetsOut` | internal/api/bridge_commands.go:232-253 | the text of an unforeseen failure reaches the caller exactly when the context has not expired and it mentions a timeout |
| `CommandHandler.IsTimeoutError` | internal/api/bridge_commands.go:311-319 | says whether the message contains "timeout" |
| `RotationAdvice.PrintThenParse` | internal/api/lxmf.go:170-172 | the parser undoes the printer exactly when neither the id nor the name has a space |
| `RotationAdvice.SpacesAre` | internal/api/lxmf.go:176-202 | the spaces that separate fields are the 25 code points of Unicode's White_Space property |
| `RotationAdvice.ListedUnder` | internal/api/bridges.go:288-303 | among the newest n entries those under the current name are the newest deletions since the last rotation, and an unused name has none |
| `RotationAdvice.AdviceList` | internal/api/lxmf.go:176-202 | after every run the advice is the kits deleted under the current name, newest first, each once, within the 200 newest entries |
| `RotationAdvice.AccessAdvice.RotationAdvised` | internal/api/lxmf.go:176-202 | the loops with `seen` and `out` compute that list |
| `RotationAdvice.AccessAdvice.AdviseRotation` | internal/api/bridges.go:288-303 | deletion writes a line only under a name |
| `ApiKeys.AuthorityNeverGrows` | internal/api/apikeys.go:84-159 | through any chain of keys minting keys a key carries no more than the person it goes back to: no key has both platform flags, readers are viewers, platform flags and foreign tenants only from a platform administrator |
| `KeyAuthority.RootIsOwner` | cmd/meshsat-hub/main.go:2906-2914 | every key goes back to a person who asked for one and has the role "owner" or "admin" |
| `KeyAuthority.LowRolesChangeNothing` | internal/auth/rbac.go:16-38 | over every run a caller with no role but "viewer" and "operator", person or key, is refused and changes nothing |
| `KeyAuthority.CreatedExactly` | internal/api/apikeys.go:84-193 | a key is created exactly for an admitted caller who may ask for it, it is the key asked for in the tenant acted on, and no other key changes |
| `KeyAuthority.RevokedExactly` | internal/api/apikeys.go:223-238 | a key goes exactly when an admitted caller of its tenant names it |
| `KeyAuthority.KeyLives` | cmd/meshsat-hub/main.go:1792-1823 | a stored key is as it was asked for and signs its bearer in exactly until its lifetime is over, the last moment included |
| `KeyAuthority.ForeignTenant` | internal/auth/auth.go:107-178 | a signed-in platform administrator acts on a foreign tenant exactly with its owner's grant |
| `ApiKeys.ReaderNeverMints` | cmd/meshsat-hub/main.go:2908-2914 | a platform reader's key is refused whatever it asks of the key routes |
| `ApiKeys.NoPlatformKeyFromNothing` | internal/api/apikeys.go:104-142 | without a platform administrator among the people no run ever yields a platform key |
| `ApiKeys.RevokedForever` | internal/api/apikeys.go:223-238 | an issued key that is gone stays gone and authenticates nobody |
| `ApiKeys.OtherTenantsKept` | internal/store/postgres/auth.go:257-260 | a request without the platform axis leaves every other tenant's keys as they are |
| `ApiKeys.HasRole` | internal/auth/rbac.go:24-38 | says whether some role of the user reaches the rank of a known role; for owner, whether one is "owner" or "admin" |
| `ApiKeys.FloorAdmits` | internal/auth/rbac.go:16-38 | the hierarchy name by name: each floor admits exactly the roles at or above it, "admin" counting as owner, and an unknown floor nobody |
| `ApiKeys.APIKeyHandler.CreateKey` | internal/api/apikeys.go:84-193 | creates a key exactly for an owner who may ask for it, with the role, tenant, flags and expiry asked for |
| `ApiKeys.APIKeyHandler.DeleteKey` | internal/api/apikeys.go:223-238 | removes a key of the caller's tenant only |
| `ApiKeys.APIKeyHandler.Authenticate` | cmd/meshsat-hub/main.go:1792-1823 | what a key authenticates as, until it is revoked or expires |
| `ApiKeys.APIKeyHandler.ResolveTenant` | internal/auth/auth.go:107-178 | which tenant a request acts on; only a platform administrator may name another |
| `ApiKeys.APIKeyHandler.Serve` | cmd/meshsat-hub/main.go:2906-2914 | authentication, tenant, owner gate and handler in sequence are one step of a run |

## Left out

- HTTP, JSON, cookies, HTML pages, QR images, audit entries and metrics; hashing, key and certificate generation and token signing, whose results are parameters.
- Randomness and clocks: drawn nonces, ids and tokens are parameters that never repeat; time is a parameter that does not run backwards within a run.
- Provisioning requests are one step each; two claims interleaved write by write are not modelled. Blanking or deleting a stash does not fail, and neither does the read of a bridge.
- Stashes from before the per-tenant key, and stashes without a password hash: both branches are in the functions, but no run creates such a stash.
- A stored certificate expiry that does not parse fails between the two install writes; it is the same fault as a failing certificate write.
- First sign-in: invites, the bootstrap address, unverified addresses, disabled accounts and the plan of a new tenant. A store error ends a callback, except for the two it carries on from.
- Sign-ins of linked subjects and their link writes are one step each in `RoleSync`; `SignInRace` has them one operation at a time.
- Templates: matching by code unit, and the `\w` of the pattern is ASCII as in the source; names and ownership of templates are not modelled beyond their id.
- Login, refresh and logout are one step each in `RefreshTokens`, and its deletes succeed; account lockout after failed passwords is only an outcome in `LoginHandler`.
- Alerts: the hour of a claim key is the hour number rather than its ten digits, and a pair is its joined key. Escalation after a firing is not modelled. The threshold is over the reals, truncated to nanoseconds.
- FiringsCloseEnough: about a lone process whose claims meet no store error, like the other two lemmas about one, because a failed claim does not fire and is remembered for an hour all the same.
- Command jobs: a failing store operation is taken to have had no effect; the Redis store expires a key at its deadline rather than just after it. What the commander sends is a parameter.
- Deleting audit entries by age, which would shorten the advice list; entries with equal timestamps, whose order the store leaves open.
- API keys: the key's label and device, rotation of a key's secret, tenant suspension, and the failure budget of the key middleware. People are given, with their roles; how they sign in is in the parts above.
- Everything else the Hub does (messaging, Reticulum, satellite and SMS bearers, directory, billing): not part of this model.
