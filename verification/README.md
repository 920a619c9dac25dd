# Verification models of a group-buying platform

Dafny models of the parts of the platform whose behaviour spans many calls: the admin action executor and its control
flags, the buyer search planner, probes that share one database connection, and the protocols and codecs of the browser
client. `dafny verify dfyconfig.toml` checks all of it.

## What is modelled

**Admin actions and control flags** (`ControlModel`, `ControlSteps`, `ControlActions`, `ControlFlags`, `ControlFreezes`,
`ControlScopes`, `ControlRequests`, `ControlSweeps`, `ControlAnswers`, `ControlPlane`). The tables of actions, flags, flag
events, outbox rows and recovery audits, and one step for each route, worker write and passage of time. `Run` applies any
sequence of steps. `ControlPlane.Tables` updates the tables row by row, as the code does, and each of its methods is
proved to be one step of the model.

**Buyer search** (`SqlLike`, `BuyerSearch`, `SearchWords`, `SearchContacts`, `SearchCodes`, `BuyerRoster`, `RosterRows`,
`RosterExample`). The query classifier, the two normal forms of a name (the normaliser and the SQL expression), the
predicate and rank fragments as expressions with numbered placeholders, LIKE with ESCAPE (subclause 8.5 of SQL-92),
`translate`, and the roster query that composes them.

**One database connection** (`Connection`, `ProbeFifo`). Transaction status, savepoint stack and effects of a PostgreSQL
session; `safeQuery` in sequence, and any number of `safeQuery` calls at once whose statements share one queue.

**The browser client** (`Gallery`, `GalleryRows`, `GalleryDescent`, `DraftProtocol`, `DraftImages`, `DraftImageRuns`,
`DraftBanner`, `DraftSave`, `DraftTasks`, `DraftSteps`, `DraftServer`, `DraftTaskRuns`, `DraftFresh`, `DraftRepeats`,
`DraftOrderly`, `DraftAlone`, `DraftEarly`, `DraftQuiet`, `DraftOverlaps`, `DraftPlaces`, `DraftRefines`, `DraftRaces`,
`FlowStore`, `PendingPayment`, `JsonText`, `PercentCode`, `PercentDecode`, `Routes`, `RouteLinks`, `RoutePaths`,
`PickupLabel`, `HtmlText`). The image gallery; the creation of a draft over a network that loses, delays and reorders,
against the server's idempotency log; the two-tier flow store; the pending-payment record, its JSON text, and the join
request it leads to; the route table with its links; the label of a pickup point; the escaping of text for HTML.

The images of a draft are modelled twice. `DraftImages` is one uninterrupted save, as a function of what happens to each of
its requests. `DraftTasks` is the form as it runs: submits, deletions and selections of files each hold a copy of the
gallery while they wait, any of their requests may be processed late or given up, and clicks are handled in between.
`DraftRefines` proves that a submit with nothing handled between its start and its finish is the uninterrupted save, and
`DraftRaces` holds the runs in which something was.

## Where the code does not do what one expects of it

Each comes with a lemma for an input on which the expectation fails, and one for the condition under which it holds.

- Completed and Failed are not final. The approve route never looks at the status, so approving a completed action again
  lets it execute again (`ReapprovalRepeatsFreeze`). A settled row stays as it is if and only if nobody approves it again
  (`SettledForGood`), and an action has one effect when Completed and none otherwise if and only if it is never approved
  while Completed (`OneEffectIff`).
- A rejected action executes (`RejectedExecutes`): the executor refuses only Completed and Failed, so Rejected is final
  only for actions that need a second approval, until they get it (`RejectedMoves`).
- A released freeze need not go back to an approved unfreeze (`HandReleases`). It does if and only if the release route was
  not what released it (`ThawApprovedIff`).
- A freeze of the whole system can leave every gate open (`SystemFreezeMisses`). It reaches the gates if and only if its
  target id is the word `global` (`SystemFreezeReach`).
- A freeze of one payout is recorded as active and holds back no payout (`PayoutFreezeMisses`): payout eligibility never
  asks about that scope (`PayoutScopeIsUnseen`).
- A buyer whose name consists of Hebrew points is classified as a name and never found (`LonePointIsNotFound`); a name is
  found by itself if and only if its first 120 characters hold a visible one (`OwnNameFound`).
- An e-mail with a Hebrew final letter does not find its own row (`FinalLetterIsMissed`): the query is folded like a name,
  the e-mail on record is only lower-cased. One of up to 120 characters is found if and only if it has no final letter, and
  points and blanks at its two ends only (`OwnEmailFoundIff`); a longer one, if and only if that holds of the part that is
  searched for or the query occurs again further on (`OwnEmailFoundExactly`).
- With several tokens a buyer is missed whose older name holds all of them when a newer one holds only the first
  (`MissedBuyer`). A buyer is found if and only if one of the newest names with the first token holds them all
  (`ManyTokensRoster`).
- Probes that run at once: one failed read fails every later one, and the transaction may end aborted, or usable with a
  savepoint left behind (`LeakedSavepoint`). It stays usable if and only if there was at most one call, or the last read
  is the first to fail (`Survives`, `FifoOutcome`).
- A draft is created twice when the record was last saved while signed out, or is too large to be saved
  (`SignedOutEditCreatesTwo`, `LargeFormCreatesTwo`). After a reload that happens if and only if the record cannot be
  resumed (`ReloadCreatesUnless`); after a sign-in on the page, what the page remembers counts where the record cannot be
  restored (`SignInCreatesUnless`).
- An acknowledged image can be sent again (`SecondSubmitResends`, `DeletionResends`, `SelectionResends`). It never is when
  every submit is fresh where it starts: none of the gallery's images without an id was acknowledged, and no running submit
  has it still to send (`NeverResent`). Conversely, with a server that saves what is sent before, a submit can lead to a
  repeated request if and only if it is not fresh (`RepeatsIff`). Deletions and selections are harmless in themselves: what
  they write back lacks the id of an acknowledged image if and only if the copy they were made from did
  (`SelectionStaleIff`, `DeletionStaleIff`).
- The "draft saved" banner. On every run, whatever else is handled, each image of the submit that sets it is stored exactly
  once (`BannerStoresOnce`). When submits overlap and nothing else is handled, each image of the gallery is
  (`OverlapStoresOnce`), and the server holds the gallery, in place and marked, if its images were not stored before, or in
  their places (`OverlapHolds`); the form may have lost an id (`SecondSubmitTakesId`). The server need not hold the gallery
  when a selection is written back while the order or the check is awaited, when another primary is chosen while the check
  is, or when an older order arrives late (`SelectionDuringOrderBreaksBanner`, `SelectionBreaksBanner`,
  `ChoiceBreaksBanner`, `LateOrderBreaksBanner`). Clicks before the last upload is answered are lost and do no harm
  (`EarlyClicksAreLost`). While the check is awaited the server goes on mirroring the gallery through an event if and only
  if that event is quiet, which can be told before it is handled (`QuietIff`, `CheckedBannerIff`).
- The banner over an empty gallery. When nothing else is handled, a banner means that the server mirrors the gallery if and
  only if there was an image to save or the server showed none (`LoneBannerIff`); the other side happens
  (`EmptyGalleryHidesOrphan`).
- An image that was moved or re-marked after its upload lost its reply blocks every later save of the draft
  (`MarkedAfterLostReply`, `MovedAfterLostReply`); it is accepted again if and only if it is as it was
  (`ReuploadAccepted`).
- Losing the session gives a flow a longer life than keeping it (`LossOutlivesKeeping`): a day for the projection
  (`AfterLoss`) against six hours for the whole (`WhileKept`).
- A field cleared after the session was lost comes back (`ClearAfterLossMisses`). A cleared field stays out for good if
  and only if the flow had its session, or its durable copy could not be restored or did not hold the field
  (`ClearedStaysOutIff`).
- A link whose id is `.` or `..` does not lead back to its route (`NavigateFindsIff`).

## Model

| member | source | states |
|---|---|---|
| ControlActions.InsertOnce | src/admin_control_plane.ts:168-204 | a request repeated under its key changes nothing, whatever else it carries and whatever steps came between |
| ControlActions.KeysStayUnique | src/migrations/035_admin_control_plane.sql:65 | on every run no two action rows share type, target and idempotency key |
| ControlActions.RowsStaySound | src/frontend_runtime.ts:4854-4885 | four eyes on every run: an action that needs a second approval is Approved, Completed or Failed only with an approver other than its requester; Executing and Cancelled are never seen |
| ControlActions.SettledMoves | src/admin_control_plane.ts:206-217 | one step: a Completed or Failed row changes if and only if the step is an approval the route grants |
| ControlActions.SettledForGood | src/frontend_runtime.ts:4866-4883 | every run: a settled row keeps every column after every prefix if and only if no step is an approval that its fixed columns allow |
| ControlActions.RejectedMoves | src/admin_control_plane.ts:206-217 | a Rejected row leaves that status exactly by an approval, or by executing when no second approval is needed |
| ControlActions.StepEffects | src/admin_control_plane.ts:483-497 | the flags and recovery audits of an action grow by one exactly in a step that completes it, and in no other step |
| ControlActions.EffectsAreCompletions | src/admin_control_plane.ts:221-271 | on every run an action has exactly as many effects as completed executions |
| ControlActions.ExecutionsNeedApprovals | src/admin_control_plane.ts:206-214 | on every run executions plus an unused approval never exceed the approvals granted; without a second approval there is one execution if settled and none otherwise |
| ControlActions.OneEffectIff | src/admin_control_plane.ts:206-497 | along a run a creating action has one effect when Completed and none otherwise, if and only if no step approves it while it is Completed |
| ControlActions.RetriesRepeatNothing | src/admin_control_plane.ts:206-217 | actions without a second approval have exactly one effect if Completed and none otherwise, for arbitrary retries, rejections and replays |
| ControlActions.RecoveryAuditOnce | src/admin_control_plane.ts:221-271 | the unique key of the recovery audit, built from the action's id, is inserted exactly once for a Completed requeue and never otherwise |
| ControlFlags.FlagsStaySound | src/admin_intervention.ts:99-106 | on every run pauses carry an expiry and freezes and takedowns carry none; only what has one is ever expired |
| ControlFlags.FlagKept | src/admin_intervention.ts:156-167 | over any run a flag keeps every column but status and releaser, and an ended flag never changes again |
| ControlFlags.LogTellsLives | src/admin_intervention.ts:127-143 | on every run each flag has exactly one create event, and one terminal event if it has ended and none otherwise |
| ControlFlags.FindApproval | src/frontend_runtime.ts:4875-4883 | an Approved row is traced to the step that approved it, by the admin the row names |
| ControlFlags.FindRaise | src/admin_control_plane.ts:319-346 | every flag is traced to the execution that inserted it, from the action row as it was then |
| ControlFlags.FlagProvenance | src/admin_control_plane.ts:106-115 | every charging pause, and every payout freeze of a payout, seller or deal, traces to an approval by someone other than the requester that precedes the execution that raised it |
| ControlFlags.ThawProvenance | src/admin_control_plane.ts:347-378 | every released flag traces to the release route, or to an unfreeze action approved before it ran |
| ControlFlags.ThawApprovedIff | src/frontend_runtime.ts:4967-4992 | on every run a released freeze goes back to an approved unfreeze if and only if the release route was not what released it |
| ControlFreezes.StepFreezes | src/admin_control_plane.ts:312-378 | one step: active freezes at a scope rise by a completed freeze and fall by a completed unfreeze or a release by hand at that scope, and by nothing else |
| ControlFreezes.FreezesConserved | src/admin_control_plane.ts:319-372 | every run, every scope: active freezes + completed unfreezes + releases by hand == completed freezes |
| ControlFreezes.GateIsBalance | src/admin_intervention.ts:208-231 | the gate says frozen exactly when completed freezes outnumber releases at its scope or globally |
| ControlFreezes.PayoutGateIsBalance | src/payout_rail.ts:373-385 | on every run payout eligibility is held back exactly when freezes outnumber releases at the seller, at the deal, or globally; which freezes those are is told by FreezeHoldsBack |
| ControlFreezes.PayoutScopeIsUnseen | src/payout_rail.ts:376-381 | executing any action on a single payout leaves that answer as it was, for every seller and deal |
| ControlFreezes.SystemFreezeReach | src/admin_intervention.ts:222-224 | a system freeze closes a gate that was open if and only if its target id is the word global, or is the gate's own global id |
| ControlFreezes.ApproveThenExecute | src/frontend_runtime.ts:4875-4883 | approving and executing a freeze adds one effect, also when it had completed before |
| ControlFreezes.ReapprovalRepeatsFreeze | src/frontend_runtime.ts:4862-4883 | a concrete run in which one action raises two freezes |
| ControlFreezes.RejectedExecutes | src/admin_control_plane.ts:206-217 | a concrete run: a rejected pause executes, and its flag names the admin who rejected it as its approver |
| ControlFreezes.HandReleases | src/frontend_runtime.ts:4967-4992 | a concrete run: an approved freeze is released although no unfreeze was ever asked for |
| ControlFreezes.SystemFreezeMisses | src/admin_intervention.ts:208-231 | a concrete run: a freeze of the whole system is active and the gate of every deal is open |
| ControlFreezes.PayoutFreezeMisses | src/payout_rail.ts:372-386 | a concrete run: an approved freeze of one payout is active and no payout of any seller or deal is held back |
| ControlScopes.FreezeRows | src/admin_control_plane.ts:131-137 | an execution of a freeze of a seller, deal, payout or the system adds one active row of that scope for the action's target and completes; of any other target it fails and adds nothing |
| ControlScopes.PauseRows | src/admin_control_plane.ts:379-414 | an execution of a pause of a seller, deal or the system with a date adds one active row of its own type and that scope, up to the date; with any other target or no date it fails and adds nothing |
| ControlScopes.TakedownRows | src/admin_control_plane.ts:138-143 | an execution of a takedown of a seller, deal or content adds one active row of that scope; of any other target it fails and adds nothing |
| ControlScopes.UnfreezeRows | src/admin_control_plane.ts:340-378 | an execution of an unfreeze ends the newest active freeze of that target in its own scope, logs it, and changes no other row; without one, or of any other target, it fails and changes nothing |
| ControlScopes.OtherRows | src/admin_control_plane.ts:221-318 | an execution of any other action leaves flags and events as they were |
| ControlScopes.FreezeHoldsBack | src/payout_rail.ts:372-386 | after an executed freeze a payout is held back if and only if it was before, or the freeze is of its seller, of its deal, or of the system under the id global |
| ControlScopes.FreezeCloses | src/admin_intervention.ts:208-231 | after an executed freeze the gate of a scope says frozen if and only if it did before, or the freeze is of that seller, deal or payout, or of the system under that global id or the word global |
| ControlScopes.PauseCloses | src/admin_intervention.ts:208-231 | after an executed pause its gate is closed at a scope if and only if it was before, or the pause lasts beyond now and is of that seller or deal, or of the system as above |
| ControlScopes.TakedownCloses | src/admin_intervention.ts:208-231 | after an executed takedown its gate is closed at a scope if and only if it was before, or the takedown is of that seller, deal or content |
| ControlScopes.OtherGatesStay | src/admin_intervention.ts:208-231 | an executed action leaves every gate of another flag type as it was |
| ControlRequests.InsertedIff | src/frontend_runtime.ts:4792-4851 | an action is inserted if and only if target, reason and key have something to see, an attested outcome is valid, and no row has its type, target and key; it is then the request, trimmed, and waits for a second admin exactly for the kinds listed |
| ControlRequests.ApprovedIff | src/frontend_runtime.ts:4854-4885 | an approval changes a row if and only if a note is given and the row needs a second approval by another admin than its requester; status and approver then, nothing else |
| ControlRequests.RejectedIff | src/frontend_runtime.ts:4888-4909 | a rejection changes a row if and only if a reason is given and it is not settled; status, approver and code then, nothing else |
| ControlRequests.ReleasedIff | src/frontend_runtime.ts:4967-4992 | a release by hand ends a flag if and only if it is active and a reason is given, under the admin's name, with one event |
| ControlRequests.CreatedIff | src/admin_intervention.ts:83-106 | a flag is created if and only if it has a scope and a reason, a pause also an expiry, and the expiry is a date; which of these is missing decides the error |
| ControlRequests.CreatedRow | src/admin_intervention.ts:107-144 | column by column the flag that is created, and its event |
| ControlRequests.SweptRows | src/admin_intervention.ts:232-238 | the sweep ends exactly the active flags whose expiry has come, and changes nothing else of them |
| ControlRequests.SweptEvents | src/admin_intervention.ts:239-247 | it logs one event for each of those, in the rows' order |
| ControlRequests.RequeuedIff | src/admin_control_plane.ts:221-271 | a requeue completes if and only if its event is queued or failed, unsent and under its ceiling; what the event and its audit are then |
| ControlRequests.OthersUntouched | src/admin_control_plane.ts:206-497 | an execution touches no other action, and nothing of its own but status and code; only a requeue touches outbox and audits |
| ControlRequests.CodesTell | src/admin_control_plane.ts:218-497 | an executed row is Completed or Failed under a code of its own kind, and the code tells which, but for support cases |
| ControlRequests.ElsewhereCompletes | src/admin_control_plane.ts:272-310 | retries, reconciliation and support cases complete if and only if their statement found something, an attested outcome only with a valid attestation |
| ControlRequests.HeldBack | src/admin_control_plane.ts:206-214 | an action is held back if and only if it is settled or waits for a second admin, and then nothing changes |
| ControlSweeps.AlikeStep | src/admin_intervention.ts:232-247 | databases that differ only in how expired pauses are marked stay so under every step, with the same execution results |
| ControlSweeps.SweepsAreUnseen | src/admin_intervention.ts:185-247 | two runs that differ only in where, or whether, the sweeper runs give the same answer to every gate and listing and the same action rows |
| ControlSweeps.PauseEndsByTime | src/admin_intervention.ts:99-106 | whatever steps follow, a pause is not in force from the expiry fixed when it was raised |
| ControlSweeps.FreezeOutlastsTime | src/admin_intervention.ts:208-231 | an active freeze or takedown stays in force through any time and any sweeps |
| ControlAnswers.ThawsTheNewest | src/admin_control_plane.ts:347-354 | on every run an unfreeze picks an active freeze of its scope than which none was created later, and finds none exactly when there is none |
| ControlAnswers.ListedExactly | src/admin_intervention.ts:185-206 | on every run the listing shows rows in force that are as its filter says, newest first; all of them up to 200, and 200 beyond that |
| ControlAnswers.ListedWhere | src/admin_intervention.ts:185-206 | such a row is shown if and only if fewer than 200 of them were inserted after it, and in that place |
| ControlPlane.Tables.constructor | src/admin_control_plane.ts:168-204 | empty tables, with the given outbox and clock |
| ControlPlane.Tables.InsertAdminAction | src/frontend_runtime.ts:4792-4851 | the insert step; accepted exactly when its fields are given, and then answers with the row of its key |
| ControlPlane.Tables.ApproveAdminAction | src/frontend_runtime.ts:4854-4885 | the approve step; done exactly when a second approval is required, a note is given and the approver is not the requester, whatever the status |
| ControlPlane.Tables.RejectAdminAction | src/frontend_runtime.ts:4888-4909 | the reject step; done exactly for Requested, AwaitingSecondApproval and Approved rows with a reason |
| ControlPlane.Tables.CreateAdminControlFlag | src/admin_intervention.ts:83-144 | fails with the code's error exactly on its conditions and changes nothing then; otherwise one active row and its create event |
| ControlPlane.Tables.ReleaseAdminControlFlag | src/admin_intervention.ts:146-183 | releases an active flag and logs it; anything else stays as it was |
| ControlPlane.Tables.ReleaseRoute | src/frontend_runtime.ts:4967-4992 | the release step; done exactly for an active flag and a reason |
| ControlPlane.Tables.ExpireDueAdminControlFlags | src/admin_intervention.ts:232-247 | the sweep step: every due row, one event for each, in the rows' order |
| ControlPlane.Tables.RequeueOutbox | src/admin_control_plane.ts:221-271 | a pending or failed unsent row under its ceiling becomes pending under a new lease generation, with its audit; nothing otherwise |
| ControlPlane.Tables.ExecuteAdminAction | src/admin_control_plane.ts:206-497 | the execute step, whose rows are told target by target in ControlScopes, and its answer: 404, replay, failed, refused, done exactly when it completed, not done otherwise |
| SqlLike.EscapedSubstring | src/buyer_search_intent.ts:77-79 | for every text and string the escaped pattern matches exactly when the text is a contiguous substring |
| SqlLike.UnescapedMatchesTooMuch | src/buyer_search_intent.ts:77-79 | without escaping a pattern matches a string that does not contain the text |
| SqlLike.LikeAny | src/buyer_search_intent.ts:77-79 | a percent sign in a pattern stands for any text (subclause 8.5 of SQL-92) |
| SqlLike.LikeOne | src/buyer_search_intent.ts:77-79 | an underscore stands for any one character, any other sign but the backslash for itself |
| SqlLike.LikeEscape | src/buyer_search_intent.ts:77-79 | after the backslash every character stands for itself |
| BuyerSearch.NormalizeSearchText | src/buyer_search_intent.ts:62-74 | the loop computes the normal form |
| BuyerSearch.BuyerSearchPredicateSql | src/buyer_search_intent.ts:110-143 | the numbered placeholders pushed one by one are those of the specified fragment, for every intent |
| BuyerSearch.NamePredicateExact | src/buyer_search_intent.ts:119-123 | a name predicate holds exactly of rows whose displayed name contains every token, whatever parameters are bound before it |
| BuyerSearch.RankExact | src/buyer_search_intent.ts:145-154 | the rank of a participation is whether its name contains the first token, whatever parameters follow |
| BuyerSearch.PhonePredicateExact | src/buyer_search_intent.ts:124-125 | a phone predicate holds exactly of rows whose phone, or id without one, has the digits in sequence |
| BuyerSearch.EmailPredicateExact | src/buyer_search_intent.ts:126-127 | an e-mail predicate holds exactly of rows whose lower-cased e-mail contains the query |
| BuyerSearch.OrderCodePredicateExact | src/buyer_search_intent.ts:128-133 | an order-code predicate holds exactly of rows whose buyer has a participation with the plan's code, which is the one that was written (SearchCodes.OwnCodeFound) |
| BuyerSearch.IdPredicateExact | src/buyer_search_intent.ts:134-140 | an id predicate holds exactly of the row of that buyer id, in any case, and of the buyer of the participation with that id |
| SearchWords.SqlFormFolds | src/buyer_search_intent.ts:114-115 | the SQL normal form is the normaliser's folding, for every text |
| SearchWords.FoldIs | src/buyer_search_intent.ts:49-74 | character by character: the points U+0591 to U+05C7 are dropped, the five final letters become regular, all else stays |
| Text.SpacesAre | src/buyer_search_intent.ts:66 | the characters that trimming and splitting take for white space, one by one |
| SearchWords.BlankIs | src/buyer_search_intent.ts:66 | the characters that separate words |
| SearchWords.TokenIsWord | src/buyer_search_intent.ts:62-74 | every token of a query is a non-empty word and a substring of the SQL normal form of the query |
| SearchWords.TokensEmptyIff | src/buyer_search_intent.ts:100-102 | a query has no token exactly when it has no visible character |
| SearchWords.OwnNameFound | src/buyer_search_intent.ts:81-123 | searching for a displayed name finds its row if and only if its first 120 characters hold a visible character |
| SearchWords.LonePointIsNotFound | src/buyer_search_intent.ts:62-74 | a name that is one Hebrew point is classified as a name and not found |
| SearchContacts.OwnPhoneFound | src/buyer_search_intent.ts:81-125 | searching for the phone on record finds its row, whatever separators it is written with |
| SearchContacts.OwnEmailFoundIff | src/buyer_search_intent.ts:81-127 | searching for an e-mail of up to 120 characters finds its row if and only if it has no final letter, and points and blanks at its ends only |
| SearchContacts.OwnEmailFoundExactly | src/buyer_search_intent.ts:81-127 | for e-mails of any length: if and only if that holds of the part searched for, or the folded query occurs again past it |
| SearchContacts.FinalLetterIsMissed | src/buyer_search_intent.ts:81-127 | a concrete e-mail with a final letter is classified as an e-mail and does not find its row |
| SearchCodes.ClassifiedIff | src/buyer_search_intent.ts:81-104 | for every query, what it is taken for, told from its characters alone: empty, an e-mail, an order code, an id, a phone or a name, and each of them if and only if |
| SearchCodes.QueryIs | src/buyer_search_intent.ts:82 | a query is what is written without the blanks around it, up to its 120th character |
| SearchCodes.BlankQuery | src/buyer_search_intent.ts:82-88 | it is empty if and only if only blanks are written |
| SearchCodes.PlanIs | src/buyer_search_intent.ts:88-100 | a phone is searched as its digits, an id in lower case, an empty query as nothing, and none of these as words |
| SearchCodes.SpelledIsRead | src/buyer_search_intent.ts:90-91 | ct in any case, four digits and four digits, with any runs of spaces and dashes before each and spaces around, are read as the code CT-dddd-dddd of those digits in that order |
| SearchCodes.ReadIsSpelled | src/buyer_search_intent.ts:90-91 | conversely only such a text is read as a code, and as that one |
| SearchCodes.OwnCodeFound | src/buyer_search_intent.ts:90-133 | searching such a text finds exactly the rows whose buyer has a participation carrying that code |
| SearchCodes.WrittenCodeFound | src/buyer_search_intent.ts:82-133 | for all halves, separators, cases and outer blanks within 120 characters |
| SearchCodes.OwnIdFound | src/buyer_search_intent.ts:92-140 | searching a buyer id, in any case, finds its buyer |
| SearchCodes.ParticipationIdFound | src/buyer_search_intent.ts:92-140 | searching a participation id, in any case, finds the buyer of that participation |
| BuyerRoster.ShownNameDecides | src/admin_control_center_routes.ts:410-438 | a row of the roster is kept exactly when the name it shows contains every token |
| BuyerRoster.OneTokenExact | src/admin_control_center_routes.ts:408-438 | for one token an aggregated row is kept exactly when one of its buyer's participations matches |
| BuyerRoster.OneTokenRoster | src/admin_control_center_routes.ts:408-438 | for one token a buyer is returned exactly when some participation of that buyer matches |
| BuyerRoster.ManyTokensExact | src/admin_control_center_routes.ts:408-438 | for any tokens a row is kept exactly when the newest participation holding the first token, the one it shows, holds them all |
| BuyerRoster.ManyTokensRoster | src/admin_control_center_routes.ts:408-438 | for any tokens a buyer can be returned exactly when one of the newest participations that hold the first token holds them all |
| BuyerRoster.ShownNameFindsBuyer | src/admin_control_center_routes.ts:408-438 | searching for the name the roster shows returns its buyer if and only if its first 120 characters hold a visible one, when no two participations of the buyer were created at one moment |
| BuyerRoster.NewerPartialMatchHides | src/admin_control_center_routes.ts:414-438 | a buyer is missed whose older name holds every token when a newer one holds only the first |
| RosterExample.MissedBuyer | src/admin_control_center_routes.ts:414-438 | a concrete table: a buyer with a row in the roster, one of whose names is the query itself, is not returned |
| BuyerRoster.EveryBuyerHasARow | src/admin_control_center_routes.ts:412-433 | the grouping makes a row for every buyer of the table |
| RosterRows.ShownPhone | src/admin_control_center_routes.ts:415-415 | the phone a row shows is that of a newest participation of its buyer with one; there is none exactly when none has one |
| RosterRows.ShownEmail | src/admin_control_center_routes.ts:416-416 | the same for the e-mail |
| RosterRows.ShownName | src/admin_control_center_routes.ts:414-414 | the same for the name, unless names are searched |
| RosterRows.EmptyRoster | src/admin_control_center_routes.ts:408-438 | without a query exactly the buyers of the table are returned, with the limit set aside |
| RosterRows.PhoneRoster | src/admin_control_center_routes.ts:408-438 | a phone search returns a buyer exactly when a newest phone of that buyer, or the id when there is no phone, has the digits in sequence |
| RosterRows.EmailRoster | src/admin_control_center_routes.ts:408-438 | an e-mail search returns a buyer exactly when a newest e-mail of that buyer, in lower case, contains the query |
| RosterRows.CodeRoster | src/admin_control_center_routes.ts:408-438 | an order-code search returns exactly the buyers of participations that carry the code |
| RosterRows.IdRoster | src/admin_control_center_routes.ts:408-438 | an id search returns exactly the buyer of that id and the buyer of the participation of that id |
| Connection.SafeQueryIsolates | src/admin_mission_control.ts:93-113 | whatever happens to the read, status and savepoints come out as they went in, and the result is the read's own unless the transaction was aborted before |
| Connection.AbortedRefuses | src/db.ts:131-145 | an aborted transaction refuses every statement, unchanged, but the two that end it and going back to a savepoint it has |
| Connection.OutsideRefuses | src/db.ts:131-145 | outside a transaction savepoints are refused and nothing changes; beginning twice changes nothing |
| Connection.ProbesInSequence | src/admin_mission_control.ts:93-113 | any sequence of probes leaves an open transaction usable and its stack unchanged, and the i-th result is that of the i-th statement |
| Connection.TransactionIsAtomic | src/db.ts:131-145 | a body commits exactly when no plain query threw; then everything that succeeded is durable, failed probes notwithstanding; otherwise nothing is |
| Connection.Client.SafeQuery | src/admin_mission_control.ts:93-113 | the wrapper as written adds at most the read's effects to the session |
| Connection.Client.WithTransaction | src/db.ts:131-145 | the wrapper as written returns an idle session with all of its work or none of it |
| ProbeFifo.AlongTrace | src/admin_mission_control.ts:2316-2328 | serving the shared queue leads through any trace of its steps to the same end |
| ProbeFifo.FifoResults | src/admin_mission_control.ts:2316-2328 | calls started together all settle, and a call gets its own rows exactly as long as no earlier read failed |
| ProbeFifo.FifoLeavesSession | src/admin_mission_control.ts:2316-2328 | whatever fails, the session that calls which ran together leave: its status, its stack mark by mark, and its data |
| ProbeFifo.FifoOutcome | src/admin_mission_control.ts:2316-2328 | whatever fails: the transaction is usable if and only if there was at most one call or the last read is the first to fail; how many savepoints leak, and whose; and what COMMIT then makes durable, without an error |
| ProbeFifo.LeakedSavepoint | src/admin_mission_control.ts:2316-2328 | a concrete run: two calls of which the second fails leave a usable transaction with the first one's savepoint |
| ProbeFifo.OneCallIsSequential | src/admin_mission_control.ts:93-113 | one call alone on the queue is the sequential wrapper |
| Gallery.NormalizeSellerImages | frontend/app.js:2477-2495 | map, search and forEach mark exactly the first marked image, or the first one |
| Gallery.NormalizeWellFormed | frontend/app.js:2477-2495 | whatever comes in, at most five complete images come out, exactly one of them primary unless there is none |
| Gallery.NormalizeFixedPoints | frontend/app.js:2477-2495 | normalising changes nothing if and only if the gallery is well formed |
| Gallery.EditWellFormed | frontend/app.js:2497-2558 | every append, move, removal, choice of primary and clear leaves a well-formed gallery, on any argument |
| Gallery.MovePermutes | frontend/app.js:2982-2992 | a move permutes the records and the primary image stays the primary image |
| Gallery.MoveUndone | frontend/app.js:2982-2992 | the opposite move restores the gallery, every field and the order |
| Gallery.PrimaryChosen | frontend/app.js:2537-2550 | only the mark changes, and exactly the chosen image has it |
| Gallery.RemovalTakesOne | frontend/app.js:2510-2535 | a refused deletion changes nothing; otherwise just that image goes, and the primary stays or passes to the first image |
| Gallery.AppendKeeps | frontend/app.js:2352-2384 | a selection goes to the end as far as there is room; what was there keeps place, keys and mark |
| GalleryRows.NormalizedCount | frontend/app.js:2477-2480 | as many images as have data stay, and at most five |
| GalleryRows.NormalizedRow | frontend/app.js:2477-2491 | an image with data is kept if and only if fewer than five with data stand before it, in that order; bytes, type, size and id travel unchanged, a missing name, state or key is filled in as the code does |
| GalleryRows.RoomIs | frontend/app.js:2352-2356 | a selection is cut to the room left, from its first file on |
| GalleryRows.AddedRows | frontend/app.js:2377-2380 | each file goes to the end as it is, and unmarked when there were images |
| GalleryRows.MovedRows | frontend/app.js:2982-2992 | a moved image arrives where it was sent, those it passes step back by one, and all others stay |
| GalleryRows.OutOfRange | frontend/app.js:2537-2558 | a move or choice out of range changes nothing, and clearing leaves nothing |
| GalleryRows.RemovalIndex | frontend/app.js:2510-2513 | a negative index counts from the end, and one past the end removes nothing |
| Gallery.EditsDistinct | frontend/app.js:2477-2558 | over any edits the gallery stays well formed and no two of its images share an upload key |
| Gallery.SellerForm.constructor | frontend/app.js:146-152 | an empty form whose cache agrees |
| Gallery.SellerForm.ReadSellerImages | frontend/app.js:2453-2475 | reading back gives exactly what was stored |
| Gallery.SellerForm.SetSellerImages | frontend/app.js:2497-2504 | stores the normal form, and the cached primary fields agree with it |
| Gallery.SellerForm.AppendFiles | frontend/app.js:2352-2384 | the append edit, and the cache agrees |
| Gallery.SellerForm.MoveSellerImage | frontend/app.js:2982-2992 | the move edit by two splices, and the cache agrees |
| Gallery.SellerForm.RemoveSellerImage | frontend/app.js:2510-2535 | the removal, with splice's own treatment of its index, and the cache agrees |
| Gallery.SellerForm.MakeSellerImagePrimary | frontend/app.js:2537-2550 | the choice of primary, and the cache agrees |
| Gallery.SellerForm.ClearSellerProductImage | frontend/app.js:2552-2557 | the clear, and the cache is empty |
| DraftProtocol.StepSafe | frontend/app.js:2003-2031 | every event keeps the invariant: the record is the seller's own, and only its key can have created, or can still create, a deal |
| DraftProtocol.AtMostOneDeal | frontend/app.js:2008-2031 | within one creation, for any lost, late, repeated or concurrent requests, given-up answers, sign-ins and reloads within a day, at most one deal is created and every processed submit is about it |
| DraftProtocol.ResubmitFindsTheDeal | src/app.ts:6332-6350 | once a submit was processed, an answered one never creates a deal, and finds it if and only if the form is unchanged or the id was already known |
| DraftProtocol.ReloadCreatesUnless | frontend/app.js:7827-7855 | after a reload a submit creates a deal if and only if the record cannot be resumed: missing, not the seller's, over a day old, or from before the key |
| DraftProtocol.SignInCreatesUnless | frontend/app.js:7827-7855 | after a sign-in on the page a submit creates a deal if and only if the server knows neither draft nor key of the record, where that can be restored, and of the page's memory otherwise |
| DraftProtocol.ReloadForgets | frontend/app.js:7836-7860 | after a reload no answer to an earlier request changes anything |
| DraftProtocol.SignInOwns | frontend/app.js:7812-7830 | a record that fits and is written after a sign-in is the seller's own and holds what the page remembers |
| DraftProtocol.SignedOutEditCreatesTwo | frontend/app.js:7818 | a concrete run: one edit while signed out makes one creation into two deals |
| DraftProtocol.LargeFormCreatesTwo | frontend/app.js:7822-7823 | a concrete run: a record of more than 20,000 characters makes one creation into two deals |
| DraftProtocol.SellerCreate.HydrateResume | frontend/app.js:7827-7855 | restores an owned record within its day, drops any other |
| DraftProtocol.SellerCreate.PersistResume | frontend/app.js:7805-7825 | writes the record exactly when it is at most 20,000 characters long |
| DraftProtocol.SellerCreate.CreateDeal | frontend/app.js:2003-2022 | the submit step up to its request, with the key drawn and recorded first |
| DraftProtocol.SellerCreate.ServeRequest | src/app.ts:6322-6350 | the server's idempotency: a new key creates, a known key replays the same payload and refuses another |
| DraftProtocol.SellerCreate.FinishCreateDeal | frontend/app.js:2023-2031 | the answer of a submit that is still waited for: the deal's id is remembered and recorded |
| DraftImageRuns.UploadConsistent | frontend/app.js:2034-2046 | one upload keeps the invariant (distinct keys on both sides, ids that point at the image's own row), touches no other image, and gives its image an id when it succeeds |
| DraftTaskRuns.StepSound | frontend/app.js:2003-2067 | every event of the form (a click, the start of a submit, deletion or selection, a request processed, answered, given up or late) keeps the invariant of all copies of the gallery, all requests and the server |
| DraftTaskRuns.OneRowPerPicture | frontend/app.js:2034-2046 | on every run, however submits, deletions and selections interleave, the server holds at most one row for each key, and every image with an id, in the form or in a submit's copy, has the id of its own row, with its own key, bytes and name |
| DraftSteps.BannerIff | frontend/app.js:2059-2073 | a task ends with the banner if and only if it is a submit whose check lists as many images as it has, or one without images whose draft is there; no deletion, selection or reordering does |
| DraftSteps.ClosedIff | frontend/app.js:2059-2073 | and the form is closed exactly by such an answer |
| DraftSteps.ClosedTakesNothing | frontend/app.js:2059-2073 | after it the form takes no click of this creation |
| DraftSteps.SelectionStarts | frontend/app.js:2352-2376 | a selection with room holds a copy of the gallery from before its files are read; without room, or files, nothing starts |
| DraftSteps.DeletionStarts | frontend/app.js:2510-2528 | deleting an image the server has holds a copy and asks the server; any other image just leaves the gallery |
| DraftSteps.SubmitStarts | frontend/app.js:2003-2031 | a submit takes the gallery as it is and first asks for its draft, which it creates if there is none |
| DraftSteps.ClickSends | frontend/app.js:2994-3010 | a move or choice in range edits the gallery and, with a draft and every id, sends the ids in their order and the id of the marked image; out of range it does neither |
| DraftSteps.ClearAsksNothing | frontend/app.js:2552-2558 | clearing asks the server nothing |
| DraftSteps.NothingToOrder | frontend/app.js:2994-2999 | without a draft, images, or an id for each, no order is sent and that is no failure |
| DraftOverlaps.BannerStoresOnce | frontend/app.js:2032-2073 | on every run, for any pattern of failures and resubmits and whatever else is handled: when a submit sets the banner, each of its images has an id and is stored exactly once, under its own key, with its bytes and name |
| DraftOverlaps.OverlapStoresOnce | frontend/app.js:2003-2073 | for any overlapping submits of one gallery, with nothing else handled: when one sets the banner the gallery is the one submitted, and each image has exactly one row of its key, live, with its bytes and name |
| DraftPlaces.OverlapHolds | frontend/app.js:2003-2073 | if moreover the images were not stored before, or stood in their places: the server holds that gallery, every image in its place with its mark, and nothing else |
| DraftPlaces.UnstoredOverlapHolds | frontend/app.js:2003-2073 | in particular from a form whose images are not stored and with nothing under way; and the form then mirrors the server if and only if it has every id |
| DraftFresh.StepFresh | frontend/app.js:2003-2067 | every event but the start of a submit that is not fresh keeps the submits apart: no two have the same key still to send, none an acknowledged one; and it repeats nothing |
| DraftFresh.NeverResent | frontend/app.js:2144-2160 | on every run in which each submit is fresh where it starts, no request repeats a key that was acknowledged, whatever is lost, given up or late and whatever deletions, selections and clicks are handled |
| DraftRepeats.RepeatsIff | frontend/app.js:2003-2046 | along every run of fresh submits, with a server that saves what is sent before: the next submit can lead to a repeated request, without another submit, if and only if it is not fresh |
| DraftRepeats.FirstUploadRepeatsIff | frontend/app.js:2032-2039 | at any open form, whatever else runs: the first upload of a submit that is served at once repeats an acknowledged key if and only if that of the first image without an id was acknowledged |
| DraftRepeats.SelectionStaleIff | frontend/app.js:2352-2384 | a selection that ends, whenever it began, leaves an acknowledged image without its id if and only if its copy had lost one by then |
| DraftRepeats.DeletionStaleIff | frontend/app.js:2510-2528 | the same for a deletion |
| DraftRepeats.RoomAccepts | src/seller_deal_image_routes.ts:81-136 | with room for them the server saves, in order, images that are new or stored with the same request |
| DraftServer.ReplayIs | src/seller_deal_image_routes.ts:115-136 | an upload under a known key stores nothing, and answers with that key's image if the request is the same and with an error otherwise |
| DraftServer.NewImageIs | src/seller_deal_image_routes.ts:137-200 | an upload under a new key is refused over twelve live images; otherwise it adds one row with that request in its place, and takes the mark if asked to or if no live image has it |
| DraftServer.OrderIs | src/seller_deal_image_routes.ts:234-296 | an order is accepted if and only if it lists every live image once; then the k-th has place k, and the mark is where it was asked for and nowhere else |
| DraftServer.DeletionIs | src/seller_deal_image_routes.ts:314-342 | a deletion is done if and only if the image is live; it takes out that image and hands its mark to the one that is first then |
| DraftServer.OthersAre | frontend/app.js:2059-2067 | the check counts the live images and changes nothing |
| DraftOrderly.OrderlyNeverResends | frontend/app.js:2003-2046 | if no submit, deletion or selection starts over a running submit and no submit over any of the three, every submit is fresh and nothing acknowledged is sent again |
| DraftAlone.LoneBannerMeansMirrored | frontend/app.js:2032-2073 | from every state a run can reach, a submit of images with nothing else handled between start and finish sets the banner only if every image is live on the server, in its place, under its own key, with its mark, and nothing else is |
| DraftAlone.LoneBannerIff | frontend/app.js:2032-2073 | for every gallery such a banner means that the server mirrors the gallery if and only if there was an image to save or the server showed none |
| DraftEarly.EarlyClicksAreLost | frontend/app.js:2034-2067 | a submit with moves, choices of primary and clears clicked while it has an image to upload: the banner means that the gallery is the submitted one again and the server mirrors it |
| DraftQuiet.QuietIff | frontend/app.js:2059-2073 | in any state in which the server mirrors the gallery it does so after the next event if and only if that event is quiet: a click that moves and marks nothing, a request that changes nothing shown, an answer whose copy looks as the gallery does, or a mere start |
| DraftQuiet.CheckedBannerIff | frontend/app.js:2059-2073 | a submit that is alone until its check is sent: through any quiet events the server mirrors the gallery, and through one more if and only if it is quiet |
| DraftRefines.LoneSubmitIsSave | frontend/app.js:2003-2073 | for every fate of its requests, such a submit ends with the gallery, the server and the banner of the uninterrupted save |
| DraftRefines.LoneSubmitIsRun | frontend/app.js:2003-2073 | and is a run of events of that submit alone |
| DraftRaces.SecondSubmitResends | frontend/app.js:2003-2046 | a concrete run: the submit is pressed again while it waits for its draft; it is not fresh, and leads to a repeated request |
| DraftRaces.SecondSubmitTakesId | frontend/app.js:2045-2067 | a concrete run: the banner is set over a gallery that the second submit has written back without an id; the server holds it whole |
| DraftRaces.DeletionResends | frontend/app.js:2510-2528 | a concrete run: a deletion answered during a submit takes another image's new id away, and the next submit can send it again |
| DraftRaces.SelectionResends | frontend/app.js:2352-2384 | a concrete run: a selection read during a submit does the same |
| DraftRaces.SelectionBreaksBanner | frontend/app.js:2059-2073 | a concrete run: a picture added while the check is awaited is announced as saved and is not on the server |
| DraftRaces.SelectionDuringOrderBreaksBanner | frontend/app.js:2049-2073 | a concrete run: a picture written back while the order is awaited is announced as saved and is not on the server |
| DraftRaces.ChoiceBreaksBanner | frontend/app.js:2537-2550 | a concrete run: another primary is chosen while the check is awaited, and the banner is set over the old mark |
| DraftRaces.LateOrderBreaksBanner | frontend/app.js:2994-3017 | a concrete run: an order that was given up arrives during a later submit, and the banner is set over the mark chosen first |
| DraftRaces.LateOrderOverlaps | frontend/app.js:2994-3017 | that run is one of overlapping submits from a reached state with an older order under way, so their images are stored once and need not have their marks |
| DraftRaces.UploadOverwritesEdits | frontend/app.js:2039-2045 | whatever was edited meanwhile, the answer to an upload writes the submit's own copy back |
| DraftBanner.BannerMeansMirrored | frontend/app.js:2032-2067 | an uninterrupted save of images that sets the banner leaves every one live on the server, in its place, under its own key, with its mark, and nothing else |
| DraftBanner.MirroredIsHeld | frontend/app.js:2045-2067 | the form mirrors the server exactly when the server holds the gallery, whatever ids the form has, and the form has every id |
| DraftBanner.BannerMirrorsIff | frontend/app.js:2032-2067 | for every gallery the banner of an uninterrupted save means that the server mirrors it if and only if there was an image to save or the server showed none |
| DraftBanner.StoredOnce | src/seller_deal_image_routes.ts:115-136 | then each image is stored exactly once: its own row and no other has its key |
| DraftBanner.ReuploadAccepted | src/seller_deal_image_routes.ts:81-136 | an upload whose reply was lost is accepted again if and only if position and mark are as they were |
| DraftBanner.MovedAfterLostReply | frontend/app.js:2034-2046 | otherwise the image blocks every save, whatever the network does |
| DraftBanner.MarkedAfterLostReply | frontend/app.js:2034-2046 | a concrete run: of two images the first one's reply is lost and the second is made primary; every later save is refused |
| DraftBanner.SaveSucceedsIff | frontend/app.js:2032-2067 | on a network that answers, a save sets the banner if and only if every image is new or stored live as it is now and the server shows nothing else |
| DraftBanner.EmptyGalleryHidesOrphan | frontend/app.js:2032-2067 | a concrete run: an emptied gallery is announced as saved while the server still shows an image |
| DraftSave.SellerDraft.constructor | frontend/app.js:2003 | the draft as it is handed over |
| DraftSave.SellerDraft.PostImage | frontend/app.js:2144-2160 | one request: the server's table and the reply, by fate |
| DraftSave.SellerDraft.UploadOne | frontend/app.js:2034-2046 | one round of the loop |
| DraftSave.SellerDraft.UploadImages | frontend/app.js:2034-2046 | the loop as written, up to its first failure, is the specified one |
| FlowStore.TiersAgree | frontend/app.js:8048-8064 | after any steps every session flow has a durable copy that agrees with it on exactly the allow-listed keys, and no durable copy holds another key |
| FlowStore.AfterLoss | frontend/app.js:8112-8125 | on every run, after the session is lost get returns a flow exactly within the day of its last write, and it is the projection of what the session held and nothing more |
| FlowStore.WhileKept | frontend/app.js:7894-7916 | on every run get returns a kept flow whole within its six hours and removes both copies after |
| FlowStore.NeverPastThirtyHours | frontend/app.js:7894-7916 | on every run no flow is returned more than a day and six hours after it was last saved or cleared |
| FlowStore.ThirtyHoursReached | frontend/app.js:7897-7903 | that bound is reached |
| FlowStore.LossOutlivesKeeping | frontend/app.js:7912-7915 | keeping the session gives a flow six hours, losing it gives the projection a day |
| FlowStore.TakenOutStaysOut | frontend/app.js:8024-8038 | from every state a field that went with a removed flow, or that a clear reached, is never returned again, with or without its session, until a save gives it |
| FlowStore.ClearedStaysOutIff | frontend/app.js:8024-8031 | from every state a cleared field is never returned again, whatever steps follow that do not give it, if and only if the flow had its session, or its durable copy could not be restored or did not hold the field |
| FlowStore.ClearAfterLossMisses | frontend/app.js:8024-8026 | a concrete run: cleared after the session was lost, an allow-listed field comes back |
| FlowStore.AllowList | frontend/app.js:8049-8053 | the list in the code is exactly the set of allowed fields |
| FlowStore.SavedFlow | frontend/app.js:7935-7941 | for every store: what get returns after a save has every field at the value the save gave, none that it gave as undefined, and every other one as the session had it |
| FlowStore.OtherDealsUntouched | frontend/app.js:7935-7941 | what is done for one deal changes no tier of another |
| FlowStore.ReturnsLastGiven | frontend/app.js:7894-7941 | on every run, through losses and restores of the session, a field that get returns has the value of the last save that gave it |
| FlowStore.GivenIsKept | frontend/app.js:7894-7941 | from every state: a field that a save gave, and that no later step takes out or gives again, is in every flow that get returns, with that value; losing the session takes out the fields that are not on the list |
| FlowStore.BrowserStorage.constructor | frontend/app.js:8040-8046 | both stores empty |
| FlowStore.BrowserStorage.SafeResumeProjection | frontend/app.js:8048-8064 | the loop over the list computes the projection |
| FlowStore.BrowserStorage.WriteSafeResume | frontend/app.js:8104-8110 | writes the projection, stamped now, for that deal alone |
| FlowStore.BrowserStorage.SaveFlow | frontend/app.js:7935-7941 | the save step, which SavedFlow says field by field: merged fields in the session, their projection in durable storage |
| FlowStore.BrowserStorage.ClearFlowFields | frontend/app.js:8024-8031 | the clear step, its loop deleting exactly the given keys from both |
| FlowStore.BrowserStorage.RemoveFlow | frontend/app.js:8033-8038 | removes both copies |
| FlowStore.BrowserStorage.ReadSafeResume | frontend/app.js:8112-8125 | the durable copy stamped now, or nothing and no copy when it is too old |
| FlowStore.BrowserStorage.GetFlow | frontend/app.js:7894-7916 | the get step and its result |
| PendingPayment.JoinMembers | frontend/app.js:7502-7527 | the join request after a hosted payment, member by member: each text is there if and only if the field it is about is not empty, and is that field; the mall session only for visitors from the mall |
| PendingPayment.JoinKey | frontend/app.js:7502-7509 | the four parts of its idempotency key are the deal, the buyer, the quantity and the delivery option |
| PendingPayment.JoinWithoutDetails | frontend/app.js:1873-1886 | without stored details the four texts of the form are absent and nothing else differs |
| PendingPayment.DeferredMembers | frontend/app.js:1795-1803 | when the provider defers, exactly the authorisation, the time and the form's texts are saved |
| PendingPayment.QueryMembers | frontend/app.js:1843-1851 | the status query asks about the authorisation that was begun, under its correlation id |
| PendingPayment.DeferredJoinIsTheSame | frontend/app.js:1810-1890 | the request after a hosted payment equals the one an immediate authorisation with that answer would have sent, key and body |
| PendingPayment.RestoredJoinIsTheSame | frontend/app.js:7943-8017 | so does the request of a process that died and was restored, when the fields are within their caps |
| PendingPayment.PersistedIff | frontend/app.js:7978-7985 | a record is written if and only if deal, buyer, one-time token and authorisation are there |
| PendingPayment.RestoredWhenUsable | frontend/app.js:7988-8012 | whatever record is found is restored if and only if it has not expired and has those four, the deal's within 160 units; all of its flow comes back |
| PendingPayment.RestoredFlowIsTheSameIff | frontend/app.js:7943-8012 | the whole flow comes back unchanged if and only if every text is within its cap and what is always stored was given |
| PendingPayment.CutsAreBeginnings | frontend/app.js:7943-7974 | every stored text is a beginning of the flow's own |
| PendingPayment.RestoredRunIsTheSameIff | frontend/app.js:7943-8017 | the record restores exactly within six hours, and then the status query and the join request with its idempotency key equal those of the uninterrupted run if and only if the fields they use are within their caps |
| PendingPayment.SameQuery | frontend/app.js:1851-1859 | the status query survives exactly when the authorisation id is within its cap and a correlation id within its cap is there |
| PendingPayment.RestoreAgainIsTheSame | frontend/app.js:7988-8012 | saving a restored flow gives the record it was restored from: dying again loses nothing more |
| JsonText.TextReadBack | frontend/mobile-bridge.js:33-36 | the text of a member as JSON.stringify escapes it is read back by JSON.parse as it was, lone surrogates included (sections 7 and 9 of RFC 8259) |
| JsonText.EscapedIsPaired | frontend/mobile-bridge.js:33-36 | what is written holds no lone surrogate, so it can be stored |
| JsonText.WrittenAsItStandsIff | frontend/mobile-bridge.js:33-36 | a text is written unescaped if and only if it has no quote, backslash, control or lone surrogate |
| JsonText.EscapedAtMost | frontend/mobile-bridge.js:33-36 | escapes take at most six code units for each code unit of text |
| JsonText.EscapeLengths | frontend/mobile-bridge.js:33-36 | seven units take two when written, other controls and lone surrogates six, every other one |
| JsonText.SignsAreRead | frontend/mobile-bridge.js:33-36 | which signs are read as hexadecimal digits and as short escapes, and as what |
| JsonText.UnescapedIsNoText | frontend/mobile-bridge.js:33-36 | a bare quote or control is an error when read |
| PendingPayment.SizeIs | frontend/app.js:7943-7974 | the serialised record takes 540 units besides its numbers, its boolean and what each of its twenty texts takes |
| PendingPayment.FitsTheStore | frontend/mobile-bridge.js:33-36 | for any flow contents the serialised record is at most 34,000 of the store's 65,536 units |
| PercentCode.ValueOfBytes | frontend/app.js:667-673 | decoding the UTF-8 bytes of a scalar value gives it back (section 3 of RFC 3629) |
| PercentCode.DecodeOfEncode | frontend/app.js:667-673 | decodeURIComponent undoes encodeURIComponent, for every text (section 2.1 of RFC 3986) |
| PercentCode.EncodedIsPlain | frontend/app.js:1652 | encoded text holds only unreserved characters and percent signs, and is empty only for the empty text |
| PercentDecode.ValueIff | frontend/app.js:667-673 | bytes are read as a character if and only if they are its UTF-8: no longer form, no surrogate, nothing out of range |
| PercentDecode.DecodedIff | frontend/app.js:667-673 | decodeURIComponent gives a text if and only if its input is that text with each character but the percent sign as itself or percent-encoded, in hexadecimal of either case; every other input is an error |
| PercentDecode.EncodedAsItselfIff | frontend/app.js:1652 | the characters that are encoded as themselves, listed |
| Routes.MatchOfRender | frontend/app.js:635-658 | building a path from a pattern and matching it gives back what was put in the group |
| Routes.RenderOfMatch | frontend/app.js:635-658 | only built paths match: the path is the pattern around the captured text |
| Routes.AtMostOneEntry | frontend/app.js:635-658 | no path matches two entries of the table |
| RouteLinks.ParseRoute | frontend/app.js:632-676 | the loop over the table computes the parse, whose every answer RoutePaths gives by literal path |
| RouteLinks.OrderIsIrrelevant | frontend/app.js:660-674 | any table with the same entries, in any order, parses every path alike |
| RouteLinks.TrailingSlashIgnored | frontend/app.js:633 | a trailing slash changes nothing |
| RouteLinks.LinkParses | frontend/app.js:632-676 | for every non-empty id a link, built from the table's own pattern, parses back to its route and that id |
| RouteLinks.ParsedSpells | frontend/app.js:660-674 | conversely a path that parses to a route with an id is that pattern around a text that decodes to the id |
| RouteLinks.NavigateFindsIff | frontend/app.js:678-684 | following a link finds its route and id if and only if the id is not a dot segment |
| RoutePaths.PatternSpells | frontend/app.js:635-658 | each of the 22 patterns spells its literal path |
| RoutePaths.ParsesToPageIff | frontend/app.js:635-664 | a path parses to a page without an id if and only if, but for trailing slashes, it is that page's literal path |
| RoutePaths.ParsesToIdIff | frontend/app.js:635-673 | a path parses to a route with an id if and only if, but for trailing slashes, it is that route's literal path around one segment that decodes to the id |
| RoutePaths.DealLinksLead | frontend/app.js:636-637 | /app/deal/ID and /app/join/ID/otp lead to the deal and its code screen, with the encoded id's own text, for every non-empty id |
| RoutePaths.JoinLinksLead | frontend/app.js:638-640 | /app/join/ID/payment and /app/join/ID/confirmation lead to payment and confirmation |
| RoutePaths.ParticipationLinksLead | frontend/app.js:641-642 | /app/track/ID and /app/recovery/ID lead to tracking and recovery |
| RoutePaths.SellerLinksLead | frontend/app.js:651-652 | /app/seller/deals/ID/edit and /app/seller/deals/ID lead to the editor and the deal |
| RoutePaths.AdminLinksLead | frontend/app.js:655-656 | /app/admin/deals/ID and /app/admin/participants/ID lead to their pages |
| RoutePaths.UserLinksLead | frontend/app.js:657 | /app/admin/users/ID leads to the user's page |
| RoutePaths.PagesLead | frontend/app.js:639-654 | the eleven literal paths without an id lead to their pages |
| RoutePaths.HomeLeads | frontend/app.js:633-634 | / and /app are home |
| RoutePaths.NotFoundIff | frontend/app.js:660-675 | a path is not found if and only if it is neither home nor any of the 22 literal paths |
| HtmlText.EscapeIsOnePass | frontend/app.js:8520-8527 | the five passes replace every character by its own entity and never touch what an earlier pass wrote |
| HtmlText.ShownEscapeIsText | frontend/app.js:8520-8527 | escaped text is shown as the text itself, for every text |
| HtmlText.EscapedHasNoMarkup | frontend/app.js:8520-8527 | escaped text holds no bracket and no quote, of either kind |
| HtmlText.AmpersandsMustGoFirst | frontend/app.js:8522 | with the ampersands replaced last the result would differ |
| PickupLabel.ItemsAreSplit | frontend/app.js:7786 | splitting at commas character by character is String.prototype.split |
| PickupLabel.ParseDistributionPointLabel | frontend/app.js:7774-7792 | the loop over the parts computes the parse |
| PickupLabel.BuildIs | frontend/app.js:7753-7761 | for every form, complete or not: the caption or else the name, the place, the instructions and the link, in this order, each only if given, with one separator between any two |
| PickupLabel.ParseOfBuild | frontend/app.js:7753-7761 | for valid fields without the dot, and a plain address, parsing recovers title, address, instructions and link, and the city with regular comma spacing |
| PickupLabel.AddressRecoveredIff | frontend/app.js:7782-7789 | the address comes back if and only if it has no comma and no reserved prefix |
| PickupLabel.ResaveSettles | frontend/app.js:1234-1241 | an unedited draft saved again is valid, parses to itself from then on, and reproduces the first label if and only if its city's commas were regular |

## Left out

- ControlPlane.Tables.RequeueOutbox: the attempt ceiling is a column that the step compares with, and the lease owner and time columns that the code also clears are not there, because nothing modelled reads them.
- ControlPlane.Tables.ExecuteAdminAction: for retries, reconciliation, support cases and attested payouts a parameter says whether their statement found something to do; the tables they write are not modelled.
- BuyerSearch.NormalizeSearchText: NFKC is the identity and lower-casing works on ASCII letters, one character at a time, because the tables of Unicode are not modelled; both forms of a name are folded alike.
- DraftProtocol.SellerCreate.PersistResume: the length of the record's JSON text is given with each event, for every length, and compared with the limit of 20,000; it is not computed from the form's fields.
- PendingPayment.FitsTheStore: number texts in the record take at most 25 units each, which no number's text exceeds; it is taken as given here.
- RoutePaths.ParsesToIdIff: the id is one value; whether the code hands it on as `dealId`, `participantId` or `buyerId` is fixed by the route's name and not modelled.
- DraftRepeats.RepeatsIff: the way back needs a server that saves the images sent before the repeated one (`Willing`). A refused upload ends its submit before it can repeat anything.
- DraftOrderly.OrderlyNeverResends: a discipline of clicks under which every submit is fresh; not every fresh submit keeps it.
- DraftAlone.LoneBannerIff: for submits with nothing else handled meanwhile. `DraftOverlaps`, `DraftPlaces`, `DraftEarly` and `DraftQuiet` cover other submits, clicks before the last upload is answered, and all events while the check is awaited.
- DraftPlaces.OverlapHolds: places and marks when the images were not stored before or stood in their places, and no older order is under way. With an older order the mark can be wrong (`DraftRaces.LateOrderOverlaps`, `LateOrderBreaksBanner`); for images moved between two uploads `OverlapStoresOnce` says that they are stored, not where.
- DraftEarly.EarlyClicksAreLost: clicks. A selection or a deletion that was started early writes its copy back later; `DraftRepeats` says what that copy lacks.
- Authentication, permissions, recent multi-factor checks and UUID shape checks of the admin routes: single branches before the modelled ones.
- Database errors inside an admin step, including the sweeper's ignored event-insert errors: a step either happens whole or not at all.
- A failing payout-freeze query: the comment at src/payout_rail.ts:368 calls the gate fail-closed, and the code takes a failure for "not frozen". The model has the query's answer only.
- Flags by callers other than the executor, and creation of flags without an action: no route offers it.
- Outbox attempt ceilings and worker transitions: a worker may write any outbox row at any step.
- Equal `created_at` timestamps in "newest first" orders: the control tables break ties by insertion; the roster's ties are left free.
- UTF-16: search, routes and labels work on Unicode characters; the pending-payment record works on code units. Encoding a lone surrogate is an error in JavaScript and cannot be written here.
- The roster's LIMIT 200, its counters, its join with deals (every participation has one), and the verification flags it adds.
- JSON and `localStorage`/`sessionStorage` are exact: no quota, no private mode, no second tab.
- The contents of a deal payload and the server's validation of it: payloads are compared whole, and a rejected request is one that was not processed.
- The editor version of a draft and the conflict it can raise on a PATCH.
- Images of an existing draft that is opened for editing, and the per-seller storage quota.
- `new URL` beyond dot segments: links contain only slashes, unreserved characters and percent-encoded bytes.
- File reading, image type and size checks, banners and rendering.
- The mall's card normalisation: every field is settled by reading its line.
- Deal, buyer and money states, charging, webhooks and reconciliation.
