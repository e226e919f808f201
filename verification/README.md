# Verified model of the compliance agent

This Dafny project models the parts of the compliance agent that decide what may be changed in a
Google Workspace Admin console, by whom it was approved, and what evidence is kept. It proves that
those decisions keep their promises over every plan, every interleaving and every restart.
`dafny verify dfyconfig.toml` checks all of it.

## What is modelled

**The policy change engine.** A plan of typed actions is folded over dictionaries of rules and
address lists (`DesiredState`, and `PlanFold` as the program runs it, in place). Every target must be
backed by the local ownership registry (`Ownership`). The result is diffed into six sets (`Diff`),
written in six phases (`WriteOrder`, `BrowserWriter`), read back and classified (`Verification`,
`Reconciliation`; `DriverRead` is the read itself), and committed to the registry (`Lifecycle`,
`OwnershipCommit`, `Succession`, `MatchedCommit`, `CommitEvidence`). The attended path commits
snapshots and regenerates the next baseline from them (`Baseline`, `BaselineRoundTrip`,
`AttendedClosure`); the content-compliance surface has its own fold and registry (`Compliance`,
`ComplianceFold`). Integrity, authorization, budget, convergence, impact and ownership closure are
proved in the modules of those names. `Changes` reduces every successful action to one of six small
changes, and the invariants are proved change by change.

Besides invariants, each operation's answer is stated once in terms a caller can see, by looking
resources up before and after it and without the functions that compute it: `PlanOutcomes` and
`PlanAcceptance` for the actions of a plan, `Retry` for verification and reconciliation,
`ConsoleOutcomes`, `AttendedOutcomes`, `ComplianceOutcomes`, `StateHashes` and `AuditErrors`.

**The console run protocol.** `ConsoleCoordinator`, `ApprovalService` and `ConsoleRunJournal` are
classes whose methods are proved against functions on values (`Coordinator`, `Approvals`,
`ConsoleJournal`). An `async` method is two methods, split at its await; an await is where any other
event may come in. `ConsoleProtocol` is the state machine of all events, including cancels, expiry,
mode changes, abandoned tasks, lost journal writes and process restarts; `ConsoleSafety` proves its
invariants, `ConsoleGuarantees`, `ConsolePlans`, `ConsoleDurability`, `ConsoleRestart` and
`ConsoleReplay` what follows over whole runs.

**Attended execution.** `Attended` is the second protocol: one approval, one fresh read, one write,
one read-back, one commit, with the run lock held from loading the registry to releasing it.

**Evidence.** The canonical form and hash of states (`Json`, `Canonical`, `StateTrees`), the
hash-chained event log with its writer, file format and verifier (`AuditChain`, `AuditFile`,
`AuditWriter`), and the scanner that finds the one JSON object in a model's answer (`Scanner`,
`ScannerRoundTrip`).

## Premises

- An ownership ID is the canonical text of a UUID; ordering by `str` and by `hex` agree. Dictionaries
  are maps; `sorted(values, key=id)` is their listing by ID.
- Injected UUIDs are distinct and name no observed resource. Integrity and authorization need no more;
  ownership closure also needs that the registry does not know them and that no observed list already
  carries a name made from one of them, because names use eight digits only and a bypass ID is not
  checked for collision.
- SHA-256 (section 6.2 of FIPS 180-4) is an injective function, NFC an idempotent one, each given as a
  parameter. A clock is a parameter of every event and may run backwards.
- Normalization keeps the two words for an entry's kind, domain and email, apart.
- Entries of one list or one action have distinct comparison values where a lemma says so. A compliance
  update carries its target's ID, as the plan model demands.
- A browser operation that reports completion was saved. Otherwise it may or may not have been.
- A recorded snapshot carries the ID of its record, as every commit stores it.
- Console run IDs are fresh; in the lemmas about replay they are 32 hexadecimal digits.
- In the attended protocol the registry has no other writer than this process.

## Promises that hold only under a condition

- **Ownership closure.** A matched read-back can fail to commit in two ways. The structural checks
  demand that every created or removed list comes with a created or removed rule; they refuse a plan
  whose update gives a rule its first bypass list, takes its last, or collapses several into one, and a
  plan that creates a bypass list and then removes its rule but not the list. And verification ignores
  order while the commit compares tuples, so a read-back in another order is matched and refused.
  `MatchedCommit.OwnershipClosure` is exact, `SteadyPlans.SteadyPlansClose` a condition on the plan;
  `Witnesses.AddedBypassBlocksTheCommit` and `Witnesses.ReorderedReadBlocksTheCommit` are inputs.
- **A complete attended write is verified.** The driver reads only lists that a rule names and sorts
  them by name; the expected state holds every list in the order of its ID. A removal that keeps the
  list is therefore never verified, nor are two UUIDs that share their first eight digits and stand in
  the wrong order. `DriverRead.CompleteWriteReadsBack` is exact on states,
  `ReadablePlans.AttendedPlanReadsBack` on plans; `Witnesses.KeptListFailsVerification` and
  `Witnesses.EqualPrefixesFailVerification` are inputs.
- **A retry follows only a write that was not applied.** An interrupted write is taken for one that was
  never applied when every operation done differs from what was there only up to NFC or order, and may
  then be retried (`Reconciliation.InterruptedWriteIsClassified`, exact;
  `UnseenOperation.ReorderingLooksUntouched`).
- **The written event stream verifies.** It does not when an event text contains U+0085, U+2028 or
  U+2029: the printer leaves them unescaped and the verifier splits lines at them.
  `AuditFile.WrittenFileVerifiesIff` is exact.
- **The scanner returns the printed object.** It does not when the answer starts and ends with three
  backticks and its first line break follows the object. `ScannerRoundTrip.PrintedObjectIsFound` is
  exact.
- **A run is executed once.** Within a process, always. Across restarts, if the journal write that
  records the start of the execution takes effect; if that one write is lost, the run can be previewed,
  approved and executed again (`ConsoleReplay.RecordedStartDecides`, `ConsoleLoss.LostStartExecutesTwice`).

The compliance baseline needs no such condition: the preview and the fresh read go through every
recorded rule or raise, so each record names a rule of the state read, and then
`ComplianceFold.CompliancePlanRoundTrip` holds of every plan. For a record the read does not cover,
`ComplianceFold.ComplianceRoundTrip` is exact and `Witnesses.ForgottenRecordReturns` an input.

In the table, the last rows, marked "Refinement", are methods that do in place, in the source's order,
what a function of the same module says; the properties are proved about those functions in the rows
before them.

## Model

| member | source | states |
|---|---|---|
| `Integrity.PlanKeepsIntegrity` | src/compliance_agent/domain/desired_state.py:33-123 | From a state in which every rule has its own primary list, every bypass name resolves to one list and no list serves two rules, every plan that succeeds yields such a state, through create, add, update with surplus-bypass deletion, and removal with or without the list |
| `Integrity.RunKeepsLinks` | src/compliance_agent/domain/desired_state.py:51-109 | The same after any part of a plan, except that two lists may share a visible name until the closing check rejects the plan |
| `Changes.StepChange` | src/compliance_agent/domain/desired_state.py:53-109 | Every action that succeeds is exactly one of six small changes of the two dictionaries, each bound to the ownership evidence it needed |
| `Changes.UpdatedChange` | src/compliance_agent/domain/desired_state.py:126-176 | A rule update keeps the rule's identity and primary list, and its bypass lists are reused, deleted, or new under an injected ID, each with the ownership evidence that took |
| `Changes.RemovedChange` | src/compliance_agent/domain/desired_state.py:371-398 | A removal drops the rule, and with it only its own list and owned bypass lists that no other rule uses |
| `PlanOutcomes.UpdateOutcome` | src/compliance_agent/domain/desired_state.py:126-176 | After a successful update the rule's own list holds exactly the action's entries and its one bypass list exactly the action's bypass entries: the first bypass list it had, kept under its name while the surplus is gone, or a new one under the next ID, or none; notice and flag are the action's, identity is kept, and no other rule or list changes |
| `PlanOutcomes.CreateOutcome` | src/compliance_agent/domain/desired_state.py:285-333 | A created rule stands under the next ID with the generated name, the plan's unit, the action's notice and flag, and a new list of exactly its entries, and with a bypass list under the ID after that exactly if it has bypass entries; nothing else changes |
| `PlanOutcomes.AddOutcome` | src/compliance_agent/domain/desired_state.py:196-258 | An addition goes to the rule it names unless it asks for another notice, without a name to the one rule with its notice, otherwise into a new enabled rule; the list it goes to keeps every entry and gains each added entry whose address it lacked, as often as it was given |
| `PlanOutcomes.AmbiguousAdditionFails` | src/compliance_agent/domain/desired_state.py:261-282 | An addition without a target fails when two rules have its notice |
| `PlanOutcomes.RemoveEntriesOutcome` | src/compliance_agent/domain/desired_state.py:336-352 | A removal of entries leaves in the target's list exactly those whose address is not named, as often as before, and changes nothing else |
| `PlanOutcomes.NoticeOutcome` | src/compliance_agent/domain/desired_state.py:355-368 | A notice lands on its rule alone, and exactly a new one adds the length of the rule's list to the reported count |
| `PlanOutcomes.EnabledOutcome` | src/compliance_agent/domain/desired_state.py:93-99 | A switch changes one flag of one rule that is not inherited |
| `PlanOutcomes.RemoveOutcome` | src/compliance_agent/domain/desired_state.py:371-398 | A removal takes away the rule and, when asked to, exactly its own list and every list one of its bypass names names |
| `PlanOutcomes.CalculateOutcome` | src/compliance_agent/domain/desired_state.py:51-123 | A plan succeeds if and only if its actions do and no display name is shared by two rules, a rule and an unmanaged rule, two unmanaged rules or two lists; its state is then what the actions left, in ID order, in the same unit, with the same unmanaged names sorted, and the count of entries under a new notice |
| `PlanAcceptance.AcceptedIff` | src/compliance_agent/domain/desired_state.py:53-109 | On linked rules an action succeeds if and only if the resources it needs exist with matching evidence, its target is not inherited where it must not be, and the IDs and entries of what it creates are in order |
| `PlanAcceptance.RefusalIs` | src/compliance_agent/domain/desired_state.py:401-447 | An action aimed at a rule is refused as without target when the rule is not there or inherited where it must not be, and as not owned when the rule or its list has no matching evidence |
| `PlanAcceptance.OtherUnitRefused` | src/compliance_agent/domain/desired_state.py:51-58 | An action for another unit than the plan's is refused before anything else |
| `Authorization.PlanTouchesOnlyOwned` | src/compliance_agent/domain/desired_state.py:59-109 | Over a whole plan, any observed rule or list that is changed or deleted was owned as observed; survivors keep ID, name, unit and primary list, and inherited rules keep their flag and bypass lists |
| `Authorization.RunFrames` | src/compliance_agent/domain/desired_state.py:53-109 | The same frame after any part of a plan |
| `Budget.DrawnIdsSuffice` | src/compliance_agent/application/change_service.py:44-66 | The IDs drawn for a plan suffice: none of the exhaustion errors can occur, for any plan and state |
| `Budget.StepWithinBudget` | src/compliance_agent/domain/desired_state.py:153-158 | An action given the IDs counted for it never reports exhaustion and uses up at most that many from the front, so no ID is used twice |
| `Budget.NewIdsCount` | src/compliance_agent/application/change_service.py:44-66 | The IDs drawn for a plan are, action by action, those the plan could use: two for a creation with bypass entries, one without, one for an addition that may create a rule and one for an update with bypass entries |
| `Convergence.AddressListedAfter` | src/compliance_agent/domain/desired_state.py:251-258 | After exact edits an address is on a list exactly if the last action that mentions it for that list adds it, or none does and it was there |
| `Convergence.LastWriterWins` | src/compliance_agent/domain/desired_state.py:336-352 | Each address of each list ends as the last writer left it |
| `Convergence.LastSettingWins` | src/compliance_agent/domain/desired_state.py:355-368 | Notice and enabled flag of each rule end as last set; nothing else of a rule changes |
| `Convergence.ExactEditsConverge` | src/compliance_agent/domain/desired_state.py:93-99 | Recomputing a plan of exact edits on its own desired state succeeds, gives the same state and no mutation |
| `Keyed.FindIsLookup` | src/compliance_agent/domain/ownership.py:87-114 | The front-to-back search of the registry is the dictionary lookup when IDs are unique |
| `Ownership.NamesAreMarked` | src/compliance_agent/domain/ownership.py:117-127 | Every name the application makes carries the managed prefix its ownership checks demand |
| `Diff.ChangeSetIsExactPatch` | src/compliance_agent/domain/diff.py:15-40 | Applying the six sets to the observed dictionaries gives the desired ones, and there is something to write exactly when they differ |
| `Diff.PartitionIsExactPatch` | src/compliance_agent/domain/diff.py:63-83 | Created, updated and removed parts are disjoint by ID and form an exact patch |
| `Diff.PartitionMembers` | src/compliance_agent/domain/diff.py:63-83 | Each part holds exactly the resources only desired, in both but different, or only observed |
| `WriteOrder.OpsFacts` | src/compliance_agent/browser/admin_agent_driver.py:309-316 | The six phases write every differing resource once, with the right verb, lists before the rules that need them and removals last |
| `WriteOrder.StageAt` | src/compliance_agent/browser/admin_agent_driver.py:317-339 | After k operations a resource is in its desired version if its operation is done, else in its observed one |
| `WriteOrder.EveryPrefixResolves` | src/compliance_agent/browser/admin_agent_driver.py:309-346 | Between two states whose rules name only present lists, no prefix of the phases leaves a rule naming an absent primary or bypass list |
| `WriteOrder.PlanWritesAreSafe` | src/compliance_agent/browser/admin_agent_driver.py:309-346 | So the half-finished write of any successful plan never leaves a dangling list name |
| `BrowserWriter.AdminPages.ApplyChange` | src/compliance_agent/browser/admin_agent_driver.py:300-346 | The nested phase loop leaves the pages as some prefix of the phases does, whatever each visit reports; it reports completion exactly if every visit did, and then the whole change set is done; else it stopped at the first visit that did not |
| `DriverRead.CompleteWriteReadsBack` | src/compliance_agent/browser/admin_agent_driver.py:139-218 | A completely written plan, read back by the driver, equals the expected state, as the attended path demands, if and only if the lists' ID order is their name order, every list is named by a rule and every rule name carries the managed prefix |
| `ReadablePlans.AttendedPlanReadsBack` | src/compliance_agent/browser/admin_agent_driver.py:139-218 | From a state as the driver reads it, with everything owned and list names of the application's own making, a completely written plan is read back as expected if and only if it removes no rule without its list |
| `ReadablePlans.NamedUnlessKept` | src/compliance_agent/domain/desired_state.py:371-398 | From a state whose lists are all named by rules, a plan leads to such a state if and only if it removes no rule without its list |
| `DriverRead.ReadIsNamed` | src/compliance_agent/browser/admin_agent_driver.py:196-202 | Whatever the pages show, a state the driver reads has only lists that its rules name |
| `DriverRead.ReadSucceedsIff` | src/compliance_agent/browser/admin_agent_driver.py:157-218 | A read goes through if and only if every expected rule opens under its name and unit and every list its editor names is an expected list that opens |
| `DriverRead.ReadIsShown` | src/compliance_agent/browser/admin_agent_driver.py:157-218 | A read holds, rule by rule, what the editors show, exactly the lists the rules name with the entries shown, and as unmanaged exactly the names in the index that are not those of expected managed rules |
| `DriverRead.VerifiedIsShown` | src/compliance_agent/application/attended_policy_service.py:387-388 | So what is read back as expected is really there: every editor and every list shows the expected state |
| `DriverRead.MadeNamesAreOrdered` | src/compliance_agent/browser/admin_agent_driver.py:215-217 | For names made from IDs whose first eight digits differ, ID order is name order |
| `DriverRead.PlanPagesAreComplete` | src/compliance_agent/browser/admin_agent_driver.py:160-217 | Every planned state can be shown completely, so the previous statement is about some pages of every plan |
| `Witnesses.KeptListFailsVerification` | src/compliance_agent/application/attended_policy_service.py:387-388 | A concrete removal that keeps its list: completely written, it is not verified, because the driver no longer reads the list |
| `Witnesses.EqualPrefixesFailVerification` | src/compliance_agent/browser/admin_agent_driver.py:215-217 | A concrete creation with two UUIDs that share their first eight digits: completely written, it reads back in another order |
| `Verification.ResourceDifferences` | src/compliance_agent/domain/verification.py:90-116 | Reports exactly one difference for each ID the sides disagree on, of the right kind, and none exactly when they hold the same resources |
| `Reconciliation.InterruptedWriteIsClassified` | src/compliance_agent/domain/reconciliation.py:20-62 | If the writer stopped after k of n operations, read-back says present exactly for k = n; else partially applied exactly if one of the k operations created or removed a resource or changed its canonical content; else not applied, with a retry if the context allows one |
| `Retry.RetryIsSafeIff` | src/compliance_agent/domain/reconciliation.py:20-88 | For whatever was read back, a retry is authorized if and only if something was read, it is not the desired state, it hashes like the state before, and the context is a first attempt of an idempotent operation on an owned resource in the confirmed unit under a valid confirmation |
| `Retry.RetryMeansUnchanged` | src/compliance_agent/domain/reconciliation.py:43-56 | So a retry is authorized, in such a context, exactly for a read-back that is not the desired state and agrees with the state before in the unit, the unmanaged names and every field of every rule and list up to NFC and order: never over foreign drift |
| `Retry.FindingIs` | src/compliance_agent/domain/reconciliation.py:20-62 | Each finding has exactly its case: present for the desired state, not applied for another one with the hash before, partially applied for one with another hash and a changed resource already in its desired version, unclear for every other read-back and for none |
| `Retry.VerdictIs` | src/compliance_agent/domain/verification.py:13-61 | Each of the five verdicts of verification has exactly its case, by which rules and lists were read |
| `Reconciliation.PlanIsInterruptible` | src/compliance_agent/domain/reconciliation.py:75-88 | The premises of that classification hold of every successful plan over IDs that NFC leaves alone |
| `Reconciliation.VisibleMeansOtherHash` | src/compliance_agent/domain/reconciliation.py:43-50 | Once an operation that shows in the canonical content is done, the hash differs from the one before and a desired resource is found, whatever follows |
| `Reconciliation.InvisibleMeansSameHash` | src/compliance_agent/domain/reconciliation.py:43-49 | If no operation done changed canonical content, the hash of the half-written state equals the one before |
| `Reconciliation.StageIsReadable` | src/compliance_agent/domain/reconciliation.py:20-25 | Every stage of a write is what some state shows, so the classification speaks of something for each k |
| `UnseenOperation.ReorderingLooksUntouched` | src/compliance_agent/domain/reconciliation.py:43-49 | A concrete plan whose write, interrupted after one of its operations, is classified as not applied and may be retried |
| `Reconciliation.MatchedMeansEqualHash` | src/compliance_agent/domain/verification.py:46-52 | A matched verification of states of one unit implies equal canonical hashes |
| `MatchedCommit.OwnershipClosure` | src/compliance_agent/application/ownership_service.py:40-187 | With everything owned, for every plan and every read-back: without a match the registry stays as it is; with a match the commit succeeds if and only if the read-back has the expected order, no surviving rule changed its bypass lists and no created list is left unused; then the stored registry is valid and owns every expected resource; and the expected state itself always matches |
| `MatchedCommit.ReorderedReadIsRefused` | src/compliance_agent/application/ownership_service.py:49-54 | A read-back that holds the expected resources in another order is matched and then refused by the commit, after every plan |
| `MatchedCommit.PlanVerifies` | src/compliance_agent/domain/verification.py:13-61 | The expected state of every successful plan passes verification, duplicate check included |
| `Succession.PlanCommits` | src/compliance_agent/application/ownership_service.py:55-130 | The change set of a plan commits if and only if bypass lists are kept and no created list is orphaned, and then everything in the expected state is owned |
| `CommitClosure.PairedIffKept` | src/compliance_agent/application/ownership_service.py:133-187 | The commit's two structural checks pass if and only if bypass lists are kept and no created list is orphaned |
| `CommitEvidence.PlanEvidence` | src/compliance_agent/application/ownership_service.py:55-130 | A successful commit of a plan records each created rule with its own list and each created bypass list by name, unit and time, forgets each rule removed with its list and each removed list, and keeps every other record as it was |
| `CommitEvidence.RecordsAreFinal` | src/compliance_agent/application/ownership_service.py:55-130 | For any registry and any change set, a commit never rewrites evidence: every earlier record is there as it was or is gone |
| `CommitEvidence.ConflictRefused` | src/compliance_agent/application/ownership_service.py:78-81 | Verified evidence whose names or unit contradict the record under the same ID is refused |
| `CommitEvidence.ListConflictRefused` | src/compliance_agent/application/ownership_service.py:93-101 | The same for a created bypass list of another name than its record |
| `SteadyPlans.SteadyPlansClose` | src/compliance_agent/application/ownership_service.py:40-130 | After a plan whose updates neither add nor drop a bypass list, and collapse none, a matched read-back commits if and only if it has the expected order, and then leaves everything owned |
| `SteadyPlans.OneOrderCommits` | src/compliance_agent/application/ownership_service.py:49-54 | After every such plan with two lists, one order of the read-back commits and another does not, though both are matched |
| `Witnesses.AddedBypassBlocksTheCommit` | src/compliance_agent/application/ownership_service.py:159-166 | A concrete update that adds a bypass list is planned but its verified evidence is refused |
| `Witnesses.ReorderedReadBlocksTheCommit` | src/compliance_agent/application/ownership_service.py:49-54 | A concrete creation whose matched read-back commits with its two lists in one order and is refused with them in the other |
| `Witnesses.ObservedIsRemembered` | src/compliance_agent/application/attended_policy_service.py:474-504 | The premises of ownership closure and of the baseline round trip are met by a concrete unit and registry |
| `BaselineRoundTrip.CommitThenSnapshot` | src/compliance_agent/application/attended_policy_service.py:474-504 | After a plan is committed, the regenerated snapshot of the unit is the after state's rules in order with exactly the lists some rule names; other units' records are unchanged, and the next run starts from the same premise |
| `BaselineRoundTrip.CommitAndSnapshot` | src/compliance_agent/application/attended_policy_service.py:694-766 | The same for any verified pair of states the registry describes |
| `BaselineRoundTrip.SnapshotOfRecorded` | src/compliance_agent/application/attended_policy_service.py:474-504 | The snapshot of the recorded dictionaries raises nothing and returns the recorded rules and referenced lists |
| `BaselineRoundTrip.OtherUnits` | src/compliance_agent/application/attended_policy_service.py:702-737 | Records of every other unit survive a commit as they were |
| `AttendedClosure.AttendedClosure` | src/compliance_agent/application/attended_policy_service.py:694-766 | After every plan of the attended path the commit of the read-back succeeds and owns every rule and list of the approved state: the condition of the separate commit is not needed here |
| `AttendedClosure.CommitIsEvidence` | src/compliance_agent/application/attended_policy_service.py:694-766 | Each rule and list of the approved state is recorded under its ID by name, unit and full snapshot, with the time it was first recorded |
| `AttendedClosure.SnapshotOutcome` | src/compliance_agent/application/attended_policy_service.py:474-504 | A regenerated baseline holds exactly the recorded rules of the unit and the recorded lists they name, each name having a list and each ID one item |
| `AttendedClosure.MissingSnapshotRefused` | src/compliance_agent/application/attended_policy_service.py:474-504 | A unit with a rule record that has no snapshot yields no baseline |
| `Compliance.CompliancePlanTouchesOnlyOwned` | src/compliance_agent/domain/compliance_desired_state.py:38-72 | Over a whole compliance plan, inherited and unowned rules are untouched and no rule changes ID, name or unit |
| `ComplianceFold.CompliancePlanRoundTrip` | src/compliance_agent/application/attended_policy_service.py:506-522 | After every compliance plan computed from a state that covers the recorded rules, the commit succeeds, the regenerated snapshot is exactly the approved rules in order, and the stored registry covers that state, so the next plan can start there |
| `ComplianceFold.ComplianceRoundTrip` | src/compliance_agent/application/attended_policy_service.py:744-766 | For any records and any expected state, the regenerated snapshot is exactly the expected rules if and only if no record survives that is neither expected nor removed |
| `Witnesses.ForgottenRecordReturns` | src/compliance_agent/application/attended_policy_service.py:744-766 | A concrete record of a rule the state does not cover, which the next snapshot brings back |
| `ComplianceFold.CommitComplianceWorks` | src/compliance_agent/application/attended_policy_service.py:738-766 | The compliance commit cannot produce a registry its validator rejects |
| `ComplianceOutcomes.ComplianceOutcome` | src/compliance_agent/domain/compliance_desired_state.py:38-138 | A compliance action succeeds if and only if its target is there, owned and not inherited, its unit is the target's and its content is accepted, or its new ID is free; it then stores exactly the action's content and flag under the target's name, unit and ID, and leaves every other rule alone |
| `ComplianceOutcomes.ComplianceCalculates` | src/compliance_agent/domain/compliance_desired_state.py:27-92 | A compliance plan succeeds if and only if its actions do and leave no display name ambiguous, and its state is then what they left, in ID order |
| `ComplianceOutcomes.ComplianceStored` | src/compliance_agent/application/attended_policy_service.py:738-766 | Each approved compliance rule is recorded under its ID by name, unit and full snapshot, with the time it was first recorded |
| `ComplianceOutcomes.ComplianceClosure` | src/compliance_agent/application/attended_policy_service.py:738-766 | After every compliance plan on managed rules the committed registry owns every approved rule |
| `Impact.AffectedEntriesAreConserved` | src/compliance_agent/application/impact_service.py:42-54 | The affected-entry count equals the entries of created lists plus those of removed lists plus all entries the deltas add and remove |
| `Impact.ChangeIsTold` | src/compliance_agent/application/change_presentation.py:15-39 | There is a delta for exactly the lists that are there before and after and differ; it shows as added exactly the entries whose address is only in the new version and as removed exactly those only in the old one, each in its order and as often, and patching the old addresses with it gives the new ones |
| `Impact.DeltasTell` | src/compliance_agent/application/change_presentation.py:15-39 | The same for the deltas of any change set |
| `Canonical.CanonDecidesSame` | src/compliance_agent/domain/hashing.py:27-43 | Two JSON trees have one canonical form exactly when they are equal up to NFC of string values, key order and recursive reordering of every sequence except one directly under "actions" |
| `Canonical.HashDecidesSame` | src/compliance_agent/domain/hashing.py:14-24 | Canonical hashes are equal exactly for trees the same in that sense |
| `Canonical.CanonTwice` | src/compliance_agent/domain/hashing.py:27-43 | Canonicalizing is idempotent |
| `Json.PrintInjective` | src/compliance_agent/domain/hashing.py:14-18 | Different trees print differently, compact or spaced, so text comparison and hashing lose nothing |
| `StateTrees.ReorderedStatesAgree` | src/compliance_agent/domain/hashing.py:37-41 | States that differ only in the order of rules, lists and unmanaged names hash alike |
| `StateTrees.EqualHashResources` | src/compliance_agent/domain/hashing.py:21-24 | States with one canonical form have the same resources by ID, each canonically equal |
| `StateHashes.StateHashDecides` | src/compliance_agent/domain/hashing.py:14-43 | Two states with unique IDs hash alike if and only if they agree, up to NFC, in unit and bag of unmanaged names and, ID by ID, in name, unit, bags of list and bypass names, notice, enabled and inherited flag of every rule, and name and bag of entries (kind, value, comparison value) of every list |
| `AuditChain.AcceptsIffChained` | src/compliance_agent/audit/writer.py:104-137 | The verifier reports nothing exactly for a non-empty, readable stream numbered from one with one run ID, correct links and correct hashes |
| `AuditChain.LastHashDeterminesChain` | src/compliance_agent/audit/writer.py:99-137 | A well-formed stream is determined by its last hash |
| `AuditChain.TamperEvident` | src/compliance_agent/audit/writer.py:104-137 | Two accepted files with the same final hash record the same events |
| `AuditChain.DigestBinds` | src/compliance_agent/audit/writer.py:99-101 | The digest binds every field of an event but the stored hash |
| `AuditErrors.ErrorsAreExact` | src/compliance_agent/audit/writer.py:104-137 | The verifier reports an error exactly if a line has it: it cannot be read, its run ID is not that of the first event, its number does not follow, its link is not the hash of the event read before, or its hash is not its own |
| `AuditFile.WrittenFileVerifiesIff` | src/compliance_agent/audit/writer.py:45-48 | What the writer stored verifies if and only if no event text contains U+0085, U+2028 or U+2029 |
| `Witnesses.LineSeparatorRejectsTheStream` | src/compliance_agent/audit/writer.py:111-113 | A concrete stored event with a line separator in its outcome is rejected |
| `AuditWriter.RunAuditWriter.Append` | src/compliance_agent/audit/writer.py:26-55 | Appends exactly the next event of the run, every field kept, sealed and linked to the last one; refuses any other for the reason it names; changes nothing on refusal or disk failure; the stored stream stays chained |
| `AuditWriter.DigestIsHashBlind` | src/compliance_agent/audit/writer.py:99-101 | The digest does not see the stored hash, so sealing and checking agree |
| `ScannerRoundTrip.PrintedObjectIsFound` | src/compliance_agent/llm/structured.py:223-265 | A printed JSON object between brace-free texts is returned exactly, unless the answer looks like a code fence whose first line break follows the object; then it is lost |
| `Witnesses.FencedOnOneLineIsLost` | src/compliance_agent/llm/structured.py:227-234 | A concrete one-line fence on which the object is lost |
| `Scanner.ExtractJsonBlock` | src/compliance_agent/llm/structured.py:235-265 | The scanning loop equals its specification, and its branch for a negative depth is dead |
| `Scanner.ExtractedIsBalanced` | src/compliance_agent/llm/structured.py:223-265 | What is returned is a balanced object occurring in the answer |
| `Scanner.ExtractTwice` | src/compliance_agent/llm/structured.py:223-265 | Extraction is idempotent |
| `Scanner.EndIsBalanced` | src/compliance_agent/llm/structured.py:239-258 | The scan stops at the first place that closes the object, outside strings |
| `Scanner.PrintedIsBalanced` | src/compliance_agent/llm/structured.py:239-258 | Every printed object is balanced for the scanner, whatever its strings contain |
| `ConsoleSafety.EveryReachableStateIsSafe` | src/compliance_agent/console/coordinator.py:95-452 | Under every interleaving of calls, cancels, expiries, mode changes, abandoned tasks and restarts: at most one run holds the browser, histories are legal walks, pending approvals are bound to their run's preview, each call is attached to the visit it began, and each execution was approved in time and once per process |
| `ConsoleSafety.NextSafe` | src/compliance_agent/console/coordinator.py:140-401 | Every single event keeps all of these invariants |
| `ConsoleSafety.BeginPreviewSafe` | src/compliance_agent/console/coordinator.py:237-254 | Beginning a preview, admitted, refused or blocked, keeps the invariants, in particular that one run holds the browser |
| `ConsoleSafety.EndPreviewSafe` | src/compliance_agent/console/coordinator.py:261-292 | Resuming a preview keeps the invariants, also after a cancel |
| `ConsoleSafety.BeginApproveSafe` | src/compliance_agent/console/coordinator.py:317-342 | Consuming an approval keeps the invariants, in particular one execution per run and process |
| `ConsoleSafety.CancelSafe` | src/compliance_agent/console/coordinator.py:309-315 | A cancel keeps the invariants, also under suspended calls |
| `ConsoleSafety.CheckApprovalSafe` | src/compliance_agent/console/coordinator.py:294-307 | Asking for a pending approval keeps the invariants, also when it has expired and its run goes back |
| `ConsoleSafety.RestartSafe` | src/compliance_agent/console/journal.py:55-118 | A restart from any journal the console wrote re-establishes every invariant |
| `ConsoleSafety.ApprovedStart` | src/compliance_agent/console/coordinator.py:331-342 | What an approval starts is live, planned, strictly before expiry and carries the hashes of the preview shown |
| `ConsoleSafety.EnvelopeFits` | src/compliance_agent/application/approval_service.py:29-47 | An issued approval carries its run's ID, phrase and preview hashes, and a preview with complete evidence is always issued one |
| `ConsoleGuarantees.PlansAreFixed` | src/compliance_agent/console/coordinator.py:158-183 | While a process lives it loses no run, histories only grow and no event changes the plan of a run that left PLANNING |
| `ConsolePlans.PlansSurviveRestarts` | src/compliance_agent/console/journal.py:55-136 | Once a run has a plan, every later state, after any events, lost journal writes and restarts, shows that plan for the run, or no plan, or no run |
| `ConsoleGuarantees.PreviewLandsOnItsVisit` | src/compliance_agent/console/coordinator.py:274-292 | A preview result is recorded only directly after the PREFLIGHT entry its own call appended, and there as the status and mode say; otherwise no run changes |
| `ConsoleGuarantees.ExecutionLandsOnItsRun` | src/compliance_agent/console/coordinator.py:356-373 | An execution result is recorded on exactly the run handed to the runner, unchanged since, and ends it interrupted, blocked or completed as the runner's answer says |
| `ConsoleOutcomes.ExecutionOutcome` | src/compliance_agent/console/coordinator.py:343-373 | An executing run ends interrupted if and only if the runner raised or its status is partially applied or indeterminate, blocked if and only if it is confirmation rejected, failed unchanged or unsupported, and completed otherwise; the result and its source are kept, and every ending but a completed one carries an error, the status's own if the runner gave none |
| `ConsoleOutcomes.PreviewOutcome` | src/compliance_agent/console/coordinator.py:261-292 | A preview leaves its run waiting for approval if and only if it is live and ready, blocked if and only if it was blocked, and else shown, also when there is nothing to change; the approval issued is bound to the hashes shown and lasts the service's lifetime from its own reading of the clock |
| `ConsoleOutcomes.BeginPreviewOutcome` | src/compliance_agent/console/coordinator.py:237-259 | A preview begins exactly for a planned run of a browser mode while no other run is in one of the four browser phases; it clears what an earlier preview left |
| `ConsoleOutcomes.CheckApprovalOutcome` | src/compliance_agent/console/coordinator.py:294-307 | A waiting run whose approval is missing or expired goes back to its plan without preview and result and says so; any other keeps its approval |
| `ConsoleOutcomes.BeginApproveOutcome` | src/compliance_agent/console/coordinator.py:317-342 | A missing or expired approval is dropped, a mistyped one stays, and the right phrase in time uses it up and starts the execution with the hashes it carries, or blocks the run when there is no runner |
| `ConsoleOutcomes.CancelOutcome` | src/compliance_agent/console/coordinator.py:309-315 | Exactly the four phases before execution can be cancelled, and the approval goes with the run |
| `ConsoleOutcomes.PlanOutcome` | src/compliance_agent/console/coordinator.py:158-183 | The planner's answer lands on a run that is still planning and on no other |
| `ConsoleOutcomes.StartOutcome` | src/compliance_agent/console/coordinator.py:140-156 | A request of 1 to 2000 characters after stripping starts a run with nothing but its text, mode and first history entry |
| `ConsoleOutcomes.CreateFromPlanOutcome` | src/compliance_agent/console/coordinator.py:200-216 | The same for a run that starts with its plan |
| `ConsoleOutcomes.PromoteOutcome` | src/compliance_agent/console/coordinator.py:218-235 | Exactly a planned run takes another mode, never plan-only, and only its mode and time change |
| `ConsoleOutcomes.ConfigureOutcome` | src/compliance_agent/console/coordinator.py:116-135 | The execution services are replaced exactly while no run is in one of the four browser phases, and no run or approval is touched |
| `ConsoleOutcomes.RestoreOutcome` | src/compliance_agent/console/journal.py:98-136 | A restart blocks a run that was planning or being previewed, sends a waiting one back to its plan without its preview, interrupts one that was executing, and leaves every other as it was |
| `ConsoleOutcomes.PhraseIs` | src/compliance_agent/application/approval_service.py:29-47 | The phrase to type is the word APPLY and the first four digits of the run ID in capitals |
| `ConsoleOutcomes.WalkOrder` | src/compliance_agent/console/coordinator.py:27-50 | In every history execution directly follows an approval, an approval a preview and a preview a plan, completion directly follows execution, and nothing follows a final phase |
| `ConsoleDurability.ExecutedAtMostOnce` | src/compliance_agent/console/journal.py:84-118 | If every journal write that records the start of an execution takes effect, no run is executed twice in its life, across restarts, and an executed run is never executable again |
| `ConsoleReplay.RecordedStartDecides` | src/compliance_agent/console/coordinator.py:423-432 | When an execution starts and the disk would revive its run, that one write takes effect if and only if the run can never be executed again |
| `ConsoleReplay.PlannedRunCanExecute` | src/compliance_agent/console/coordinator.py:218-373 | From an idle console a planned run can be promoted, previewed, approved and executed |
| `ConsoleLoss.LostStartExecutesTwice` | src/compliance_agent/console/coordinator.py:423-432 | A concrete run of the console in which one lost journal write leads to two executions of one run |
| `ConsoleRestart.RestartAfterSave` | src/compliance_agent/console/journal.py:55-118 | After a successful save a new process finds every non-terminal run as the restore rule leaves it and nothing that was not there |
| `ConsoleRestart.SaveKeeps` | src/compliance_agent/console/journal.py:84-95 | A save leaves out only terminal runs no newer than the hundred terminal runs it keeps, and keeps snapshots of other versions |
| `ConsoleJournal.RestoreSettles` | src/compliance_agent/console/journal.py:98-136 | Restoring is idempotent, leaves no run holding the browser, and a run caught executing ends in a phase nothing leaves |
| `ConsoleJournal.RestoreConsistent` | src/compliance_agent/console/journal.py:98-136 | A restored run keeps a legal history and fields that fit its phase |
| `AttendedSafety.EveryReachableDeskIsGuarded` | src/compliance_agent/application/attended_policy_service.py:298-421 | Over all concurrent executions: each previewed run is written at most once, only after a fresh read with the approved hash, the phrase, in time and under a permit for a rule of the unit; evidence is committed at most once, only when the expected state was read back; and each commit builds on the stored registry, so none is lost |
| `AttendedSafety.NextGuarded` | src/compliance_agent/application/attended_policy_service.py:298-421 | Every single event keeps these invariants |
| `AttendedSafety.WriteGuarded` | src/compliance_agent/application/attended_policy_service.py:338-380 | Starting the write of a call whose fresh read matched keeps the invariants, in particular one sound write per run |
| `AttendedSafety.CommitGuarded` | src/compliance_agent/application/attended_policy_service.py:387-392 | Committing a verified call keeps the invariants, in particular that the commit builds on the stored registry |
| `AttendedSafety.BeginGuarded` | src/compliance_agent/application/attended_policy_service.py:307-337 | An attempt, admitted or refused, keeps the invariants; an admitted one loads the registry and takes the run lock in one step |
| `AttendedSafety.NothingToDoIsUnreachable` | src/compliance_agent/application/attended_policy_service.py:349-359 | The branch that reports no change cannot be reached |
| `AttendedOutcomes.ApprovedRunGoesThrough` | src/compliance_agent/application/attended_policy_service.py:298-421 | A live preview that is approved in time by its phrase, read unchanged, permitted and applied goes through all five steps: the approval is used up, one write is recorded, the lock is free again, and evidence is stored exactly if the approved state was read back |
| `AttendedOutcomes.BeginOutcome` | src/compliance_agent/application/attended_policy_service.py:307-337 | An attempt begins a call, with the registry read and the lock taken, exactly for an approval that is pending, in time and offered its phrase, while the registry can be read and nobody has the lock |
| `AttendedOutcomes.FreshReadOutcome` | src/compliance_agent/application/attended_policy_service.py:338-372 | A write starts exactly after a fresh read with the approved hash, for a change that is permitted; a read with another hash is drift and nothing is written |
| `AttendedOutcomes.CloseOutcome` | src/compliance_agent/application/attended_policy_service.py:372-421 | Evidence is stored exactly when the driver finished, the approved state was read back, the browser closed and the registry was saved; the lock is free in any case |
| `AttendedOutcomes.PreviewIsGoodFor` | src/compliance_agent/application/attended_policy_service.py:550-559 | A live preview can be approved by its phrase from its start until exactly the lifetime has passed; a dry run never |
| `AttendedOutcomes.AttemptKeeps` | src/compliance_agent/application/attended_policy_service.py:307-327 | An attempt drops a missing or expired approval and one it uses, and keeps one it mistyped |
| `AttendedOutcomes.PermittedIs` | src/compliance_agent/application/attended_policy_service.py:667-691 | A permit is for one rule, the one every action that names a rule names, or else the one the plan creates; the rule is there before or after, and always in the approved unit |
| `AttendedService.CommittedRunIsRemembered` | src/compliance_agent/application/attended_policy_service.py:387-392 | A committed execution leaves a registry that regenerates exactly the approved rules, other units untouched |
| `PlanFold.PlanFold.ApplyAll` | src/compliance_agent/domain/desired_state.py:51-109 | Refinement: the action loop over the two dictionaries, changed in place, does what the specification of a plan says |
| `PlanFold.PlanFold.Apply` | src/compliance_agent/domain/desired_state.py:51-109 | Refinement: one dispatched action leaves exactly the dictionaries and unused IDs the specification says, or reports its error |
| `PlanFold.PlanFold.UpdateRule` | src/compliance_agent/domain/desired_state.py:126-176 | Refinement: the update helper, statement by statement, equals the specified replacement of entries and bypass lists |
| `PlanFold.PlanFold.RemoveRule` | src/compliance_agent/domain/desired_state.py:371-398 | Refinement: the removal helper equals the specified deletion of the rule, its list and its bypass lists |
| `PlanFold.PlanFold.CreateRule` | src/compliance_agent/domain/desired_state.py:285-333 | Refinement: the creation helper draws its IDs in order and stores the rule with its list and optional bypass list, or reports the error |
| `PlanFold.PlanFold.AddEntries` | src/compliance_agent/domain/desired_state.py:196-258 | Refinement: the addition helper creates a rule or merges the entries the target list lacks |
| `PlanFold.PlanFold.ResolveAddTarget` | src/compliance_agent/domain/desired_state.py:261-282 | Refinement: the target search returns the single owned, linked rule with the notice, none, or fails |
| `PlanFold.PlanFold.OwnedBypassLists` | src/compliance_agent/domain/desired_state.py:179-193 | Refinement: the bypass search returns the owned list behind each name in the rule's order, or the first failure |
| `PlanFold.PlanFold.RemoveEntries` | src/compliance_agent/domain/desired_state.py:336-352 | Refinement: removes from the target's list exactly the entries with the given addresses |
| `PlanFold.PlanFold.SetNotice` | src/compliance_agent/domain/desired_state.py:355-368 | Refinement: sets the notice and counts the list's entries only when the notice changes |
| `PlanFold.PlanFold.SetEnabled` | src/compliance_agent/domain/desired_state.py:93-99 | Refinement: sets the flag of an owned rule that is not inherited |
| `PlanFold.PlanFold.RequireRuleList` | src/compliance_agent/domain/desired_state.py:412-428 | Refinement: returns the one list a rule names, stored under the rule's own ID and owned, or the failure |
| `BrowserWriter.AdminPages.RunGoal` | src/compliance_agent/browser/admin_agent_driver.py:317-333 | Refinement: one visit performs one operation or nothing |
| `DriverRead.ReadBlockedSenders` | src/compliance_agent/browser/admin_agent_driver.py:157-218 | Refinement: the loops read every expected setting and each list it names once, and stop on a setting of another name or unit and on an unexpected list |
| `OwnershipCommit.CommittedRecords` | src/compliance_agent/application/ownership_service.py:55-110 | Refinement: the loops fail exactly on an unpaired creation, an unpaired removal or conflicting evidence, and else compute the committed dictionaries |
| `OwnershipCommit.CreatedPairs` | src/compliance_agent/application/ownership_service.py:139-158 | Refinement: every created rule needs a created list of its own ID that is exactly the one it names |
| `OwnershipCommit.CreatedBypasses` | src/compliance_agent/application/ownership_service.py:159-167 | Refinement: every other created list needs a created rule that names it as bypass, and takes its unit |
| `OwnershipCommit.ReferencedUnits` | src/compliance_agent/application/ownership_service.py:148-158 | Refinement: maps each referenced bypass name to the unit of the last created rule naming it |
| `OwnershipCommit.PreviewRecords` | src/compliance_agent/application/attended_policy_service.py:694-737 | Refinement: the loops of the attended commit drop removed records and record every expected rule and list with its snapshot, keeping creation times |
| `ComplianceFold.ComplianceFold.ApplyAll` | src/compliance_agent/domain/compliance_desired_state.py:36-74 | Refinement: the in-place action loop equals the specified fold, errors included |
| `ComplianceFold.ComplianceFold.Apply` | src/compliance_agent/domain/compliance_desired_state.py:38-74 | Refinement: each action creates, replaces, deletes or switches exactly as specified, or reports its error |
| `Impact.AddressListDeltas` | src/compliance_agent/application/change_presentation.py:15-39 | Refinement: the loop gives for each updated list exactly the entries only in its new and only in its old version, as its contract spells out |
| `AuditWriter.VerifyEventChain` | src/compliance_agent/audit/writer.py:104-137 | Refinement: the loop over lines reports exactly the specified errors in order |
| `AuditWriter.CheckEvent` | src/compliance_agent/audit/writer.py:123-134 | Refinement: the checks of one line report run ID, number, link and hash mismatches in that order |
| `ConsoleJournal.ConsoleRunJournal.Load` | src/compliance_agent/console/journal.py:55-82 | Refinement: the load loop keeps other versions, skips invalid snapshots, restores the rest, and disables writing when the file cannot be read |
| `ConsoleJournal.ConsoleRunJournal.Save` | src/compliance_agent/console/journal.py:84-95 | Refinement: writes nothing when writing is disabled; else other versions, active runs and the newest hundred terminal runs |
| `Coordinator.ConsoleCoordinator.Move` | src/compliance_agent/console/coordinator.py:375-401 | Refinement: the transition helper refuses a changed run or a forbidden transition and else stores the moved run and saves |
| `Coordinator.ConsoleCoordinator.PlanAfterAwait` | src/compliance_agent/console/coordinator.py:167-183 | Refinement: the planner's answer moves the run only if it still is PLANNING; both guards of the helper pass |
| `Coordinator.ConsoleCoordinator.PromotePlan` | src/compliance_agent/console/coordinator.py:218-235 | Refinement: only a completed plan changes mode, never to plan-only |
| `Coordinator.ConsoleCoordinator.SlotHolder` | src/compliance_agent/console/coordinator.py:441-452 | Refinement: finds whether any other run holds the browser |
| `Coordinator.ConsoleCoordinator.PreviewUntilAwait` | src/compliance_agent/console/coordinator.py:237-254 | Refinement: refuses, blocks or enters PREFLIGHT as specified; both guards of the helper pass |
| `Coordinator.ConsoleCoordinator.PreviewAfterAwait` | src/compliance_agent/console/coordinator.py:261-292 | Refinement: re-checks the phase, records the outcome and issues an approval only for a live ready preview |
| `Coordinator.ConsoleCoordinator.PendingApproval` | src/compliance_agent/console/coordinator.py:294-307 | Refinement: returns the unexpired approval of an awaiting run or sends the run back to PLAN_READY |
| `Coordinator.ConsoleCoordinator.CancelRun` | src/compliance_agent/console/coordinator.py:309-315 | Refinement: cancels exactly the runs whose phase allows it and drops their approval |
| `Coordinator.ConsoleCoordinator.ApproveUntilAwait` | src/compliance_agent/console/coordinator.py:327-342 | Refinement: consumes the approval, then blocks without a runner or enters EXECUTING |
| `Coordinator.ConsoleCoordinator.ApproveAfterAwait` | src/compliance_agent/console/coordinator.py:343-373 | Refinement: maps a result or an exception to the ending phase, message and source |
| `Coordinator.ConsoleCoordinator.ConfigureExecution` | src/compliance_agent/console/coordinator.py:116-135 | Refinement: replaces the services only when no run holds the browser |
| `Coordinator.ConsoleCoordinator.StartRun` | src/compliance_agent/console/coordinator.py:140-156 | Refinement: stores a run in PLANNING for a request of 1 to 2000 characters after stripping |
| `Coordinator.ConsoleCoordinator.PlanUntilAwait` | src/compliance_agent/console/coordinator.py:158-164 | Refinement: planning begins only for a run in PLANNING |
| `Coordinator.ConsoleCoordinator.StartFromPlan` | src/compliance_agent/console/coordinator.py:200-216 | Refinement: stores a run that is ready to preview, without the planner |
| `Approvals.ApprovalService.Approve` | src/compliance_agent/application/approval_service.py:49-75 | Refinement: consumes an approval that is pending, unexpired and offered with the phrase; a missing or expired one is dropped and refused, a mistyped one stays |
| `Approvals.ApprovalService.Issue` | src/compliance_agent/application/approval_service.py:29-47 | Refinement: stores one approval per run, only for a complete ready preview |
| `Approvals.ApprovalService.Get` | src/compliance_agent/application/approval_service.py:77-84 | Refinement: returns an unexpired approval without consuming it and drops an expired one |
| `Approvals.ApprovalService.Cancel` | src/compliance_agent/application/approval_service.py:86-89 | Refinement: drops the approval of exactly this run |
| `AttendedService.AttendedPolicyService.ExecuteUntilAwait` | src/compliance_agent/application/attended_policy_service.py:307-327 | Refinement: refuses a missing, an expired or a mistyped approval; the first two are gone, the mistyped one stays, an admitted one is consumed |
| `AttendedService.AttendedPolicyService.Offer` | src/compliance_agent/application/attended_policy_service.py:287-296 | Refinement: only a live preview that changes something waits for approval |

## Left out

- PlanFold.PlanFold.AddEntries: does not say which error an untargeted addition reports when several rules with the notice are unowned or unlinked, because that depends on dictionary order; that it fails is stated.
- PlanFold.PlanFold.ResolveAddTarget: the same.
- PlanFold.PlanFold.ApplyAll: the same, for plans with such an action.
- PlanFold.PlanFold.Apply: the same, for such an action.
- BrowserWriter.AdminPages.RunGoal: the navigation loop of a visit is one operation that was saved or was not.
- ConsoleGuarantees.PlansAreFixed: is about one process, whose runs are never lost; `ConsolePlans.PlansSurviveRestarts` is the statement across restarts.
- DriverRead.ReadBlockedSenders: the vision extractor and the navigation to a page; a page is given as what it shows, entries in the order of the state.
- OwnershipCommit.CommittedRecords: sorting the dictionaries and saving the store are stated by the functions in `Lifecycle`, not done in the method; one clock reading stands for all records of a commit.
- OwnershipCommit.PreviewRecords: sorting and saving are stated by `Baseline.CommitPreview`.
- Verification.ResourceDifferences: the order of differences and their printed values; the set of differences is exact.
- Witnesses.LineSeparatorRejectsTheStream: the parser is a parameter that reads back what was printed and accepts only whole objects.
- Coordinator.ConsoleCoordinator.StartRun: the notification of waiting listeners and background scheduling of planning.
- ConsoleJournal.ConsoleRunJournal.Load: of the run model's validation only the order of its two timestamps, the one condition an updated copy can break; a console without a journal behaves as one whose journal cannot be read.
- Attended execution of the content-compliance surface: the same protocol; its fold and commit are modelled, the protocol is stated for blocked senders.
- The audit records of an attended run and the statuses it reports, including recovery after a failed final audit; none of them gates a write or a commit.
- The partition and change set of compliance rules: the generic partition is modelled, its compliance instance is not spelled out.
- The impact level and flags of an assessment, and how the attended path derives surface and unit from a plan: lookups that would add easy members only.
- Length limits and formats of display names, organizational-unit paths and notices.
- Text of error messages; errors are classes.
- The purpose field of address-list records and the registry's schema version.
- JSON numbers are their text; NaN and infinities do not occur in the hashed models.
- Partial disk writes, file permissions, process locks as files, log export and retention.
- Playwright, the vision extractor, the navigation model, IDNA, RE2 and redaction.
- HTTP routes, Reflex state, templates, command line, sessions and CSRF.
- Prompts, persona sampling, group chat and composer retries.
- Propagation records, readiness, timeline, notices and dotenv editing: they would add easy members only.
- Ownership recovery and the compliance ownership service.
