# The control plane, verified

This project models the control plane of the agent platform in Dafny and proves what it is
for: authority only flows downhill and can be taken back completely, an agent runs one thing
at a time, a held step waits for a human, a termination leaves nothing running and signs only
what is true, and the mechanisms underneath (store, locks, key initialisation, egress proxy,
pacing, canonical text, address parsing) do exactly what the rest relies on.

`dafny verify dfyconfig.toml` checks everything.

## How it is organised

| files | what they model |
|---|---|
| `Types`, `Authority`, `RunPolicies`, `GrantGraph`, `Identity`, `LedgerRuns` | grants: attenuation, the chain walk, the cascades, and every ledger reachable by issuing, revoking, terminating, starting and deleting |
| `Lifecycle`, `AgentView`, `AgentService` | one agent's life as interleaved steps over store and in-memory sets; the service's tables and sets for all agents, each update seen through one agent as a step of that life |
| `ApprovalRuns`, `ApprovalProofs`, `ApprovalHistory`, `OneRun`, `RunCauses`, `TerminationOrder`, `TerminationRuns`, `LifecycleWitnesses` | what holds over all runs of that life, exactly when the rest of it does, and concrete runs in which it fails |
| `EgressProxy`, `EgressProxyProofs`, `EgressAuthorizer` | connection tracking, generations and drains; holds, strikes and quarantine |
| `Canonical`, `CanonicalReader`, `Receipts`, `ReceiptProofs` | the canonical serialiser, an independent reader for it, the receipt producer and both verifiers |
| `Addresses`, `AddressSpellings` | the IPv4 and IPv6 text parsers and the private-address verdict (spellings as in section 2.2 of RFC 4291) |
| `Store`, `RunnerLock`, `ReceiptKeys`, `Pacing` | the serialised store, the per-agent promise-chain lock, key initialisation from many processes, the send-slot allocator |

Objects whose methods update fields are classes here, with each method proved against a
function of the old state; loops of the source are loops with invariants. Protocols that
interleave across awaits are state machines: one event is a stretch of code between two
awaits, and theorems range over all sequences of events.

## Assumptions

- Identifiers are opaque and freshly generated ones are new; instants are integers (the ISO
  strings of the source compare in the same order).
- A store call is three events: its callback reads the rows and the in-memory sets, its write
  commits (or fails), its caller resumes. One call is under way at a time, which is what
  `Store` proves of the real queue; between two callbacks any in-memory event may come.
  The order in which waiting callers get their turn is left open, which allows more runs than
  the first-in first-out queue does.
- Nothing is assumed of the events: every call may fail, every write may be lost, and the
  server may go away at any time. Where a property then fails, its theorem states the exact
  condition.
- The runner's `run` settles only after the step callbacks it is waiting for have settled.
  Pausing, resuming, cancelling, draining and probing may each succeed or fail at any time.
- Signing is an abstract function; verification accepts what the matching key signed.
- The platform's own address classifier (`isIP`) is a parameter of the verdict.

## Findings

- `startAgent` writes its status change before its last check. A start refused by that check
  has nevertheless cleared the authority block, always (`SettledStartHasUnblocked`), and such
  a start exists (`RefusedStartLiftsTheBlock`). From the commit of a termination's revoke step
  until it hears that its receipt is on disk, no start commits and the block stays, even if
  the drain or the receipt fails (`BarredDuringTermination`); only a restart ends this.
- The guard that keeps start behind the receipt lives in memory, so a restart between the
  revoke step and the receipt lets a start lift the block and succeed without any evidence
  (`RestartForgetsTheTermination`); nothing but a restart does (`StartWaitsForReceipt`).
- Stops, quarantines and kills set the status without looking for an active run. There is one
  run at a time, with a status that says so, exactly as long as none of them commits over an
  active run (`OneRunExactly`). For that to happen, one of three things must have come first
  (`OnlyThreeCauses`): a run whose start could not be written, or whose failed end could not,
  stays on record and a stop leaves it behind (`LostStartLeavesARun`, `LostEndLeavesARun`), or
  a quarantine beside another holder of the token stops the agent under a new run
  (`UnownedQuarantineStopsARun`; it need not, `QuarantineCanBeHarmless`).
- `verifyContainment` does not ask whether a run is on record as active, so a receipt can claim
  containment over one (`ContainedReceiptOverAnActiveRun`), even of an agent that is no longer
  stopped (`ContainedReceiptOfAWaitingAgent`). That question is all it lacks
  (`ContainedExactly`), and it matters only after a stop over an active run
  (`ContainedReceiptIsTrue`).
- A process that looks at the key paths between the two renames of another, and asks about
  the lock only after it is gone, refuses a complete pair as incomplete
  (`UnlockedRefusalCanBeFalse`). That happens exactly when somebody completes the pair after
  its first look (`UnlockedRefusalIsFalseExactlyWhenOvertaken`), hence never while the lock
  stays free (`RefusalOverAFreeLockIsTrue`).
- `canonicalize` prints an undefined array element as nothing, so `[undefined]` and the empty
  array have one text (`UndefinedItemsCollide`). This is the only collapse: over all values
  whose keys differ it is injective up to key order, undefined fields and that one reading
  (`CanonicalTextIsMeaning`).
- Resetting strikes also forgets requests that are still held, so after resets more than
  three requests can be in flight: up to three more for each (`HeldIsBounded`), and as many as
  that (`BoundIsReached`). The record is exact exactly while every reset finds nothing on hold
  (`RecordIsExactIffResetsAreQuiet`).
- An IPv6 text with a zone, which the platform accepts, is not parsed, and a text that is not
  parsed counts as not private (`VerdictNeedsASpelling`, `ScopedIsNeverPrivate`).

## Model

| member | source | states |
|---|---|---|
| `Authority.CoversTransitive` | apps/server/src/authority.ts:58-68 | Target cover (equality, the full wildcard, a domain pattern by character suffix) is transitive, so delegation composes. |
| `Authority.CoversAntisymmetric` | apps/server/src/authority.ts:58-68 | Two targets that cover each other are the same text. |
| `Authority.NarrowerIsPartialOrder` | apps/server/src/authority.ts:53-85 | "Narrower than" over scope, target and lifetime is reflexive, transitive and antisymmetric. |
| `Authority.NarrowerIsInclusion` | apps/server/src/authority.ts:70-85 | A shape is accepted as narrower exactly when every access it permits (scope, target, instant) is also permitted by the other. |
| `Authority.FirstCovering` | apps/server/src/authority.ts:93-144 | The search for a covering grant answers none exactly when no held grant covers the request. |
| `Authority.AuthorizeGrantRequest` | apps/server/src/authority.ts:93-144 | A request is allowed exactly for a human, or for an agent that does not grant to itself and holds a covering grant; only an agent grant gets a parent, and that parent covers it. |
| `RunPolicies.FindGrant` | apps/server/src/run-policies.ts:254-255 | Lookup by id finds a listed grant, and fails exactly when the id is not listed. |
| `RunPolicies.Matching` | apps/server/src/run-policies.ts:269-276 | The filter keeps exactly the grants of that principal, scope and target. |
| `RunPolicies.FirstLive` | apps/server/src/run-policies.ts:277-278 | A live candidate is found exactly when one exists. |
| `RunPolicies.LiveVerdictHasChain` | apps/server/src/run-policies.ts:241-267 | On any list, a live verdict comes with a finite chain of live linked grants, no two under one id, up to a parentless one, none of them narrower than the grant asked about. |
| `RunPolicies.LiveExactlyWhenChained` | apps/server/src/run-policies.ts:241-267 | For every grant and every list, cyclic, dangling and repeating ones included, the recursive walk terminates and says live exactly when such a chain exists. |
| `RunPolicies.FirstListedIsLiveWhenChained` | apps/server/src/run-policies.ts:241-267 | For the first grant listed under its id the chain need not be checked for repeated ids. |
| `GrantGraph.ClosedSetIsReachability` | apps/server/src/identity.ts:190-204 | When a pass of the cascade loop adds nothing, the set it grew is exactly the reflexive-transitive descendants of the root. |
| `GrantGraph.NewlyStamped` | apps/server/src/identity.ts:206-213 | A stamping pass reports exactly the unrevoked grants of the set, each with its new stamp. |
| `GrantGraph.CascadesAgree` | apps/server/src/identity.ts:190-216 | Where revoked grants have only revoked children, the walk over unrevoked grants and the walk over all grants reach the same unrevoked grants. |
| `GrantGraph.CascadesDisagreeUnclosed` | apps/server/src/identity.ts:274-300 | Without that closure the two loops differ, on a concrete list of three grants. |
| `Identity.HeldBy` | apps/server/src/identity.ts:94-104 | The grants an agent delegates from are exactly its chain-live ones. |
| `Identity.GrantDatabase.CreateGrant` | apps/server/src/identity.ts:52-131 | One push of the grant the request earns, or a refusal that leaves the list as it was. |
| `Identity.GrantDatabase.Reach` | apps/server/src/identity.ts:190-204 | The fixpoint loop terminates with exactly the descendants of the root. |
| `Identity.GrantDatabase.StampPass` | apps/server/src/identity.ts:206-213 | The stamping loop stamps each unrevoked grant of the set once, touches nothing else, and lists what it stamped in order. |
| `Identity.GrantDatabase.RevokeGrant` | apps/server/src/identity.ts:180-216 | Unknown ids change nothing; otherwise exactly the root and its unrevoked descendants are stamped, with the actor, and the others are reported as cascaded. |
| `Identity.GrantDatabase.CascadeGrantRevocation` | apps/server/src/identity.ts:274-300 | Stamps and returns exactly the unrevoked reflexive-transitive descendants, once each, without an actor. |
| `Identity.GrantDatabase.RevokeBelow` | apps/server/src/terminator.ts:108-117 | Cascading from one root after another stamps exactly the descendants of all roots and collects every stamped id once. |
| `Identity.GrantDatabase.RevokeAndBlock` | apps/server/src/terminator.ts:103-131 | The revoke commit blocks the account, stamps everything below the unrevoked grants of the principal and quarantines its memories, or changes nothing when the agent is gone. |
| `Identity.GrantDatabase.QuarantineMemories` | apps/server/src/terminator.ts:121-129 | Stamps and lists exactly the memories of the agent that are still in circulation. |
| `Identity.CascadeAfterMass` | apps/server/src/terminator.ts:111-117 | A cascade run on a partly stamped list adds just the descendants of its own root. |
| `LedgerRuns.ChainWalkIsLocalTest` | apps/server/src/terminator.ts:176-180 | In every reachable ledger the recursive chain walk agrees with the local test "not revoked and not expired" that containment verification uses. |
| `LedgerRuns.DenialRulesTellTheTruth` | apps/server/src/run-policies.ts:269-283 | In every reachable ledger a refusal says revoked exactly when all matching grants are revoked, and expired exactly when some are unrevoked and all those are expired. |
| `LedgerRuns.ResourceNeedsOwnerAndLiveGrant` | apps/server/src/run-policies.ts:285-309 | A resource is readable exactly when it belongs to the owner of the agent and some matching grant is neither revoked nor expired. |
| `LedgerRuns.EmptyLedgerWellFormed` | apps/server/src/identity.ts:52-58 | A ledger without accounts and grants is well formed, so every run from it is covered. |
| `LedgerRuns.DenialRuleCanLie` | apps/server/src/run-policies.ts:269-283 | In an ill-formed ledger it can say expired for a grant that never expires. |
| `LedgerRuns.AuthorityComesFromAHuman` | apps/server/src/identity.ts:87-131 | Every chain-live grant has a chain to a parentless grant issued by a human and confers nothing that any grant on the chain does not. |
| `LedgerRuns.IssueKeeps` | apps/server/src/identity.ts:87-131 | Issuing keeps the forest, human roots, concrete targets and "blocked accounts hold nothing". |
| `LedgerRuns.RevokeKeeps` | apps/server/src/identity.ts:180-216 | Revoking keeps them too, and rewrites no earlier stamp. |
| `LedgerRuns.TerminateKeeps` | apps/server/src/terminator.ts:103-131 | So does the revoke commit of a termination, after which the blocked principal holds nothing unrevoked. |
| `LedgerRuns.RunKeeps` | apps/server/src/identity.ts:87-131 | Every ledger of every run is well formed, and its grant list only grows and only gains stamps. |
| `LedgerRuns.LivenessOnlyFalls` | apps/server/src/run-policies.ts:241-267 | A grant once not live is never live again, at that or any later time, whatever is issued, revoked or restarted. |
| `LedgerRuns.RevocationIsStableAndUniform` | apps/server/src/identity.ts:180-216 | First stamps are never rewritten, revoked parents have only revoked children, and both cascades stamp the same grants. |
| `LedgerRuns.TerminatedHoldsNothing` | apps/server/src/terminator.ts:103-131 | From the revoke commit until a start or a deletion, the principal holds no unrevoked grant in any ledger. |
| `LedgerRuns.MemoriesStayDistinct` | apps/server/src/terminator.ts:121-129 | In every run the memories keep distinct ids, so a revoke step lists no memory twice. |
| `CanonicalReader.ReadsQuoted` | apps/server/src/termination.ts:56-63 | Reading back a quoted string gives the string, lone surrogates and escapes included. |
| `CanonicalReader.CanonicalTextReads` | apps/server/src/termination.ts:56-63 | A reader written independently recovers from the canonical text, in front of any continuation, the value up to key order, undefined fields, and reading `[undefined]` as the empty array. |
| `CanonicalReader.SameMeaningSameText` | apps/server/src/termination.ts:56-63 | Values equal up to key order, undefined fields, and reading `[undefined]` as the empty array, print alike. |
| `CanonicalReader.CanonicalTextIsMeaning` | apps/server/src/termination.ts:56-63 | For all values whose keys differ, arrays with undefined elements included: same canonical text exactly when equal up to key order, undefined fields, and reading `[undefined]` as the empty array. |
| `CanonicalReader.ArraysAgreeByElement` | apps/server/src/termination.ts:56-63 | Arrays other than `[undefined]` print alike exactly when they have as many elements and these print alike one by one. |
| `CanonicalReader.UndefinedItemsCollide` | apps/server/src/termination.ts:56-63 | The one collapse: `[undefined]` and the empty array have one text. |
| `Receipts.VerifiersAgree` | apps/server/src/termination.ts:267-318 | The structural checks of the server and of the stand-alone script accept exactly the same JSON values. |
| `Receipts.GatherSteps` | apps/server/src/terminator.ts:35-47 | The four gathered steps, freeze first, in the order of names that the verifiers demand: the normal one exactly when the freeze succeeded, the fallback one otherwise. |
| `ReceiptProofs.SignedTextRecovered` | apps/server/src/termination.ts:320-346 | Removing the signature from any re-ordered copy of a receipt gives back the very text that was signed. |
| `ReceiptProofs.GatheredIsWellFormed` | apps/server/src/terminator.ts:35-66 | With its four steps named and no id listed twice by the revoke step, what a termination gathers is fit for a receipt. |
| `ReceiptProofs.IssuedIsJson` | apps/server/src/terminator.ts:49-66 | An issued receipt is a JSON value, without holes. |
| `ReceiptProofs.ProducedReceiptsVerify` | apps/server/src/terminator.ts:35-66 | Every receipt produced, on either step order and any outcomes, passes verification under the matching key, and so does every re-ordered copy. |
| `ReceiptProofs.AcceptedSaysWhatWasSigned` | apps/server/src/termination.ts:320-346 | If only signed texts pass the signature check, an accepted receipt has exactly the contents of something signed. |
| `AddressSpellings.IPv4ParserIsExact` | apps/server/src/egress-proxy.ts:119-124 | A text is read as four octets exactly when it joins four decimal pieces of at most three digits that denote them. |
| `Addresses.ParseSection` | apps/server/src/egress-proxy.ts:129-147 | The loop over one section computes the words of its pieces, or fails on the same pieces. |
| `Addresses.ParseIPv6` | apps/server/src/egress-proxy.ts:126-156 | The section by section parser computes `IPv6Words`, of which the rows below say what it accepts and denotes. |
| `AddressSpellings.SplitJoin` | apps/server/src/egress-proxy.ts:126-147 | Splitting undoes joining. |
| `AddressSpellings.ParsingUndoesSpelling` | apps/server/src/egress-proxy.ts:126-156 | Every spelling (any compressed run, leading zeros, case, closing dotted quad) of eight words parses to those words. |
| `AddressSpellings.IPv6ParserIsExact` | apps/server/src/egress-proxy.ts:126-156 | A text is read as eight words exactly when, up to letter case, it is a spelling of them: the forms of the RFC, and a quad that closes the side before the double colon. |
| `AddressSpellings.VerdictIgnoresSpelling` | apps/server/src/egress-proxy.ts:175-205 | Two spellings of one address get the same private-address verdict. |
| `AddressSpellings.VerdictNeedsASpelling` | apps/server/src/egress-proxy.ts:175-205 | A text that the platform takes for IPv6 is private exactly when it spells an address that is; parsing fails exactly when it spells none. |
| `AddressSpellings.ScopedIsNeverPrivate` | apps/server/src/egress-proxy.ts:175-205 | A text with a zone after a percent sign spells none, so it is not held to be private, whatever comes before. |
| `AddressSpellings.IPv4VerdictIsBlocks` | apps/server/src/egress-proxy.ts:158-173 | The IPv4 verdict is membership in the listed address blocks, as 32-bit intervals. |
| `AddressSpellings.IPv6VerdictIsBlocks` | apps/server/src/egress-proxy.ts:175-205 | The IPv6 verdict is the IPv4 verdict of the last 32 bits for mapped and compatible addresses and membership in three blocks otherwise. |
| `AddressSpellings.MappedVerdictIsIPv4` | apps/server/src/egress-proxy.ts:175-205 | Any spelling of a mapped address gets the verdict of its dotted form. |
| `Pacing.Pacer.ReserveRequestSlot` | apps/server/src/gemini-adapter.ts:56-68 | One call claims the next slot or refuses without claiming. |
| `Pacing.WaitsAreBounded` | apps/server/src/gemini-adapter.ts:56-68 | A refusal happens exactly when the queue is longer than a minute and consumes no slot; accepted callers wait at most 60000 ms. |
| `Pacing.SlotsAreSpaced` | apps/server/src/gemini-adapter.ts:33-68 | Accepted slots are at least 4200 ms apart in call order, for any clock readings. |
| `Pacing.AtMostFifteenAMinute` | apps/server/src/gemini-adapter.ts:33-68 | No window of 60000 ms holds more than fifteen slots. |
| `Pacing.AtMostFifteenWait` | apps/server/src/gemini-adapter.ts:41-68 | With a clock that never goes back, at most fifteen callers wait at once. |
| `EgressAuthorizer.Authorizer.ResetStrikes` | apps/server/src/egress-authorizer.ts:128-131 | Clears both counters of the one agent. |
| `EgressAuthorizer.Authorizer.BeginAuthorize` | apps/server/src/egress-authorizer.ts:138-209 | The segment up to the first await: authentication, platform and grant decision, flood limit, hold. |
| `EgressAuthorizer.Authorizer.FinishApproval` | apps/server/src/egress-authorizer.ts:212-226 | The release of a hold after the answer of the operator. |
| `EgressAuthorizer.Authorizer.CountDenial` | apps/server/src/egress-authorizer.ts:234-240 | One more strike for a denial, none for a permission. |
| `EgressAuthorizer.HeldIsBounded` | apps/server/src/egress-authorizer.ts:191-216 | In every interleaving the recorded holds are at most three and at most the approval calls in flight, equal to them until a reset; after resets the calls in flight exceed the record by at most three for each. |
| `EgressAuthorizer.RecordIsExactIffResetsAreQuiet` | apps/server/src/egress-authorizer.ts:128-131 | The record equals the calls in flight throughout a run exactly when every reset of the agent found none on record, and then at most three are in flight. |
| `EgressAuthorizer.BoundIsReached` | apps/server/src/egress-authorizer.ts:128-216 | For every number of resets there is a run with three calls in flight for each and three more, and a record of three. |
| `EgressAuthorizer.StrikesCountDenials` | apps/server/src/egress-authorizer.ts:234-239 | Strikes are the counted denials since the last reset. |
| `EgressAuthorizer.DenialTakesNextStrike` | apps/server/src/egress-authorizer.ts:237-240 | The strike number a denial reports counts itself. |
| `EgressAuthorizer.QuarantineFromThresholdOn` | apps/server/src/egress-authorizer.ts:237-247 | A denial triggers quarantine exactly from the threshold on; a failed authentication never counts. |
| `EgressAuthorizer.AllowedHasCause` | apps/server/src/egress-authorizer.ts:145-227 | Whatever is permitted in a run has its cause in that run: the call began authenticated, and a platform endpoint or a live matching grant spoke for it then, or the operator said yes to this very call later. |
| `EgressProxy.Proxy.TrackEnds` | apps/server/src/egress-proxy.ts:260-277 | Registering ends puts each into the current set of the principal and its close handler into the same set. |
| `EgressProxy.Proxy.DestroyEach` | apps/server/src/egress-proxy.ts:283-291 | The loop destroys each open end once and counts the registered ends. |
| `EgressProxy.Proxy.ClosePrincipalConnections` | apps/server/src/egress-proxy.ts:279-294 | A drain starts a new generation, cuts what is registered, drops the set and reports its size. |
| `EgressProxyProofs.RunKeeps` | apps/server/src/egress-proxy.ts:246-294 | In every interleaving the current set of a principal holds exactly the registered open ends of its present generation. |
| `EgressProxyProofs.DrainCutsExactly` | apps/server/src/egress-proxy.ts:279-294 | A drain cuts every registered end of the present connections of the principal and leaves every other connection as it was. |
| `EgressProxyProofs.DrainCountsRegisteredEnds` | apps/server/src/egress-proxy.ts:279-294 | What a drain counts are exactly those ends. |
| `EgressProxyProofs.DrainIsFinal` | apps/server/src/egress-proxy.ts:376-476 | Whatever a principal began before a drain, at any stage, never pipes data again in any continuation. |
| `EgressProxyProofs.OthersAreUntouched` | apps/server/src/egress-proxy.ts:525-607 | Over any stretch of any run without a drain of its own principal or an event of its own, a connection is not cut and its registered ends stay registered. |
| `EgressProxyProofs.LateCloseIsHarmless` | apps/server/src/egress-proxy.ts:266-274 | In every run, a close of an end from before a drain of its principal neither drops nor empties any present tracking set. |
| `Store.DataIsSequential` | apps/server/src/store.ts:345-356 | The database in memory is always the successful mutations folded in call order. |
| `Store.OneAtATime` | apps/server/src/store.ts:345-356 | While an operation is unsettled, every later one is still waiting. |
| `Store.SuccessIsGenuine` | apps/server/src/store.ts:345-356 | A mutation that resolved ran on exactly the result of its predecessors. |
| `Store.FailureIsHarmless` | apps/server/src/store.ts:345-356 | A failing callback or write changes neither memory nor file and frees the chain for the next operation. |
| `Store.NeverBlocked` | apps/server/src/store.ts:345-356 | While an operation is unsettled some step can be taken, and each uses up work. |
| `Store.FileIsCommitted` | apps/server/src/store.ts:358-365 | At every instant the file is a complete database with every acknowledged mutation, and a crash restarts from it. |
| `Store.JsonStore.Mutate` | apps/server/src/store.ts:345-353 | Chains a new operation behind the last one. |
| `Store.JsonStore.AfterCallback` | apps/server/src/store.ts:347-350 | Rejects when the callback threw, and otherwise starts writing its copy. |
| `Store.JsonStore.Begin` | apps/server/src/store.ts:347-348 | Copies the data for the callback once the previous operation has settled. |
| `Store.JsonStore.AfterWrite` | apps/server/src/store.ts:358-363 | Has a complete temporary file to rename, or rejects. |
| `Store.JsonStore.AfterRename` | apps/server/src/store.ts:350-364 | Replaces the file and then takes the copy over, or rejects. |
| `RunnerLock.RunKeeps` | apps/server/src/agent-service.ts:1460-1477 | Links, turns and map entries stay consistent in every run. |
| `RunnerLock.ExclusiveAndFifo` | apps/server/src/agent-service.ts:1460-1477 | At most one operation of an agent is inside, and operations go in and come out in the order they asked, for any arrivals and any failures. |
| `RunnerLock.EntryExactlyWhileNeeded` | apps/server/src/agent-service.ts:1460-1477 | The map has an entry for an agent exactly while one of its operations holds or waits. |
| `RunnerLock.NeverStuck` | apps/server/src/agent-service.ts:1460-1477 | While an operation is unfinished, it or one ahead of it on the chain of its agent has a step to take, and each such step uses up work ahead of it. |
| `RunnerLock.WorkAhead` | apps/server/src/agent-service.ts:1460-1477 | No step of anybody adds to the work ahead of a caller. |
| `RunnerLock.RunnerLocks.Ask` | apps/server/src/agent-service.ts:1461-1468 | Takes the place behind the entry and becomes the entry. |
| `RunnerLock.RunnerLocks.Release` | apps/server/src/agent-service.ts:1471-1476 | Releases, and removes the entry unless somebody asked meanwhile. |
| `ReceiptKeys.FilesAreWriteOnce` | apps/server/src/termination.ts:188-257 | A key file once there is never written again, so a complete pair is never overwritten. |
| `ReceiptKeys.AtMostOneCreation` | apps/server/src/termination.ts:188-257 | At most one pair is ever created, for any number of callers, failures and crashes. |
| `ReceiptKeys.CreationStartsFromNothing` | apps/server/src/termination.ts:220-257 | Files are created only in a directory that had none, and both name one pair. |
| `ReceiptKeys.ReturnsAgree` | apps/server/src/termination.ts:220-257 | All calls that return successfully return the pair on disk, hence the same one. |
| `ReceiptKeys.LockedRefusalIsTrue` | apps/server/src/termination.ts:240-247 | A refusal decided under the lock is made over half a pair that nobody is completing. |
| `ReceiptKeys.UnlockedRefusalCanBeFalse` | apps/server/src/termination.ts:231-237 | A refusal decided without the lock can be made over a complete pair, in a concrete run. |
| `ReceiptKeys.UnlockedRefusalIsFalseExactlyWhenOvertaken` | apps/server/src/termination.ts:220-237 | Such a refusal is over a complete pair exactly when some rename of a public key came between the first look of that caller and its question about the lock; some key file is there in any case. |
| `ReceiptKeys.RefusalOverAFreeLockIsTrue` | apps/server/src/termination.ts:220-237 | If the lock stayed free from that first look on, the refusal is over half a pair. |
| `ReceiptKeys.KeyDirectory.AcquireInitializationLock` | apps/server/src/termination.ts:165-178 | Obtains the lock exactly when it is free, and leaves it alone otherwise. |
| `ReceiptKeys.KeyDirectory.LoadOrCreateReceiptKeyPair` | apps/server/src/termination.ts:220-257 | An undisturbed call: loads a complete pair, refuses half of one, creates one from nothing, and leaves the lock as it found it. |
| `AgentService.Service.Initialize` | apps/server/src/agent-service.ts:121-160 | The start-up commit takes every agent to the view that a booted one-agent model shows. |
| `AgentService.Service.AdmitCallback` | apps/server/src/agent-service.ts:865-941 | Passes exactly when the admission of the one-agent model passes its checks, and then changes the view of the agent as that commit does. |
| `AgentService.Service.Register` | apps/server/src/agent-service.ts:945-946 | Changes the view as the continuation of the admission does. |
| `AgentService.Service.Unregister` | apps/server/src/agent-service.ts:947-953 | Changes the view as the end of that execution does: a later execution stays registered. |
| `AgentService.Service.StartRun` | apps/server/src/agent-service.ts:985-1000 | Changes the view as the commit of a start of a run does. |
| `AgentService.Service.CompleteRun` | apps/server/src/agent-service.ts:1319-1357 | Changes the view as the commit of a successful end does. |
| `AgentService.Service.FailRun` | apps/server/src/agent-service.ts:1365-1386 | Changes the view as the commit of any other end does. |
| `AgentService.Service.RegisterApproval` | apps/server/src/agent-service.ts:781-786 | A new entry, as when a connection or a paused step asks. |
| `AgentService.Service.PublishStep` | apps/server/src/agent-service.ts:1144-1153 | The guard and the commit of publishing the approval of a held step. |
| `AgentService.Service.PublishConnection` | apps/server/src/agent-service.ts:792-808 | The guard and the commit of publishing the approval of a held connection; a dropped request publishes nothing. |
| `AgentService.Service.Resolvable` | apps/server/src/agent-service.ts:634-656 | The checks pass exactly when the resolution of the one-agent model passes its checks. |
| `AgentService.Service.HasOtherPending` | apps/server/src/agent-service.ts:668-673 | Whether the agent waits for some other approval. |
| `AgentService.Service.ResolveCallback` | apps/server/src/agent-service.ts:634-697 | Passes exactly when those checks do, and then changes the view of the agent as that commit does, or changes nothing; other agents see nothing. |
| `AgentService.Service.FinishResolution` | apps/server/src/agent-service.ts:699-705 | Changes the view as the continuation of the resolution does: a waiter keeps its first answer. |
| `AgentService.Service.ClearPending` | apps/server/src/agent-service.ts:760-769 | Changes the view as the clearing of a held connection does. |
| `AgentService.Service.DenyPendingApprovals` | apps/server/src/agent-service.ts:1479-1500 | Changes the view of the one agent as the commit of a denial does, and that of no other. |
| `AgentService.Service.TellEveryoneNo` | apps/server/src/agent-service.ts:1501-1510 | The loop changes the view of the one agent as the continuation of a denial does, and that of no other. |
| `AgentService.Service.SetStatus` | apps/server/src/agent-service.ts:1435-1458 | Passes exactly when a start, or the end of a stop, passes its checks, and then changes the view as that commit does. |
| `AgentService.Service.FinishStart` | apps/server/src/agent-service.ts:534-539 | Changes the view as the continuation of a start does, and succeeds exactly when no termination is under way. |
| `AgentService.Service.BeginTermination` | apps/server/src/agent-service.ts:337-343 | Succeeds exactly when the model can start a termination, and then changes the view as that event does. |
| `AgentService.Service.InstallBarrier` | apps/server/src/agent-service.ts:349-355 | Leaves the view as a settled freeze, successful or not, does. |
| `AgentService.Service.EndTermination` | apps/server/src/agent-service.ts:345-347 | Changes the view as the continuation after a persisted receipt does. |
| `AgentService.Service.BeginStop` | apps/server/src/agent-service.ts:542-547 | Succeeds exactly when the model can start a stop or a deletion, and then changes the view as that event does. |
| `AgentService.Service.BeginQuarantine` | apps/server/src/agent-service.ts:394-398 | Changes the view as the start of a quarantine or kill does, and owns the token exactly when that thread does. |
| `AgentService.Service.StopQuarantined` | apps/server/src/agent-service.ts:399-405 | Changes the view as the commit of a quarantine or kill does, whatever is on record. |
| `AgentService.Service.WithdrawCancellation` | apps/server/src/agent-service.ts:1524-1534 | Changes the view as the settling of the awaited execution does, whether the cancellation had worked or not. |
| `AgentService.Service.DeleteRows` | apps/server/src/agent-service.ts:444-451 | Changes the view as the commit of a deletion does; other agents keep their rows. |
| `AgentService.Service.ReleaseToken` | apps/server/src/agent-service.ts:406-408 | Changes the view as the end of a thread does. |
| `OneRun.RunKeeps` | apps/server/src/agent-service.ts:865-1001 | In every run, an execution has its run on record as queued until its start commits and as running from then until its end does; what a store callback found in the rows still holds when its write completes; no approval belongs to a run that has not started. |
| `OneRun.OneRunExactly` | apps/server/src/agent-service.ts:399-405 | Over every run: at most one queued or running run and an agent busy or waiting exactly when it has one, in every state, exactly when no stop, quarantine or kill commits while a run is on record as active. |
| `OneRun.OneRunAtATime` | apps/server/src/agent-service.ts:865-941 | In every run, until a stop has committed over an active run, the agent has at most one queued or running run, and is busy or waiting for approval exactly when it has one. |
| `OneRun.ReadyBranchUnreachable` | apps/server/src/agent-service.ts:674-682 | In every run, an approval that is resolved belongs to a running run, so the branch that would set its agent ready is never taken. |
| `OneRun.ResolvingKeepsTheRun` | apps/server/src/agent-service.ts:674-682 | In every run, a resolution leaves an active agent active, an inactive one inactive, and the runs alone. |
| `RunCauses.BootEstablishes` | apps/server/src/agent-service.ts:117-160 | Whatever rows are stored, the start-up pass leaves no active run, no busy agent and nothing pending. |
| `RunCauses.OnlyThreeCauses` | apps/server/src/agent-service.ts:394-409 | In every run, before a stop commits over an active run, and since the server was last started, the commit that starts a run was lost, or the one that fails it, or a quarantine started beside another holder of the token. |
| `RunCauses.UndisturbedRunsOne` | apps/server/src/agent-service.ts:865-955 | In a run without any of the three, one run at a time. |
| `RunCauses.AdmissionIsShut` | apps/server/src/agent-service.ts:872-890 | In a run without any of the three, admission is shut while any stop, deletion, quarantine or kill is under way. |
| `LifecycleWitnesses.UnownedQuarantineStopsARun` | apps/server/src/agent-service.ts:394-409 | A quarantine without the token can stop the agent under a run that was admitted meanwhile. |
| `LifecycleWitnesses.QuarantineCanBeHarmless` | apps/server/src/agent-service.ts:394-409 | It need not: a quarantine beside a stop can leave one run at a time in every state. |
| `LifecycleWitnesses.LostEndLeavesARun` | apps/server/src/agent-service.ts:1352-1401 | When the commit that ends a failed run fails, the run stays on record as running and a stop leaves it behind. |
| `LifecycleWitnesses.LostStartLeavesARun` | apps/server/src/agent-service.ts:978-1001 | When the commit that starts a run fails, the run stays on record as queued and a stop leaves it behind. |
| `ApprovalRuns.StepKeeps` | apps/server/src/agent-service.ts:1042-1238 | Every step keeps "nothing is published before its publication commits, and each approval belongs to the execution or request that made it". |
| `ApprovalProofs.LeavesPendingOnce` | apps/server/src/agent-service.ts:627-708 | An approval leaves pending at most once over any run of resolutions, timeouts, disconnections, cancellations, failing writes and restarts. |
| `ApprovalHistory.ToldAfterApproval` | apps/server/src/agent-service.ts:699-705 | A waiter is told "approved" only after that approval was committed as approved. |
| `ApprovalHistory.HeldStepPassesOnlyApproved` | apps/server/src/agent-service.ts:1066-1233 | A held step goes on only after a confirmed pause, then the commit of that very approval as approved, then a successful resume. |
| `TerminationOrder.RunKeeps` | apps/server/src/terminator.ts:28-77 | In every run the flags of a termination, its frame and its calls to the store agree with the step it has reached. |
| `TerminationRuns.StartWaitsForReceipt` | apps/server/src/agent-service.ts:522-540 | In every run, after a termination began, no start succeeds before its receipt is committed, unless the server was restarted in between. |
| `TerminationRuns.RevokedUntilStart` | apps/server/src/terminator.ts:96-131 | In every run, from the moment the revoke step is on disk, by its commit or by a restart just after its write, until a start or a deletion is on disk, the principal holds no unrevoked grant. |
| `TerminationRuns.BarredDuringTermination` | apps/server/src/terminator.ts:70-76 | In every run, from the commit of the revoke step until the termination hears that its receipt is on disk, or the server goes away, and also when the drain, the kill, the verification or the write of the receipt failed: no start is on its way to the disk, and the agent is gone, or its account is blocked and its principal holds no unrevoked grant. |
| `TerminationRuns.ContainedReceiptBarsTheAgent` | apps/server/src/terminator.ts:168-236 | In every run, when a receipt claiming containment is written, no execution is registered, and the agent is gone, or its account is blocked and its principal holds no unrevoked grant. |
| `TerminationRuns.ContainedExactly` | apps/server/src/terminator.ts:168-217 | In every run, such a receipt rests on one reading by the verification, and from that reading until the receipt is on disk the agent is gone, or stopped, barred and without execution or active run, in every state, exactly when no run was on record as active at the reading, which it does not ask. |
| `TerminationRuns.ContainedReceiptIsTrue` | apps/server/src/terminator.ts:168-236 | In every run, as long as no stop has committed over an active run, the agent of such a receipt is gone, or stopped, barred and without execution or active run. |
| `LifecycleWitnesses.ContainedReceiptOverAnActiveRun` | apps/server/src/terminator.ts:168-236 | After a lost start a receipt claims containment while a run is on record as active. |
| `LifecycleWitnesses.ContainedReceiptOfAWaitingAgent` | apps/server/src/terminator.ts:168-236 | After a lost end a receipt claims containment of an agent that waits for an approval. |
| `LifecycleWitnesses.RestartForgetsTheTermination` | apps/server/src/agent-service.ts:345-347 | After a committed revoke step and a restart, a start lifts the block and succeeds although no receipt was written. |
| `TerminationRuns.SettledStartHasUnblocked` | apps/server/src/agent-service.ts:1435-1458 | A start whose commit is back has lifted the block, whatever its last check says next. |
| `LifecycleWitnesses.RefusedStartLiftsTheBlock` | apps/server/src/agent-service.ts:522-540 | A start that is refused because a termination began during its write has lifted the block all the same. |

## Left out

- The web application, HTTP routes, schema validation, session tokens and configuration.
- Containers, processes and the network: their results are free choices of an event.
- Ed25519, SHA-256 and HMAC: abstract functions.
- DNS and sockets beyond open, destroyed and closed ends; timeouts appear as failures.
- Risk rules, cost estimates and budget checks: a step is risky or not by free choice.
- Memory recall and its limits; memories are identifiers with a quarantine stamp.
- Database migrations: stored rows are taken as already in the current form.
- Event and trace text, redaction, sessions, messages, titles and `updateAgent`, none of which touches a status.
- `createAgent`: a new agent is a booted server whose database already has the ready row and its account.
- Numbers other than integers in `canonicalize`, and integers of magnitude 1e21 and above, which JavaScript prints differently.
- Canary hits inside a step, which let the callback return while the run is being cancelled.
- The order of waiting store calls inside the lifecycle model, and the runner lock around pause and resume; `Store` and `RunnerLock` treat them on their own.
- A stop whose awaited execution rejects ends there; the model also lets it go on, which only adds runs.
- TerminationRuns.StartWaitsForReceipt: up to a restart of the server, because the guard is kept in memory.
- ReceiptKeys.KeyDirectory.LoadOrCreateReceiptKeyPair: one undisturbed caller; concurrent callers are the state machine of the same module.
- The suspended calls of `AgentService` (executions, stops, terminations) and the ledger are the one-agent model's; the class holds the tables and sets, and its methods are tied to that model step by step, not over sequences of calls.
