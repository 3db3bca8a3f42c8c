# HeadOfContext: a verified model

HeadOfContext is an authorization layer for agents. A user delegates a scope to an agent as a token; every
action is decided by scope, then engine, then policy; dangerous actions wait for a human approval; documents and
memories are filtered by what the user may see; everything is journaled in a hash chain. This project models the
logic behind those promises in Dafny and proves what holds in every run, for every input.

`dafny verify dfyconfig.toml` checks the whole project.

## Layout

| files | what they model |
|---|---|
| `Refs`, `Scopes`, `Chains` | reference grammar, capability and scope algebra, the delegation chain |
| `Tokens`, `TokenService`, `Fleet` | a biscuit as authority facts and appended blocks; load, attenuate, verify; all tokens of a run and their revocations |
| `Mandates`, `MandateHistory` | the mandate store, and mandates racing with issue, revoke, get and sweep; what must have happened before a mandate, a token or a revocation is there |
| `Policies`, `Decider`, `ReadFilter` | policies, the one decision path with its batched forms, the read filter |
| `Approvals`, `ApprovalProtocol`, `ApprovalSafety`, `ApprovalTheorems`, `ApprovalHistory` | the approval store as an object; gate, resolve, redeem and sweep as interleaved clients; the invariant; the theorems; what every row and event goes back to, and what a call leads to |
| `RateLimiter`, `RateTheorems` | the token bucket as an object, and its runs |
| `Events`, `AuditChain`, `AuditSinks` | hashing of events, verification of a chain, the two sinks and the paged export |
| `Tuples`, `Connectors`, `Reconciliation` | one reconciliation that may fail at any call; any number of them interleaved |
| `MemoryStores`, `MemoryProtocol`, `MemorySafety`, `MemoryTheorems`, `MemoryHistory`, `MemoryWitnesses` | ledger and backend as objects; remember, recall and forget as interleaved clients with a tamperer; the invariant; the theorems; who may write, read and remove, and what a call leaves; runs in which a promise fails |

Objects whose methods update their fields are classes. The concurrent protocols are transition systems: a client is a
program counter plus the values it has read, every store or engine call is one atomic step, a failing call is a step of
its own, and the clock never goes back. Time is an integer (a real in the limiter), identifiers that the system draws at
random are parameters constrained to be fresh, and the engine, the hash, JSON and the word splitter are function parameters.

## Where the code and its documents differ

The model follows the code.

- ADR 0017 says that every expiry goes through the compare-and-set and that a rejection is never overwritten.
  `resolve_request` (`src/headofcontext/actions/approvals.py:366-368`) writes EXPIRED with a plain update of a stale copy.
  `RejectionOverwritten` gives a run in which a REJECTED request becomes EXPIRED and loses its rejecter;
  `RejectionIsFinalIff` says exactly when a rejection is final. CONSUMED is safe all the same (`LifeNeverGoesBack`).
- An issue that clamps a token exactly at its mandate's expiry instant passes a zero lifetime on, which the token service
  reads as "default" (`src/headofcontext/tokens/biscuit/service.py:185-186`). `ZeroClampOutlivesMandate` shows it,
  `ExpiryBoundExact` gives the exact condition.
- `load` counts all blocks, `attenuate` only delegations: `EightOpaqueBlocks` is a token whose child does not load,
  `ChildLoadsIff` says exactly when one does.
- Python's `$` accepts a trailing newline in a reference, but the trail of a token is printed and cut into lines. A token
  attenuated to such a reference is not the delegate's but stays the parent's (`NewlineDelegateIsNotHolder`); `ChildLoadsIff`,
  `BuiltLoads` and `VerifyIsLastScope` are stated with that condition.
- Python's `$` accepts a trailing newline, so an exact resource may end in `*` and a newline. Such a capability matches
  nothing, which is the one case in which `covers` is not complete (`DeadIsNotCovered`, `CoversIsInclusion`).
- The threat model says that a memory without provenance is readable by `written_for` only. When a backend merges several
  records into one hit and any of them names a source, the owner of the others is not asked
  (`MergedHitSkipsTheOwner` gives the run). `OwnerOnlyIff` says exactly when the rule holds.
- The threat model says that a tampered ledger cannot remove sources. It can, if the memory is being forgotten between
  the ledger read and the tuple read of the same recall (`RaceReturnsUnchecked`); `ConfirmedOnlyIff` says
  exactly when every return is confirmed.
- A sync that fails after some writes and is retried with a different snapshot can leave tuples that nothing removes
  (`ChangedSnapshotNeedNotConverge`, `StrayStays`), and so can two overlapping syncs of one connector
  (`OverlapNeedNotConverge`); `FinishIsExactIff` gives the exact condition for a sync that ran alone.
- ADR 0025 describes pruning as exporting and deleting rows. If nothing survives the cut, the next record starts from
  GENESIS again and the live table no longer verifies from the archived head (`PruneKeepsTheChain`).
- `export` with a batch size of zero queries for ever (`ZeroBatchNeverEnds`); `Export` asks for at least one.

## Model

| member | source | states |
|---|---|---|
| `Refs.StarIsLast` | src/headofcontext/core/refs.py:12-22 | in a valid pattern that ends with a star, no other position holds a star or a newline |
| `Refs.RefIsPattern` | src/headofcontext/core/refs.py:17-30 | every valid reference of a type is a valid resource pattern |
| `Refs.StarFilled` | src/headofcontext/core/refs.py:12-22 | a wildcard pattern with its star replaced by any id character is a concrete reference: the witness that completeness needs |
| `Refs.AlphabetsListed` | src/headofcontext/core/refs.py:9-14 | the characters of ids and of type names are exactly the listed letters, digits and marks |
| `Scopes.CoversIsInclusion` | src/headofcontext/core/scope.py:30-38 | `covers` holds if and only if every concrete resource matched by the one is matched by the other, except for the exact capabilities that match nothing |
| `Scopes.DeadIsNotCovered` | src/headofcontext/core/refs.py:12-22 | "a:*" with a trailing newline is accepted, included in "b:b" and not covered by it |
| `Scopes.CoversSound` | src/headofcontext/core/scope.py:30-38 | what a covered capability matches, the covering one matches |
| `Scopes.CoversTransitive` | src/headofcontext/core/scope.py:30-38 | covering is transitive across exact and wildcard capabilities |
| `Scopes.SubsetReflexive` | src/headofcontext/core/scope.py:60-61 | every scope is a subset of itself |
| `Scopes.SubsetTransitive` | src/headofcontext/core/scope.py:57-61 | the subset relation is transitive |
| `Scopes.SubsetSound` | src/headofcontext/core/scope.py:57-61 | a subset scope permits only what the larger one permits, on all concrete resources |
| `Chains.CheckChain` | src/headofcontext/core/chain.py:35-55 | the constructor's loop reports the first fault in its order and accepts exactly the well-formed chains |
| `Chains.DelegatedIsAccepted` | src/headofcontext/core/chain.py:79-90 | every chain made by delegation from a root is accepted, keeps the subject, starts at the root actor and has one valid link per hop |
| `Chains.DelegateIff` | src/headofcontext/core/chain.py:79-90 | an accepted chain can be delegated if and only if to another agent, within its scope and fewer than eight links deep; the result written out |
| `Chains.AcceptedIsDelegated` | src/headofcontext/core/chain.py:35-90 | every accepted chain is rebuilt exactly by delegating its own links from its root |
| `Chains.AcceptedIffReachable` | src/headofcontext/core/chain.py:35-90 | the constructor accepts exactly the chains that some root reaches by delegation |
| `Chains.ScopesShrink` | src/headofcontext/core/chain.py:47-55 | along an accepted chain later scopes permit only what earlier ones permit |
| `Tokens.FactsRoundTrip` | src/headofcontext/tokens/biscuit/datalog.py:78-85 | the facts written for a scope read back as that scope |
| `Tokens.FactsAllowIsCovers` | src/headofcontext/tokens/biscuit/datalog.py:25-37 | the authority policies over exact and prefix facts decide what `Scope.covers` decides |
| `Tokens.ParseTrailBlock` | src/headofcontext/tokens/biscuit/datalog.py:107-124 | the pass over any lines returns their meaning by position, and no other result has it: the first fault (a second delegation, a capability that does not parse), else the one delegation with all declared capabilities, else nothing |
| `Tokens.AttenuationBlockParses` | src/headofcontext/tokens/biscuit/datalog.py:64-75 | the block an attenuation writes is printed and split: it parses back whole if and only if no text of it holds a newline; an actor with one makes it opaque, a resource with one is dropped |
| `Tokens.LoadToken` | src/headofcontext/tokens/biscuit/service.py:84-127 | the loop over the blocks computes the fold of delegations, with its faults in order |
| `Tokens.LoadIsFold` | src/headofcontext/tokens/biscuit/service.py:99-127 | folding blocks one by one equals delegating over the declared links from the root, link for link |
| `TokenService.LoadAnyBlocks` | src/headofcontext/tokens/biscuit/service.py:99-127 | whatever blocks were appended, load gives a chain if and only if there are at most eight, all parse and delegating their declared links from the authority root gives that chain |
| `TokenService.LoadedChainNarrows` | src/headofcontext/tokens/biscuit/service.py:84-127 | a loaded chain keeps the authority's subject, is contiguous from its actor, at most eight deep, and every scope permits only what the authority permits |
| `TokenService.AppendOnlyRestricts` | src/headofcontext/tokens/biscuit/service.py:286-298 | a block appended by anybody adds exactly its own checks and never widens a token |
| `TokenService.AttenuateIff` | src/headofcontext/tokens/biscuit/service.py:130-154 | a token is attenuated if and only if it loads, the delegate is another agent, the scope is within the one held and the chain is fewer than eight deep; the child is the parent and that one block |
| `TokenService.ChildLoadsIff` | src/headofcontext/tokens/biscuit/service.py:130-154 | an attenuated token loads if and only if its parent had fewer than eight blocks of any kind, as the delegated chain with the legible scope if and only if neither actor holds a newline, else as the parent's chain |
| `TokenService.EightOpaqueBlocks` | src/headofcontext/tokens/biscuit/service.py:99-101 | a token with eight blocks that declare nothing loads and can be attenuated, and its child does not load |
| `TokenService.BuiltLoads` | src/headofcontext/tokens/biscuit/service.py:130-154 | a token built by issue and attenuate alone loads if and only if it has at most eight blocks, for the last delegate that was read back; it has one link per block if and only if no actor holds a newline |
| `TokenService.ChecksAskEveryScope` | src/headofcontext/tokens/biscuit/datalog.py:25-104 | on such a token the authority policy and all block checks together ask every scope it was cut to, those of unread delegations included |
| `TokenService.ChecksCollapse` | src/headofcontext/tokens/biscuit/datalog.py:25-104 | when every delegation was read back, all scopes cover a request if and only if the last one does |
| `TokenService.VerifyIsLastScope` | src/headofcontext/tokens/biscuit/service.py:210-248 | such a token is accepted if and only if it has at most eight blocks, no id it carries is revoked, the caller is the holder, its lifetime (the default one for zero or none) is not over and every scope covers the request; without a newline in an actor, that is the last actor and the last scope; the answer names the root's subject, the holder and the scope it holds |
| `TokenService.VerifyAnswers` | src/headofcontext/tokens/biscuit/service.py:210-248 | for any token, the answer is the loaded chain itself if and only if caller and resource are well-formed, it loads, carries no revoked id, is the caller's and passes the authorizer; otherwise which fault comes first |
| `TokenService.HolderIsLastIff` | src/headofcontext/tokens/biscuit/service.py:99-127 | the last delegate is the holder if and only if neither it nor the holder before it holds a newline |
| `TokenService.NewlineDelegateIsNotHolder` | src/headofcontext/tokens/biscuit/datalog.py:39-40 | a token attenuated to "agent:b" with a trailing newline is refused to that delegate for every request and stays the parent's |
| `TokenService.VerifyMany` | src/headofcontext/tokens/biscuit/service.py:250-298 | succeeds under the shared conditions and answers for every distinct resource what `verify` answers |
| `Fleet.InMemoryRevocationStore.Revoke` | src/headofcontext/tokens/biscuit/revocation.py:22-23 | the id is revoked from then on and no other changes |
| `Fleet.InMemoryRevocationStore.AnyRevoked` | src/headofcontext/tokens/biscuit/revocation.py:25-26 | true if and only if one of the ids was revoked |
| `Fleet.RunKeepsTree` | src/headofcontext/tokens/biscuit/service.py:130-154 | in every run two tokens that share a block id share everything up to that block |
| `Fleet.CarriesIffDescends` | src/headofcontext/tokens/biscuit/service.py:66-77 | a token carries another's own revocation id if and only if it extends its blocks |
| `Fleet.DescendsIffGrown` | src/headofcontext/tokens/biscuit/service.py:130-154 | among the tokens of a run, those that extend another's blocks are exactly those that the steps of the run grew from it |
| `Fleet.RevokeReachesDescendants` | src/headofcontext/tokens/biscuit/service.py:326-345 | a holder's revoke refuses that token and everything the run grew from it, answers all others as before and revokes no mandate |
| `Fleet.OnlyHoldersRevoke` | src/headofcontext/tokens/biscuit/service.py:326-345 | in every run a revoked block id goes back to a revoke by the holder of the very token that ends in it, and a revoked mandate id to its mandate's revocation |
| `Fleet.RevocationsPersist` | src/headofcontext/tokens/biscuit/revocation.py:18-26 | no later step undoes a revocation or loses a token |
| `Fleet.RevokedStaysRefused` | src/headofcontext/tokens/biscuit/service.py:210-248 | a token that carries a revoked id is refused for every request in every later state |
| `Mandates.InMemoryMandateStore.Create` | src/headofcontext/tokens/mandates.py:95-99 | adds the mandate under a new id and refuses a known one without effect |
| `Mandates.InMemoryMandateStore.Update` | src/headofcontext/tokens/mandates.py:104-108 | replaces a known row and refuses an unknown one without effect |
| `Mandates.InMemoryMandateStore.Sweep` | src/headofcontext/tokens/mandates.py:115-124 | expires exactly the rows that are ACTIVE with a date not after now, returns them, and leaves every other row as it was |
| `Mandates.ExpiryBoundExact` | src/headofcontext/tokens/mandates.py:349-371 | a token expires no later than its mandate plus the clock advance between the two reads, if and only if the clamp did not come out as zero (or the lifetimes are not positive) |
| `Mandates.ZeroClampOutlivesMandate` | src/headofcontext/tokens/biscuit/service.py:185-186 | for every mandate that can be granted, a run in which an issue passes its checks in time, clamps at the expiry instant and mints a token that lives a whole default lifetime longer |
| `Mandates.StepKeeps` | src/headofcontext/tokens/mandates.py:323-402 | every step of create, issue, revoke, get, sweep and attenuate keeps the invariant on rows, clients and tokens |
| `Mandates.StatusNeverReturnsToActive` | src/headofcontext/tokens/mandates.py:375-402 | in every interleaving a mandate's terms never change and a status that left ACTIVE never comes back |
| `Mandates.RevokedMandateKillsEveryToken` | src/headofcontext/tokens/mandates.py:323-345 | once a mandate's id is recorded no token under it verifies any more, not even one whose issue had passed the status check |
| `Mandates.RevokedStatusMeansDeadTokens` | src/headofcontext/tokens/mandates.py:323-402 | in every reachable state a mandate stored as REVOKED has its id recorded and no token under it verifies |
| `Mandates.TokensStayWithinMandate` | src/headofcontext/tokens/mandates.py:349-371 | every token of every run acts for its mandate's subject, within its scope after any delegation, and expires within the bound exactly when the clamp was not zero |
| `MandateHistory.NothingWithoutItsGrounds` | src/headofcontext/tokens/mandates.py:255-371 | in every run every mandate goes back to a request of its own subject, within the allowed life and with a binding the engine confirmed; every token to an issue by the mandate's agent, within its scope, that found it ACTIVE, in date, not revoked and bound; every revoked mandate id to a revoke by the subject |
| `MandateHistory.ExpiredOnlyAtItsDate` | src/headofcontext/tokens/mandates.py:375-402 | in every run, whether a sweep or a read writes it, a mandate is EXPIRED only from its date on |
| `MandateHistory.RevokeTakesEffect` | src/headofcontext/tokens/mandates.py:323-345 | a revoke by the subject records the mandate's id and marks its row with time and note; one by anybody else ends at once without effect |
| `MandateHistory.FreshMarksTheRow` | src/headofcontext/tokens/mandates.py:375-402 | a read that finds the date past, or the id revoked, writes exactly that to the row |
| `MandateHistory.CreateGoesThrough` | src/headofcontext/tokens/mandates.py:255-301 | a create stores exactly the asked mandate, if and only if the subject asks for itself, for a valid agent and some scope, within the allowed life, and the engine confirms the binding |
| `MandateHistory.IssueReaches` | src/headofcontext/tokens/mandates.py:349-402 | an issue under a mandate in force, by its agent and within its scope, comes to ask the engine for the binding |
| `MandateHistory.IssueSigns` | src/headofcontext/tokens/mandates.py:349-371 | from there it signs one token with that subject, agent, scope and clamped lifetime (zero read as the default), if and only if the engine confirms the binding |
| `MandateHistory.SweepGoesThrough` | src/headofcontext/tokens/mandates.py:115-124 | a sweep of the service marks exactly the active rows whose date has come by its clock read |
| `Policies.EvaluateComposite` | src/headofcontext/actions/policies.py:94-107 | the fold gives the verdict of the first part stricter than all before it that no later part exceeds, or plain ALLOW when no part is stricter, and raises if and only if a part raises |
| `Policies.CompositeLowers` | src/headofcontext/core/policy.py:25-29 | no part of a composite can be bypassed |
| `Policies.DemandsNeverAllows` | src/headofcontext/actions/policies.py:42-60 | an unconditional approval requirement, however deep in composites, never allows a call without an approval |
| `Policies.PolicyMeaning` | src/headofcontext/actions/policies.py:28-107 | over any nesting of composites: a policy raises if and only if a custom part does, denies if and only if some part vetoes (its predicate hits or raises on a matching tool, or it says so), allows if and only if every part lets the call pass (no match, predicate false, or approved), and speaks in a part's own words |
| `Policies.AppliesExact` | src/headofcontext/actions/policies.py:24-25 | a built-in policy speaks about acting on resources that a pattern names, exactly or by prefix, and about nothing else |
| `Decider.AllowNeedsAll` | src/headofcontext/core/decider.py:275-298 | ALLOW if and only if the scope covers, the engine says yes and every part of the policy lets the call pass; a vetoing part denies; the reason is that of the first stage that refuses |
| `Decider.DecideMeaning` | src/headofcontext/core/decider.py:60-92 | `decide` answers if and only if subject and resource are well-formed, and allows if and only if the scope covers, the engine's answer to this question is yes and the policy lets it pass |
| `Decider.DecideChunk` | src/headofcontext/core/decider.py:242-254 | one batch gives each resource the verdict of its own answer, and every failure or wrong length a denial for all |
| `Decider.DecideEach` | src/headofcontext/core/decider.py:144-211 | asks the engine about exactly the resources in scope, in order, at most fifty a call and in as few calls as that takes; every verdict follows an answer the engine gave about its resource, an ALLOW only its yes to the subject, and is that of `decide` in outcome and reason wherever the calls about that resource agree with a single check, whatever the other calls did |
| `Decider.FirstRefusalNone` | src/headofcontext/core/decider.py:236-240 | there is no refusal if and only if the policy allows every resource, and otherwise it is the first one in resource order |
| `Decider.DecideAllMeaning` | src/headofcontext/core/decider.py:213-240 | a set is allowed if and only if every scope target is covered and, unless there is nothing to ask about, one engine call related the subject to all of it and every part of the policy lets all of it pass; with the reason of each case |
| `Decider.DecideAllIsConjunction` | src/headofcontext/core/decider.py:213-240 | when the one batch it makes agrees with single checks, `decide_all` allows if and only if there is a resource and `decide` allows each one |
| `ReadFilter.Collect` | src/headofcontext/read/filter.py:100-106 | the candidates are exactly the valid references that the token permits |
| `ReadFilter.WantedExact` | src/headofcontext/read/filter.py:100-104 | the token is asked about exactly the well-formed document references among the items |
| `ReadFilter.PermittedExact` | src/headofcontext/read/filter.py:102-106 | a candidate is a wanted reference to which the token, asked about all of them at once, says yes; one it does not mention is refused |
| `ReadFilter.KeepsExact` | src/headofcontext/read/filter.py:72-157 | an item is kept if and only if its field is a document reference that token, scope, engine and policy let pass and that, under a listing (chosen by itself above a hundred candidates), the listing shows |
| `ReadFilter.ViaListObjects` | src/headofcontext/read/filter.py:160-185 | keeps candidates that are listed, in scope, confirmed by the engine and allowed by the policy, and none when the listing fails |
| `ReadFilter.FilterItems` | src/headofcontext/read/filter.py:72-138 | kept is, in input order with duplicates, exactly the viewable items, under listing those the listing shows, and dropped names the others in order, when the calls made agree with single checks, and item by item wherever those about its reference do; with any engine no kept item escapes token, scope, engine or policy |
| `ReadFilter.KeptIsSubsequence` | src/headofcontext/read/filter.py:160-185 | for any listing, or a failing one, what is kept is a subsequence of what is viewable |
| `ReadFilter.ListingAgrees` | src/headofcontext/read/filter.py:160-185 | the two strategies keep the same items when the listing shows what the engine relates |
| `Approvals.InMemoryApprovalStore.Create` | src/headofcontext/actions/approvals.py:99-103 | adds a request under a new id and refuses a known one without effect |
| `Approvals.InMemoryApprovalStore.Put` | src/headofcontext/actions/approvals.py:108-112 | replaces a known request and refuses an unknown one without effect |
| `Approvals.InMemoryApprovalStore.CompareAndSet` | src/headofcontext/actions/approvals.py:114-127 | moves the request if and only if its status is an expected one, with the patch, and nothing else changes |
| `Approvals.InMemoryApprovalStore.Consume` | src/headofcontext/actions/approvals.py:129-132 | consumes an approved request and no other |
| `Approvals.InMemoryApprovalStore.Sweep` | src/headofcontext/actions/approvals.py:141-150 | expires exactly the pending requests past their date and counts them |
| `ApprovalSafety.StepKeeps` | src/headofcontext/actions/gate.py:90-257 | every step of every client keeps the invariant, and no row's terms change or status goes back |
| `ApprovalTheorems.LifeNeverGoesBack` | src/headofcontext/actions/approvals.py:347-401 | in every interleaving CONSUMED and EXPIRED are final, nothing returns to PENDING, APPROVED comes from PENDING only, a rejection can only expire, and the bound fields never change |
| `ApprovalTheorems.ExpiredOnlyPastDate` | src/headofcontext/actions/approvals.py:141-150 | in every run, whether a sweep, a redeem or a resolver writes it, a request is EXPIRED only once the clock is past its date |
| `ApprovalTheorems.ResolvedAndConsumedOnce` | src/headofcontext/actions/approvals.py:114-132 | in every run a request is resolved at most once, consumed at most once and only if approved |
| `ApprovalTheorems.LateRedeemNeverClaims` | src/headofcontext/actions/gate.py:184-257 | a redeem whose expiry check saw the clock past the date never consumes |
| `ApprovalTheorems.ConsumedSoonAfterCheck` | src/headofcontext/actions/gate.py:194-257 | a winning claim stamps its own second clock read; the redeem's expiry check came no later than the date and no later than that read, so the stamp passes the date by at most the clock advance between the two |
| `ApprovalTheorems.AllowHasHistory` | src/headofcontext/actions/gate.py:184-243 | every redeem that allows has behind it a gate call for the same chain, tool and arguments, its request, the engine's yes to "is this user approver of this tool" (or the subject with self-approval on), the approval, its own claim, and a fresh pass of scope, engine and policy |
| `ApprovalTheorems.GateNeverAllows` | src/headofcontext/actions/gate.py:90-118 | a gate call on a tool whose approval is demanded is never allowed outright |
| `ApprovalTheorems.AllowsNeverExceedApprovals` | src/headofcontext/actions/gate.py:90-220 | on such a tool, in every run, ALLOW decisions never outnumber consumed requests, which never outnumber approvals |
| `ApprovalTheorems.RejectionChangesIff` | src/headofcontext/actions/approvals.py:363-385 | a step changes a rejected row if and only if a resolver that read it as pending past its date performs its plain write |
| `ApprovalTheorems.RejectionIsFinalIff` | src/headofcontext/actions/approvals.py:363-385 | in every reachable state, every continuation keeps a rejection if and only if no resolver holds a copy of it that it read as pending past its date |
| `ApprovalTheorems.RejectionOverwritten` | src/headofcontext/actions/approvals.py:366-368 | a run in which a rejection becomes an expiry |
| `ApprovalHistory.EverythingServesItsCall` | src/headofcontext/actions/gate.py:90-257 | in every run every client is about the call it began with, every event says what that call asked, every row goes back to a gate call that stamped exactly these terms (caller, tool, hash of the arguments, its clock, the configured time) and its resolution to a resolver asked for exactly that, before the date |
| `ApprovalHistory.LivesItsTime` | src/headofcontext/actions/gate.py:98-118 | in every run a request's date is its creation plus the configured time, and it is EXPIRED only when the clock is past that |
| `ApprovalHistory.GateParks` | src/headofcontext/actions/gate.py:90-118 | a gate call whose decision asks for approval leaves one pending request for exactly this call, and no other row changes |
| `ApprovalHistory.ResolveGoesThrough` | src/headofcontext/actions/approvals.py:347-401 | a resolver of a pending request in date, related to its tool by the engine (or its subject, with self-approval on), resolves it as asked, under its name and clock; a refused one writes nothing |
| `ApprovalHistory.MismatchExact` | src/headofcontext/actions/gate.py:224-257 | a request fits a call if and only if it is approved and tool, chain and arguments are those it was parked for; which mismatch is reported otherwise |
| `ApprovalHistory.RedeemGoesThrough` | src/headofcontext/actions/gate.py:184-243 | a redeem of an approved request in date, for its call, claims it and answers with the fresh decision that carries the approval |
| `ApprovalHistory.LateRedeemExpires` | src/headofcontext/actions/gate.py:194-220 | a redeem of a pending or approved request past its date marks it EXPIRED and is refused for that |
| `ApprovalHistory.SweepGoesThrough` | src/headofcontext/actions/approvals.py:141-150 | a sweep marks exactly the pending rows whose date is before its clock read |
| `RateLimiter.RateLimiter.Evict` | src/headofcontext/api/ratelimit.py:97-111 | drops the full buckets and, if that is not enough, half of the rest, each at least as full as every one kept |
| `RateLimiter.RateLimiter.Open` | src/headofcontext/api/ratelimit.py:79-83 | the key gets a full bucket after room was made by eviction only |
| `RateLimiter.RateLimiter.Acquire` | src/headofcontext/api/ratelimit.py:45-55 | spends one token of the key's credit or answers the exact wait for the next, and leaves other keys alone but for eviction |
| `RateLimiter.RateLimiter.AcquireRequest` | src/headofcontext/api/ratelimit.py:57-77 | an established bearer spends its own credit; a new one spends the address's first, and a refused one opens no bucket |
| `RateTheorems.CreditStable` | src/headofcontext/api/ratelimit.py:97-107 | dropping full buckets leaves the credit of every other key as it was, at every later time |
| `RateTheorems.AdmissionsBounded` | src/headofcontext/api/ratelimit.py:45-95 | in every stretch of every run without a pressure drop of the key, admissions are at most the burst plus `per_minute` for every sixty seconds of it |
| `RateTheorems.NewBearersBounded` | src/headofcontext/api/ratelimit.py:57-77 | an address opens at most that many new bearer buckets |
| `RateTheorems.WaitIsExact` | src/headofcontext/api/ratelimit.py:85-95 | a refused key, left alone, has a token again from the announced moment on and not before |
| `RateTheorems.BurstIsExact` | src/headofcontext/api/ratelimit.py:45-95 | a fresh key is let through exactly `per_minute` times in one instant |
| `RateTheorems.EvictionExact` | src/headofcontext/api/ratelimit.py:97-111 | no full bucket stays; of the others all stay, or from ten thousand on all but a half, those with the most tokens, the longest untouched first among equals |
| `RateTheorems.TableBounded` | src/headofcontext/api/ratelimit.py:79-111 | no table of any run, nor any between the two halves of a request, exceeds MAX_BUCKETS |
| `RateTheorems.EvictionInvisible` | src/headofcontext/api/ratelimit.py:79-111 | every answer of `acquire` is that of a limiter that keeps all buckets, unless the asked key's bucket was dropped under pressure |
| `RateTheorems.RequestSeesTheDrop` | src/headofcontext/api/ratelimit.py:57-77 | after a call that opened another key at the limit dropped its full bucket, a bearer gets the answer that bucket would have given if and only if its address can pay for a new bearer |
| `AuditChain.VerifyRows` | src/headofcontext/audit/chain.py:37-61 | the report is that of the first row that does not belong, with its detail, head and counts, or the exception of an unreadable payload; it is ok if and only if every row belongs |
| `AuditChain.VerifiedSplit` | src/headofcontext/audit/chain.py:37-61 | a + b verifies if and only if a does from the anchor and b does from a's head |
| `AuditChain.SplitReport` | src/headofcontext/audit/chain.py:37-61 | the whole report on a + b is determined by the reports on a and on b from a's head |
| `AuditChain.LastInput` | src/headofcontext/core/events.py:95-96 | the text behind the last row of a verified sequence hashes to its head |
| `AuditChain.TamperEvident` | src/headofcontext/audit/chain.py:37-61 | two sequences verified from one anchor to one head hold the same canonical events, or the comparison extracts from the hashed texts a collision or a text that hashes to the anchor |
| `AuditChain.SameEvents` | src/headofcontext/audit/chain.py:68-85 | with texts that read back, equal canonical texts are equal events |
| `AuditChain.PayloadTextNotPinned` | src/headofcontext/audit/chain.py:53-54 | the event is hashed, not the payload text: a text that reads as the same event verifies as well |
| `AuditSinks.InMemoryAuditSink.Record` | src/headofcontext/audit/memory.py:17-20 | extends an intact chain to an intact chain that reads as before plus the event |
| `AuditSinks.InMemoryAuditSink.VerifyChain` | src/headofcontext/audit/memory.py:30-36 | true if and only if every stored event is chained to its predecessor |
| `AuditSinks.SinksAgree` | src/headofcontext/audit/memory.py:30-36 | rows written from the same events verify if and only if the in-memory chain is intact |
| `AuditSinks.ColumnsAreHashed` | src/headofcontext/audit/chain.py:56-65 | in a row that verifies, each of the seven reporting columns shows what was hashed |
| `AuditSinks.PostgresAuditSink.Record` | src/headofcontext/audit/postgres.py:35-62 | a committed append extends a verified chain, a failed one leaves nothing |
| `AuditSinks.AppendVerifies` | src/headofcontext/audit/postgres.py:35-62 | an append extends a chain verified from an anchor if and only if the table was not empty or the anchor is GENESIS |
| `AuditSinks.Export` | src/headofcontext/audit/postgres.py:93-122 | for every batch size of at least one and every growth of the table between pages, the rows delivered are exactly those of the range in the table at the last query |
| `AuditSinks.ExportIsExact` | src/headofcontext/audit/postgres.py:93-122 | those rows are in increasing order, each once, and are the rows of the range and no others |
| `AuditSinks.ZeroBatchNeverEnds` | src/headofcontext/audit/postgres.py:105-122 | with a batch size of zero no number of queries ends the export and nothing is delivered |
| `AuditSinks.RangeResumes` | src/headofcontext/audit/postgres.py:106-112 | a query from the last delivered number returns exactly what is still to be delivered |
| `AuditSinks.PruneKeepsTheChain` | docs/adr/0025-operating-the-journal-and-the-deployment.md:30-33 | at the first prune and at every later one: after exporting and deleting the rows up to a number, archive and live table verify, and the next append keeps that up if and only if some row survived (or the head is GENESIS) |
| `Connectors.InMemoryConnectorStateStore.AssertFresh` | src/headofcontext/read/connectors/base.py:167-174 | passes if and only if every registered connector has synced recently enough |
| `Connectors.ApplyDifference` | src/headofcontext/read/connectors/base.py:109-114 | whatever the chunking and wherever a call fails, a part of the additions and no removal, or all additions and a part of the removals, took effect |
| `Connectors.Reconcile` | src/headofcontext/read/connectors/base.py:94-144 | a success applies the whole difference and advances the baseline; a failure keeps baseline and sync time, unless only the journal entry after the save failed |
| `Reconciliation.StepKeeps` | src/headofcontext/read/connectors/base.py:94-144 | every step of every sync, overlapping ones of one connector included, keeps the account of what each lone sync has applied |
| `Reconciliation.OthersUntouched` | src/headofcontext/read/connectors/base.py:94-144 | no step touches another connector's tuples, baseline or sync |
| `Reconciliation.FinishIsExactIff` | src/headofcontext/read/connectors/base.py:108-116 | a sync that completes without another of its connector writing in between leaves exactly its snapshot if and only if it started with nothing beyond the baseline that the snapshot does not want and nothing missing from it that the snapshot wants |
| `Reconciliation.RetryConverges` | src/headofcontext/read/connectors/base.py:94-144 | from an agreeing store, after any number of failures, among all other connectors and beside further syncs of the same snapshot, each completing sync leaves exactly the snapshot |
| `Reconciliation.StrayStays` | src/headofcontext/read/connectors/base.py:108-114 | a tuple outside the baseline that no later snapshot wants is never removed |
| `Reconciliation.ChangedSnapshotNeedNotConverge` | src/headofcontext/read/connectors/base.py:102-116 | a run in which a retry with another snapshot leaves a tuple that it does not hold |
| `Reconciliation.OverlapNeedNotConverge` | src/headofcontext/read/connectors/base.py:108-116 | so do two overlapping syncs of different snapshots, without any failure |
| `Reconciliation.AttemptIsRun` | src/headofcontext/read/connectors/base.py:94-144 | every outcome of `Reconcile` is a run of the interleaved model |
| `MemoryStores.InMemoryLedger.Put` | src/headofcontext/memory/ledger.py:22-23 | does what the protocol's record step does, and keeps rows under their own ids |
| `MemoryStores.InMemoryLedger.GetByBackendRef` | src/headofcontext/memory/ledger.py:28-32 | finds what the protocol's ledger read finds: a record with that backend and reference, and none only if there is none |
| `MemoryStores.InMemoryLedger.Delete` | src/headofcontext/memory/ledger.py:34-35 | does what the protocol's record deletion does: exactly that record goes, if there is one |
| `MemoryStores.InMemoryMemoryAdapter.Store` | src/headofcontext/memory/inmemory.py:26-32 | does what the protocol's store step does to its namespace, or fails without effect, and leaves other namespaces alone |
| `MemoryStores.InMemoryMemoryAdapter.Search` | src/headofcontext/memory/inmemory.py:34-44 | up to `limit` distinct texts of the namespace that share a word with the query, best first, none left out that beats one returned, each the text stored under its one reference |
| `MemoryStores.ScoreCountsWords` | src/headofcontext/memory/inmemory.py:34-44 | hits are ranked by the number of words they share with the query |
| `MemorySafety.StepKeeps` | src/headofcontext/memory/service.py:71-343 | every step of remember, rollback, recall, forget and the tamperer keeps the invariant on tuples, ledger, backend and clients |
| `MemoryTheorems.RecallNeedsEverySource` | src/headofcontext/memory/service.py:211-288 | a text is returned only if every reference behind it has its memory's record, and the engine confirmed the reader for every document that memory was written from if and only if the recall read them all; what it did not read was erased from the ledger row and deleted by a forget in between |
| `MemoryTheorems.ConfirmedOnlyIff` | src/headofcontext/memory/service.py:211-288 | at every decision point of every run, every return confirms all sources of a memory if and only if they were all read or nothing can be returned (no scope, an ill-formed source, nothing read and not the owner); what was not read was lost in a race |
| `MemoryTheorems.RecallReturnsItsText` | src/headofcontext/memory/service.py:272-279 | a hit on one reference is the text that was remembered under it |
| `MemoryTheorems.SourcelessGoesToItsOwner` | src/headofcontext/memory/service.py:234-250 | when no memory behind a text has a source and none was tampered with, the reader is the subject all of them were written for |
| `MemoryTheorems.OwnerOnlyIff` | src/headofcontext/memory/service.py:234-257 | at every decision point of every run, only the owner of all memories behind a text can get it if and only if no row and no tuple behind it names a source (or the reader owns them all, lacks the scope, or a source is ill-formed) |
| `MemoryWitnesses.MergedHitSkipsTheOwner` | src/headofcontext/memory/service.py:234-257 | for every two memories that may be written and every reader with both in scope, a run that returns a text built from both to that reader, whoever the sourceless one was written for |
| `MemoryTheorems.RowNotYetCleared` | src/headofcontext/memory/service.py:319-323 | while a record is in the ledger no forget has deleted its tuples |
| `MemoryHistory.RememberAcceptedIff` | src/headofcontext/memory/service.py:71-108 | a remember is accepted if and only if every source is a document, the token and the scope cover the sources (or the memory), one engine call shows the subject to be a viewer of all of them and the policy lets all pass |
| `MemoryHistory.ForgetAcceptedIff` | src/headofcontext/memory/service.py:292-318 | a forget is accepted if and only if the ledger has the memory, it was written for the caller's subject, and token and scope cover it |
| `MemoryHistory.ReturnedIff` | src/headofcontext/memory/service.py:226-279 | a text is returned if and only if token and scope cover every memory behind it, the token, the engine and the policy let every source pass, and without a source the reader is whom all were written for |
| `MemoryHistory.LookupExact` | src/headofcontext/memory/service.py:214-222 | a recall's lookup finds a record under exactly this reference of this backend, and finds none if and only if there is none |
| `MemoryHistory.NothingUnasked` | src/headofcontext/memory/service.py:71-343 | in every run every memory goes back to an accepted remember and holds what it asked; every record that is gone and every forget under way to a permitted forget for the subject the memory was written for; every rollback to its own tuples; every recall to its reader and the hits of its search |
| `MemoryHistory.ForgottenForItsOwner` | src/headofcontext/memory/service.py:299-323 | in every run a memory whose record or tuples a forget deleted was forgotten for the subject it was written for, in scope and permitted |
| `MemoryHistory.WhoRemovesText` | src/headofcontext/memory/service.py:319-335 | in every run a text goes only by such a forget or by the rollback of its own unrecorded remember, and never changes |
| `MemoryHistory.WhoRemovesRecord` | src/headofcontext/memory/service.py:319-343 | in every run a record goes only by such a forget, and changes only in its sources, by tampering |
| `MemoryHistory.WhoRemovesTuple` | src/headofcontext/memory/service.py:319-343 | in every run a tuple goes only by such a forget, by the rollback of its own unrecorded remember, or by tampering |
| `MemoryHistory.ForgetClearsAll` | src/headofcontext/memory/service.py:319-323 | an accepted forget that nothing interrupts removes the text, the record and the source and writer tuples of the memory, and nothing else |
| `MemoryHistory.FailedStoreRollsBack` | src/headofcontext/memory/service.py:118-134 | when the text cannot be stored, tuples and record are taken back, each whether or not taking back the other fails |
| `MemoryHistory.FailedPutRollsBack` | src/headofcontext/memory/service.py:118-134 | when the record cannot be put, the text goes as well, under the same rule |
| `MemoryHistory.RememberKeepsAll` | src/headofcontext/memory/service.py:110-134 | an accepted remember that nothing interrupts leaves its source and writer tuples, its text and its record, and nothing else |
| `MemoryHistory.RememberThenRecall` | src/headofcontext/memory/service.py:71-288 | what was remembered is recalled: record and tuples name exactly its sources, and the text goes to exactly the readers who may read the memory and every source |
| `MemoryHistory.DroppedHitIsOne` | src/headofcontext/memory/service.py:174-195 | a hit that is dropped, for whatever reason, costs no other hit its turn |
| `MemoryWitnesses.RaceReturnsUnchecked` | src/headofcontext/memory/service.py:281-323 | for every memory that may be written and every agent of its subject with it in scope, a run in which the exception happens, whatever the engine would answer |

## Left out

- FastAPI routes, schemas, middleware, CLI, logging, metrics, readiness and settings: input, output and wiring.
- PostgreSQL statements, pools and migrations: the in-memory stores have the same atomicity per call; only the ordered journal table is modelled.
- OpenFGA, OIDC, token exchange and the Nextcloud, PipesHub and Keycloak clients: the engine is an arbitrary function that may fail, a snapshot is an arbitrary set of tuples.
- Biscuit cryptography and Datalog execution: a token is facts and blocks with fresh ids, a check is a predicate, a block is a list of classified lines; of printing only the effect of a newline is modelled, the one character of a valid reference that matters to it.
- Ledger fields that no decision reads (writer, content hash, creation time): not kept in a record.
- SHA-256, JSON and random identifiers: an uninterpreted digest, a codec and freshness.
- Approval channels and notifications, `pending_for`, `list_pending`, `list_for`, `inspect`, decision ids, the root scope kept for display, latencies and audit events of decisions: no effect on what is decided.
- The rounding of the Retry-After header and floating-point rounding of levels: the limiter computes over reals.
- The order in which equal buckets are dropped, equal search hits are listed, candidates are sorted and a connector's tuples are written: any order.
- Mem0, Zep and the embedding search: a hit is any text with any references.
- The limit on recalled memories: a client may stop after any candidate.
- Validation rules for a connector's tuples: a parameter of `Connectors.Reconcile`.
- Token checks of a filter that raise: only their answers are modelled.
- RateTheorems.EvictionInvisible: says nothing about a key once the pressure branch has dropped its bucket, because its answers then do differ.
- AuditSinks.Export: batch sizes below one are excluded, because the loop would not end.
- AuditSinks.PostgresAuditSink.Record: verification of the extended chain is promised for events whose canonical text reads back, which JSON is trusted with.
- MemoryTheorems.RecallNeedsEverySource: failing calls have no effect and tampering touches one of the two copies of a memory's sources, as the design assumes.
- ReadFilter.FilterItems: the subject must be a valid user reference, as the chain that carries it guarantees.
