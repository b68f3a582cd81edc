# daimon, verified

A Dafny model of the parts of the daimon infrastructure-agent control plane whose
correctness depends on interleaving, on text-level reasoning or on arithmetic, with proofs
of what those parts promise. `dafny verify dfyconfig.toml` checks the whole project.

**Guarded writes** (`Policy`, `Approvals`, `KillSwitch`, `GuardProtocol`, `GuardSafety`). Any
number of concurrent broker calls pass a kill check, a first-match policy and possibly an
approval row, on which operators, a polling waiter and an expiry race. The protocol is a
step relation over the rows, the clock, the kill switch with its two background tasks, the
program counters of all calls, the dispatch log and the audit log; every result holds in
every state of every run. Each SQL statement is one atomic step on a map, and other parties
may step at every await.

**The audit chain** (`AuditChain`, `Canonical`). The hash is an arbitrary function to 32
bytes and nothing is assumed of it. That an anchor pins history down is stated as a program
that takes two chains and returns either their agreement or two inputs the hash confuses.

**Validated rendering** (`Params`, `Templates`, `JsonTemplates`, `RouterOs`, `Connector`). The
slot scanners are proved against parse-then-fill; RouterOS command lines are proved to decode
to the request that produced them; loading connector profiles is proved to lose nothing, and
composed with the boot lint and the guard.

**Turns** (`Streaming`, `Chat`, `Gateway`, `Dedup`, `Recall`). A chat turn against an arbitrary
language model and arbitrary tools, streaming assembly against the batch decoder, the batched
reply sink and the gateway handler, the alert dedup cache against unbounded memory, and the
recall packer.

Some expectations turned out false of the code; the model keeps the code and states exactly
when they hold:

- A comment in the SIGUSR1 task says that removing the KILL file resumes the system. Removal
  releases the switch exactly when a watcher tick had seen the file
  (`KillSwitch.RemovalReleasesIffSeen`). A signal followed by a removal before the next tick
  leaves the switch engaged with no file to remove (`KillSwitch.SignalThenQuickRemoval`,
  `KillSwitch.UnseenEngageIsStuck`).
- An approval does not imply a dispatch (`GuardSafety.LateApprovalIsNotDispatched`). The guard
  lets the call through exactly when the waiting call reads its row once more after the
  approval (`GuardSafety.ApprovalCountsIffReadAgain`). Already in the state of the approval it
  is settled, but for a call between its read and a deadline test it may still pass: a call
  bound to read again stays so until it is let through or the database fails it, and one done
  with reading is never let through (`GuardSafety.ApprovalFate`).
- The switch is not read again after the kill check, so a call may be transmitted while it is
  engaged, for exactly the requests the policy does not forbid
  (`GuardSafety.KillDoesNotStopCheckedCalls`), and only if the flag went up after that call's
  own check (`GuardSafety.EngagedDispatchWasCheckedBefore`).
- A canonical audit payload determines its row, among all rows, exactly when no text field
  contains a bar and the metadata hides nothing that reads as a 64-bit latency between bars
  (`Canonical.UnambiguousIff`); otherwise a second row with the same payload is computed
  (`Canonical.Twin`, `Canonical.Shifted`).
- An audit row inserted before the latest one in (ts, id) order is chained to the wrong
  predecessor and breaks verification, unless the hash confuses two inputs
  (`AuditChain.MisplacedInsert`).
- A rendered path keeps the template's segments exactly when no value it uses contains a
  slash (`Templates.PathShapeKeptIff`). The SafeText and Cidr classes admit slashes.
- Stored messages lose their tool calls. A later turn's requests pair tool calls and results
  as a whole exactly when no tool result is among the messages read back
  (`Chat.RequestCoherentIff`, `Chat.ReadBackCoherentIff`); while the window holds the whole
  past, that is when no tool was called in it (`Chat.PairingSurvivesIff`). After a turn that
  called a tool, no later turn's request is in order while one of the results is in the window
  (`Chat.ToolTurnSpoilsLaterTurns`).
- The chat reply to a decision says that nothing was pending exactly when nothing was or the
  database failed (`Gateway.NoPendingSaidIff`), so it misleads exactly when the database failed
  on a pending row.
- The comment on the policy glob speaks of a trailing star as a prefix match; the code gives
  a star a meaning only as a whole last dotted segment (`Policy.GlobIsSegmentMatch`), so `net*`
  does not match `network` (`Policy.StarInsideSegment`).
- The RouterOS catalogue says `dst_address` may name an address list. A name is accepted exactly
  when it is made of hex digits, dots, colons and slashes in the shape of a prefix
  (`RouterOs.DestinationAcceptedIff`); an ordinary name is rejected at its first letter
  (`RouterOs.AddressListNameRejected`).

## Model

| member | source | states |
|---|---|---|
| `GuardProtocol.RunInv` | crates/daimon-broker/src/broker.rs:203-265 | the protocol invariant (rows belong to one gated call each and record what it asked; every cleared or transmitted call is free or has its own approval; log and audit are consistent) holds in every state of every run |
| `GuardProtocol.StepInv` | crates/daimon-guard/src/lib.rs:138-192 | every step of any party keeps the invariant and only extends rows, owners, requests and the dispatch log |
| `GuardProtocol.RunGrows` | crates/daimon-guard/src/approvals.rs:102-180 | along any run no row, request or dispatch disappears or changes what it recorded |
| `GuardSafety.DispatchIsEntitled` | crates/daimon-guard/src/lib.rs:155-190 | every dispatch was free to pass or has an approved row that the same call inserted, with its actor, capability, target and operation and a recorded decider |
| `GuardSafety.DeniedGoesNowhere` | crates/daimon-guard/src/lib.rs:159-161 | a write the rules deny, or no rule matches, is never dispatched and never gets a row; past its kill check it has ended denied or killed |
| `GuardSafety.FreeNeedsNoRow` | crates/daimon-guard/src/lib.rs:152-158 | a request whose descriptor makes it a read, or that the rules allow, never gets a row; past its kill check it is cleared or has ended killed, unresolved or transmitted |
| `GuardSafety.OtherwiseNeedsApproval` | crates/daimon-guard/src/lib.rs:162-190 | every dispatch is of a read, of an allowed name, or of a name under approval with its own approved row; a request without a capability goes by `broker.execute` |
| `GuardSafety.CallsStayOnPath` | crates/daimon-guard/src/lib.rs:146-190 | past the kill check a call is only where its gate can lead |
| `GuardSafety.GatedNeverOutnumberApprovals` | crates/daimon-guard/src/lib.rs:162-190 | at every point of every run the dispatches that needed approval are at most as many as the approved rows |
| `GuardSafety.LintedWritesNeedApproval` | crates/daimon-broker/src/broker.rs:149-224 | once the boot lint accepts the registered set, a dispatched request carrying one of its capabilities is a read or has an approved row, whatever its caller-set flag |
| `GuardSafety.RowsAreWriteOnce` | crates/daimon-guard/src/approvals.rs:102-122 | a row that has left pending is never changed again, and what was asked for never changes |
| `GuardSafety.RefusedNeverDispatches` | crates/daimon-guard/src/lib.rs:177-190 | a call refused for any reason has no dispatch at any point of the run, before or after, late approvals included |
| `GuardSafety.EndedStays` | crates/daimon-broker/src/broker.rs:118-123 | an ended call keeps its outcome for the rest of the run |
| `GuardSafety.LateApprovalIsNotDispatched` | crates/daimon-guard/src/approvals.rs:160-164 | for every gated request there is a run that ends with its row approved, the call timed out and nothing dispatched |
| `GuardSafety.ApprovalCountsIffReadAgain` | crates/daimon-guard/src/approvals.rs:152-165 | for every approval of a pending row in every run, the call that owns the row has been let through by a later point exactly when it read the row in between |
| `GuardSafety.ApprovalFate` | crates/daimon-guard/src/approvals.rs:151-165 | from the state an approval is made in: a waiter that is bound to read stays so until let through or failed by the database, one past its last deadline test or refused is never let through, and besides these the owner can only be before a deadline test it may still pass |
| `GuardSafety.LetThroughIsEntitled` | crates/daimon-guard/src/lib.rs:177-190 | a call let through by the guard, its target resolved or not, was free to pass or has its approved row |
| `GuardSafety.OnlyAReadLetsThrough` | crates/daimon-guard/src/approvals.rs:153-158 | a gated call is let through by nothing but a read of its row |
| `GuardSafety.ReadsAreBounded` | crates/daimon-guard/src/approvals.rs:145-167 | in every run a call that reads its row has started a wait and reads it at most ceil(timeout / poll) + 1 times, for the timeout in force when it started, failed reads included |
| `GuardSafety.GivesUpPastDeadline` | crates/daimon-guard/src/approvals.rs:160-163 | in every run a call about to expire its row, or ended timed out, started a wait whose whole timeout has passed since |
| `GuardSafety.SleepsOneInterval` | crates/daimon-guard/src/approvals.rs:165-165 | a sleeping call sleeps two seconds from a deadline test it passed |
| `GuardSafety.OutcomeHasCause` | crates/daimon-broker/src/broker.rs:203-265 | every outcome has its cause in the run: an engaged switch, a denying policy, a denied own row, an expiry, a failed statement, a failed resolution or the transport call itself |
| `GuardSafety.DenialIsOnRecord` | crates/daimon-guard/src/lib.rs:183-187 | a call that ended denied by an operator has its own row denied by a recorded decider |
| `GuardSafety.ReadOfDeniedRow` | crates/daimon-guard/src/approvals.rs:153-158 | a read of its denied row ends the call as denied |
| `GuardSafety.ExpiryClosesRow` | crates/daimon-guard/src/approvals.rs:169-180 | an expiry that reaches the database leaves no pending row |
| `GuardSafety.TimeoutIsLatestPositive` | crates/daimon-guard/src/lib.rs:108-112 | the timeout in force is the latest positive setting and never zero |
| `GuardSafety.KillDoesNotStopCheckedCalls` | crates/daimon-guard/src/lib.rs:146-151 | some run transmits a request while the switch is engaged exactly for the requests the policy does not forbid |
| `GuardSafety.EngagedDispatchWasCheckedBefore` | crates/daimon-guard/src/lib.rs:146-151 | a call transmitted while the switch is engaged passed its own kill check before the flag went up |
| `GuardSafety.AuditedOnceAndTruthfully` | crates/daimon-broker/src/broker.rs:270-315 | a call is dispatched at most once and audited at most once, and an audited success was dispatched for that actor and target |
| `GuardSafety.TransmittedIsLogged` | crates/daimon-broker/src/broker.rs:258-264 | a call that reached the transport is in the dispatch log with its own request |
| `GuardSafety.NoDispatchFromKillWindow` | crates/daimon-guard/src/lib.rs:146-154 | a call, read or write, whose kill check falls between a finished tick that saw the KILL file and the file's removal never dispatches |
| `GuardSafety.DispatchPassedKillCheck` | crates/daimon-guard/src/lib.rs:146-151 | every dispatch has a kill check of the same call behind it that found the switch released |
| `KillSwitch.LastIsWhatTheTickSaw` | crates/daimon-guard/src/kill_switch.rs:94-119 | in every run `last` is what the latest finished tick saw, an unfinished tick holds what it saw, and between ticks `last` implies engaged |
| `KillSwitch.LoopHeadEngaged` | crates/daimon-guard/src/kill_switch.rs:97-118 | at the head of the watcher loop `last` implies engaged |
| `KillSwitch.OnlyPresentThenAbsentReleases` | crates/daimon-guard/src/kill_switch.rs:100-116 | the flag falls only when the watcher acts on a tick that saw the file absent after one that saw it present |
| `KillSwitch.EngagedWhileFileStays` | crates/daimon-guard/src/kill_switch.rs:100-116 | from a finished tick that saw the file, for as long as the file stays, the flag is up |
| `KillSwitch.RemovalReleasesIffSeen` | crates/daimon-guard/src/kill_switch.rs:100-118 | after a whole tick without file and signal the flag is up exactly when it was up and no tick had seen the file |
| `KillSwitch.UnseenEngageIsStuck` | crates/daimon-guard/src/kill_switch.rs:100-143 | a flag raised without the watcher seeing the file never falls while no file appears |
| `KillSwitch.SignalThenQuickRemoval` | crates/daimon-guard/src/kill_switch.rs:134-143 | that state is reachable by a signal and a removal before the next tick |
| `KillSwitch.SignalIsSeen` | crates/daimon-guard/src/kill_switch.rs:134-143 | a signal whose file is left alone over a whole tick is seen: flag and `last` are up |
| `KillSwitch.SignalEngagesAtOnce` | crates/daimon-guard/src/kill_switch.rs:141-141 | the signal task raises the flag itself |
| `Approvals.ApprovalQueue.Enqueue` | crates/daimon-guard/src/approvals.rs:67-85 | adds one pending row with the request's data and changes no other |
| `Approvals.ApprovalQueue.Decide` | crates/daimon-guard/src/approvals.rs:102-121 | succeeds exactly on a pending row, records decision, decider and time, and leaves every other row and every decided row alone |
| `Approvals.ApprovalQueue.ExpireIfPending` | crates/daimon-guard/src/approvals.rs:169-180 | expires the row only if it is pending |
| `Approvals.WaitForDecision` | crates/daimon-guard/src/approvals.rs:145-167 | returns a decision only for an approved or denied row, gives up only past the deadline, and with a positive poll interval reads the row at most ceil(timeout / poll) + 1 times |
| `Policy.GlobIsSegmentMatch` | crates/daimon-guard/src/policy.rs:116-127 | for every pattern and name the string tests decide: same dotted segments, or a final star segment and the other segments a prefix |
| `Policy.StarInsideSegment` | crates/daimon-guard/src/policy.rs:115-127 | a star inside a segment is no wildcard, as a whole last segment it is |
| `Policy.EvaluateFrom` | crates/daimon-guard/src/policy.rs:99-113 | the named rule matches, decides, and no earlier one matches; when none is named no rule matches and the answer is denial |
| `Broker.LintFrom` | crates/daimon-broker/src/broker.rs:157-190 | the lint accepts exactly the sets in which every compensator is present and no write is allowed outright, and otherwise reports the first incoherent capability |
| `Broker.LintWriteCapabilities` | crates/daimon-broker/src/broker.rs:149-190 | it passes exactly when every compensator names a registered capability and, with a policy, no registered write is allowed |
| `Capabilities.NameIsReadIff` | crates/daimon-core/src/capability.rs:64-71 | a name reads as a read exactly when one of the markers stands somewhere in it |
| `AuditChain.Verify` | crates/daimon-anchor/src/verify.rs:39-82 | reports exactly the rows whose stored hash differs from the hash of their payload with the previous stored hash, each once, in order, with what was expected and found; no breaks iff clean |
| `AuditChain.CleanIffFold` | crates/daimon-anchor/src/verify.rs:39-82 | a chain is clean exactly when its stored hashes are the fold of its payloads from genesis |
| `AuditChain.EditPayload` | crates/daimon-anchor/src/verify.rs:66-75 | editing one payload of a clean chain can break only that row, and does unless the hash confuses the two inputs |
| `AuditChain.EditStored` | crates/daimon-anchor/src/verify.rs:66-80 | editing one stored hash of a clean chain breaks that row and can break only it and the next |
| `AuditChain.DeleteRow` | crates/daimon-anchor/src/verify.rs:66-80 | deleting a row of a clean chain can break only its successor |
| `AuditChain.PrefixClean` | crates/daimon-anchor/src/verify.rs:39-82 | every prefix of a clean chain is clean |
| `AuditChain.Compare` | crates/daimon-anchor/src/canonical.rs:47-52 | two clean chains with one head: agreement of payloads, or an explicit pair of distinct inputs with one hash, or an input that hashes to the genesis value |
| `AuditChain.AnchorPinsHistory` | crates/daimon-anchor/src/snapshot.rs:35-54 | a clean chain whose prefix still matches the anchored count and head carries the anchored payloads, or evidence against the hash is computed |
| `AuditChain.SameCountNeedsNoPreimage` | crates/daimon-anchor/src/snapshot.rs:35-54 | with equal row counts the evidence is a collision pair, never a preimage of genesis |
| `AuditChain.SuffixUnambiguous` | crates/daimon-anchor/src/canonical.rs:47-52 | the fixed 32-byte suffix makes payload and previous hash recoverable from the hashed bytes |
| `AuditChain.AppendStaysClean` | crates/daimon-db/migrations/V020__audit_global_chain.sql:17-50 | the insert trigger keeps a clean chain clean when the new row is last in order |
| `AuditChain.MisplacedInsert` | crates/daimon-db/migrations/V020__audit_global_chain.sql:24-28 | inserted anywhere else it breaks verification or yields evidence against the hash |
| `Canonical.Rfc3339Injective` | crates/daimon-anchor/src/canonical.rs:27-27 | timestamps with equal text at microseconds (section 5.6 of RFC 3339) are equal |
| `Canonical.DecIntInjective` | crates/daimon-anchor/src/canonical.rs:28-28 | the decimal latency text determines the number |
| `Canonical.Rfc3339Layout` | crates/daimon-anchor/src/canonical.rs:27-27 | year, month, day, hour, minute, second and microseconds can be read off their places in the timestamp text |
| `Canonical.DecIntReads` | crates/daimon-anchor/src/canonical.rs:28-28 | the latency text reads back as the number |
| `Canonical.PayloadLayout` | crates/daimon-anchor/src/canonical.rs:29-44 | the nine components stand in the payload in the order of the source, absent ones empty and empty metadata as `{}` |
| `Canonical.FieldsRecoverable` | crates/daimon-anchor/src/canonical.rs:26-45 | without bars in the text fields, cutting at the first eight bars recovers the nine components, bars in the metadata included |
| `Canonical.CanonicalInjective` | crates/daimon-anchor/src/canonical.rs:26-45 | among such rows equal payloads mean equal rows up to absent versus empty and empty metadata versus `{}`, and conversely |
| `Canonical.UnambiguousIff` | crates/daimon-anchor/src/canonical.rs:26-45 | a payload determines its row among all rows exactly when no text field has a bar and no text of a 64-bit latency stands in the metadata at its start or behind a bar, with a bar and more text after it |
| `Canonical.HiddenLatencyIsAmbiguous` | crates/daimon-anchor/src/canonical.rs:29-44 | such metadata yields a different row with the same payload, its fields moved up |
| `Canonical.SecondRowHidesLatency` | crates/daimon-anchor/src/canonical.rs:29-44 | and a second row for a row without bars in its text fields comes from nothing else |
| `Canonical.OutOfRangeIsNoLatency` | crates/daimon-anchor/src/canonical.rs:22-28 | the text of a number outside 64 bits reads as no latency |
| `Canonical.AnchorPinsRows` | crates/daimon-anchor/src/snapshot.rs:35-54 | a clean chain of audit rows that still matches an anchor has the anchored rows up to there, or a collision is computed, for anchored rows whose payload is their own and for rows without bars in text fields |
| `Canonical.TwinSharesPayload` | crates/daimon-anchor/src/canonical.rs:44-44 | a row with a bar in a text field has a computable different row with the same payload |
| `Params.Validate` | crates/daimon-driver/src/param.rs:61-155 | accepts exactly the values its class admits (non-empty and made of its characters, for Cidr in prefix shape; a 64-bit integer; a member of the enumeration); emptiness and disallowed characters are reported exactly when they are there |
| `Params.ReportsFirst` | crates/daimon-driver/src/param.rs:67-80 | the reported character is the first one outside the class |
| `Params.AllowedCharacters` | crates/daimon-driver/src/param.rs:68-130 | the characters of SafeText, Cidr and Identifier, one by one |
| `Params.CidrShapeIs` | crates/daimon-driver/src/param.rs:100-120 | an address alone or in front of a slash and a prefix length up to 128 |
| `Params.IntAcceptedIff` | crates/daimon-driver/src/param.rs:138-143 | a number's own text, with or without sign, is accepted exactly when it fits 64 bits |
| `Params.ClassExcludes` | crates/daimon-driver/src/param.rs:61-155 | no accepted value has braces, quotes, brackets, semicolons or newlines; outside SafeText no spaces; Identifier and Int no slashes or dots |
| `Templates.TokenizeSound` | crates/daimon-driver/src/connector.rs:709-735 | every template reads as a well-formed token list that prints back to it |
| `Templates.TokenizeUnique` | crates/daimon-driver/src/connector.rs:709-735 | and as no other one |
| `Templates.FillSucceedsIff` | crates/daimon-driver/src/connector.rs:709-735 | filling succeeds exactly when every brace is closed and every slot bound, and gives the literals with the slots replaced |
| `Templates.ConnectorSubstitute` | crates/daimon-driver/src/connector.rs:709-735 | the scanner computes parse-then-fill, values never rescanned, and reports the first unclosed or unbound slot |
| `Templates.SkillSubstitute` | crates/daimon-app/src/skills.rs:146-173 | the skill copy agrees on success and result and reports the same slot in its own error |
| `Templates.ExpandConcat` | crates/daimon-driver/src/connector.rs:709-735 | substitution distributes over concatenation at slot boundaries, errors included |
| `Templates.NoOpenBrace` | crates/daimon-driver/src/connector.rs:709-735 | values without an opening brace give a result without one |
| `Templates.PathShapeKeptIff` | crates/daimon-driver/src/connector.rs:640-660 | the segments of a rendered path are the template's segments, each filled on its own, exactly when no used value has a slash; equivalently when the segment count is kept |
| `Templates.LiteralIntact` | crates/daimon-driver/src/connector.rs:709-735 | a segment without slots comes out as it stands |
| `JsonTemplates.FillJsonIff` | crates/daimon-driver/src/connector.rs:739-764 | body substitution succeeds exactly when every string leaf can be filled, and then at every path the shape, keys and non-string leaves are kept and string leaves are filled |
| `JsonTemplates.SubstituteJson` | crates/daimon-driver/src/connector.rs:739-764 | the loops over items and entries compute that substitution, with the first failing leaf's error |
| `RouterOs.BuildCommand` | crates/daimon-driver-firewall-routeros/src/lib.rs:545-619 | refuses exactly what the request interpretation refuses, with the same error, and otherwise prints the command's line, spelled out, which decodes to the capability and every parameter used, the optional ones included |
| `RouterOs.ReadsMean` | crates/daimon-driver-firewall-routeros/src/lib.rs:550-553 | the four reads stand for their commands whatever the parameters |
| `RouterOs.AddMeans` | crates/daimon-driver-firewall-routeros/src/lib.rs:554-582 | a request is a drop rule with given values exactly when each value stands under its key and is of its class |
| `RouterOs.RemoveMeans` | crates/daimon-driver-firewall-routeros/src/lib.rs:583-591 | a request removes a rule exactly by the identifier under `match` |
| `RouterOs.ImportMeans` | crates/daimon-driver-firewall-routeros/src/lib.rs:592-605 | a request imports exactly the file under `file` for the user under `user`, each of its class |
| `RouterOs.DeleteMeans` | crates/daimon-driver-firewall-routeros/src/lib.rs:607-616 | a request removes exactly the key with the integer under `number` |
| `RouterOs.KindOfCommand` | crates/daimon-driver-firewall-routeros/src/lib.rs:549-618 | each kind of command comes from its own name, and every other name is unknown |
| `RouterOs.DecodesPrinted` | crates/daimon-driver-firewall-routeros/src/lib.rs:545-619 | decoding undoes printing for every command with parameters of their classes |
| `RouterOs.BuildAdd` | crates/daimon-driver-firewall-routeros/src/lib.rs:554-582 | the line built by appending is that of the drop rule the request stands for, or its first error is returned |
| `RouterOs.DecodeAddTail` | crates/daimon-driver-firewall-routeros/src/lib.rs:569-582 | the optional parts are told apart whichever of them are present |
| `RouterOs.AddAcceptedIff` | crates/daimon-driver-firewall-routeros/src/lib.rs:554-582 | a drop-rule request is accepted exactly when its destination is there and of the Cidr class and every optional part that is there is of its class |
| `RouterOs.DestinationAcceptedIff` | crates/daimon-driver-firewall-routeros/src/lib.rs:558-566 | a bare destination is accepted exactly when it is non-empty, made of hex digits, dots, colons and slashes, and in prefix shape |
| `RouterOs.AddressListNameRejected` | crates/daimon-driver-firewall-routeros/src/lib.rs:535-540 | a plain address-list name is rejected at its first letter |
| `Connector.Project` | crates/daimon-driver/src/connector.rs:589-604 | an explicit read-only mark makes a capability a read only together with a read name, and drops the write dispositions, which are carried over otherwise |
| `Connector.SchemaSays` | crates/daimon-driver/src/connector.rs:608-624 | the contract shown asks for every parameter, for an integer exactly where the class is one |
| `Connector.GroupByClass` | crates/daimon-driver/src/connector.rs:423-432 | grouping is a stable partition: one group per occurring class, holding its profiles in order |
| `Connector.FromProfiles` | crates/daimon-driver/src/connector.rs:446-497 | registers the declarations of its class in order, and finds exactly the registered names, the last declaration winning |
| `Connector.FromGroup` | crates/daimon-driver/src/connector.rs:433-440 | from a group of one class nothing is skipped |
| `Connector.FromDir` | crates/daimon-driver/src/connector.rs:423-442 | one driver per occurring class, each holding all declarations of its class |
| `Connector.LoadingConserves` | crates/daimon-driver/src/connector.rs:423-497 | what the drivers register together is what the profiles offer, with multiplicity |
| `Connector.AttachedIsRegistered` | crates/daimon-driver/src/connector.rs:509-553 | every registered capability can be dispatched, and the descriptor a dispatch attaches is a registered one of that name |
| `Connector.AttachedIsListedIff` | crates/daimon-driver/src/connector.rs:551-553 | each listed descriptor is the attached one exactly when no two listed descriptors of one name differ |
| `Connector.ValidateAll` | crates/daimon-driver/src/connector.rs:527-538 | all declared parameters present and valid, or the first fault in order |
| `Connector.FaultIs` | crates/daimon-driver/src/connector.rs:529-537 | a parameter is faultless exactly when it is there and of its class, and missing exactly when it is not there |
| `Connector.ExtractedFrom` | crates/daimon-driver/src/connector.rs:629-636 | a parameter is taken from the string, number or truth value under its name |
| `Connector.RenderedByKind` | crates/daimon-driver/src/connector.rs:640-700 | an operation results exactly when it is of its transport's kind and made of the declared texts, filled: verb, path, body and authentication; command and the right timeout; walk or get |
| `Connector.RenderOp` | crates/daimon-driver/src/connector.rs:640-700 | the REST, SSH or SNMP operation is the declared template filled from the values, or the first error |
| `Connector.Dispatch` | crates/daimon-driver/src/connector.rs:509-560 | what reaches the broker is rendered from validated values only, under a registered descriptor of the requested name; failures are unknown name, first faulty parameter, unfillable template or bad target |
| `Connector.RequestKeepsShape` | crates/daimon-driver/src/connector.rs:640-660 | with Identifier and Int parameters the path keeps the template's segments and the body its tree |
| `Connector.SafeTextAddsSegment` | crates/daimon-driver/src/param.rs:63-80 | a SafeText value with a slash changes the path's shape |
| `ConnectorSafety.ConnectorWritesNeedApproval` | crates/daimon-driver/src/connector.rs:551-560 | after an accepted boot lint no write declared in a profile is dispatched without an approval, in any run and with any duplicate names |
| `Streaming.StreamingAgreesWithBatch` | crates/daimon-llm/src/anthropic.rs:121-160 | for any blocks, split in any way, with any ignored events between: the stop reason for the provider's word and its usage, nothing pending, the batch text exactly when no text start carries text, the batch tool calls in order exactly when each input's pieces parse to it |
| `Streaming.ReadStream` | crates/daimon-app/src/chat.rs:456-520 | the stream loop computes the fold of the deltas, up to the first error |
| `Streaming.ReadTruthful` | crates/daimon-app/src/chat.rs:456-503 | for every stream the emitted tokens concatenate to the kept text, the notices are the kept calls in order, and nothing terminal is emitted |
| `Streaming.NoiseDoesNotMatter` | crates/daimon-llm/src/anthropic.rs:145-160 | ignored events do not affect the delta stream |
| `Streaming.UndecodableBreaks` | crates/daimon-llm/src/anthropic.rs:121-160 | reading stops at the first event that cannot be decoded, with its message and what came before |
| `Chat.HandleChatSend` | crates/daimon-app/src/chat.rs:307-779 | for any model and tools: at most eight requests, exactly one terminal event, last but for exactly one finish; what is shown, asked, pushed to working memory and how it ends are those of the rounds |
| `Chat.Converse` | crates/daimon-app/src/chat.rs:423-771 | every round but the last asked for tools, each request extends the one before by the assistant message and its results, and only the eighth may be cut off by the budget |
| `Chat.RunRound` | crates/daimon-app/src/chat.rs:430-592 | one pass goes on exactly when the stream ended asking for tools, and otherwise ends the turn accordingly |
| `Chat.RunTools` | crates/daimon-app/src/chat.rs:593-771 | one result message and one result event per call, in order, on the memory path and the bus path |
| `Chat.RoundFollowsProvider` | crates/daimon-llm/src/anthropic.rs:302-310 | a complete reply leads to another round exactly when the provider says it wants tools, and otherwise ends the turn under the name of what it says, with its token counts |
| `Chat.EndingOnFailure` | crates/daimon-app/src/chat.rs:425-455 | a reply that cannot start or breaks ends the turn with its message, the eighth round that wants tools with the exhausted budget |
| `Chat.RoutedByName` | crates/daimon-app/src/chat.rs:600-600 | a tool call goes to the memory tier exactly by its name's prefix |
| `Chat.AddedIsShown` | crates/daimon-app/src/chat.rs:522-530 | what the model is told next is what the user was shown: text, calls and outputs |
| `Chat.LastRoundIsShown` | crates/daimon-app/src/chat.rs:505-530 | a round that ends the turn shows what it streamed, and its message is kept unless the stream failed |
| `Chat.ToldInSession` | crates/daimon-app/src/chat.rs:462-503 | all that a turn shows goes to its own session |
| `Chat.RequestsCarryTheTurn` | crates/daimon-app/src/chat.rs:433-441 | every request has the model, prompt and session of the turn and the history plus what the rounds left in working memory |
| `Chat.UserIsHeard` | crates/daimon-app/src/chat.rs:362-363 | the user's message stands in every request behind the messages read back |
| `Chat.RequestsAreAnswered` | crates/daimon-app/src/chat.rs:522-530 | in every request of a turn each assistant message it added is followed, before the next, by exactly one tool result per call, in order and with its id |
| `Chat.RequestCoherentIff` | crates/daimon-app/src/chat.rs:351-365 | the whole of every request, earlier turns included, pairs tool calls and results exactly when no tool result is among the messages read back |
| `Chat.ReadBackCoherentIff` | crates/daimon-app/src/chat.rs:781-795 | what a later turn reads of any past through a window of any size is in order exactly when the window has no tool result, wherever it cuts |
| `Chat.PairingSurvivesIff` | crates/daimon-app/src/chat.rs:781-795 | while the window holds the whole past, the pairing survives exactly when no tool was called |
| `Chat.ToolTurnSpoilsLaterTurns` | crates/daimon-app/src/chat.rs:351-363 | after a turn with a round that called a tool, while one of its results is in the window, no request of a later turn pairs tool calls and results, whatever was stored before and after |
| `ReplySink.BufferSink.Emit` | crates/daimon-gateway/src/reply_sink.rs:115-131 | buffers text and errors, and an error always leaves a visible buffer |
| `ReplySink.BufferSink.Finish` | crates/daimon-gateway/src/reply_sink.rs:132-147 | exactly one send, of the buffer or the placeholder; the silent return is not reached; a sink that had an error is spent |
| `ReplySink.ErrorIsVisible` | crates/daimon-gateway/src/reply_sink.rs:118-124 | one more event keeps it so that an error leaves a visible buffer |
| `ReplySink.FailureIsVisible` | crates/daimon-gateway/src/reply_sink.rs:115-131 | no event sequence on a fresh sink leads to an error with a blank buffer, and the error mark is set exactly when an error was emitted |
| `ReplySink.OngoingIsShown` | crates/daimon-gateway/src/reply_sink.rs:115-131 | without an error the reply is the concatenated tokens |
| `ReplySink.Deliver` | crates/daimon-gateway/src/reply_sink.rs:115-147 | a turn's calls on a fresh sink cause exactly one send, of the coalesced text |
| `ReplySink.ReplyOfTurn` | crates/daimon-gateway/src/reply_sink.rs:115-147 | the reply is the text shown or the placeholder, and after a failure the marked error behind it on a line of its own |
| `Gateway.Handle` | crates/daimon-app/src/gw.rs:84-178 | every inbound message causes exactly one send; without a bound identity nothing runs, no row changes and the reply is the text for an unenrolled sender or a failed lookup; otherwise it is a decision, or a turn whose reply is what its rounds said and how it ended, or why it could not start |
| `Gateway.DecideOverChat` | crates/daimon-app/src/gw.rs:194-245 | the inbox changes only by the decision of an approver or admin, and the reply is the one for role, guard, row and database outcome |
| `Gateway.NoPendingSaidIff` | crates/daimon-app/src/gw.rs:236-243 | an approver is told that nothing was pending exactly when nothing was or the database failed |
| `Gateway.OnlyApproversDecide` | crates/daimon-app/src/gw.rs:202-228 | a row changed over chat was pending, and now carries the decision and the identity of a bound approver or admin |
| `Gateway.DecisionTakesEffect` | crates/daimon-app/src/gw.rs:202-235 | when a bound approver or admin decides a pending row, exactly that row gets exactly that decision, and the reply names it |
| `Gateway.CommandIsRead` | crates/daimon-app/src/gw.rs:252-263 | a verb, whitespace and an id, with blanks around, is read as the approval or denial the verb says, in any case |
| `Gateway.ReadIsCommand` | crates/daimon-app/src/gw.rs:252-263 | and nothing else is read as a command |
| `Gateway.CommandDecidesRow` | crates/daimon-app/src/gw.rs:159-164 | such a command from an approver approves or denies exactly the pending row it names |
| `Gateway.BareDecidesIff` | crates/daimon-app/src/gw.rs:268-281 | a reply decides exactly when the first of its own words is one of the three for yes or the three for no |
| `Gateway.ReplyDecidesRow` | crates/daimon-app/src/gw.rs:133-157 | such a reply from an approver approves or denies exactly the row it replies to |
| `Gateway.OwnLines` | crates/daimon-app/src/gw.rs:269-273 | a reply's own words are those of its unquoted lines, line by line |
| `Gateway.QuoteSignQuotes` | crates/daimon-app/src/gw.rs:271-271 | a line is quoted exactly when its first visible character is the quote sign |
| `Gateway.DecisionOfMessage` | crates/daimon-app/src/gw.rs:133-164 | a reply to an alert that says yes or no decides that alert, any other message only as a command |
| `Gateway.OtherwiseATurn` | crates/daimon-app/src/gw.rs:166-178 | any other message is a turn with that text in the session of its conversation, on the default model |
| `Gateway.QuoteNeverDecides` | crates/daimon-app/src/gw.rs:268-281 | a quoted line in front of a reply changes nothing about the decision read from it |
| `Dedup.CacheAgreesWithMemory` | crates/daimon-app/src/alert_router.rs:118-130 | for any calls at non-decreasing times the cache answers as unbounded memory would, and admissions of one signature are at least a window apart |
| `Dedup.DedupCache.Admit` | crates/daimon-app/src/alert_router.rs:118-130 | refuses exactly when the signature was admitted less than a window ago |
| `Dedup.EntriesAreYoung` | crates/daimon-app/src/alert_router.rs:121-122 | after a call every entry is younger than the window exactly when the window is positive |
| `Recall.PreTurnRecall` | crates/daimon-memory/src/dmem_http.rs:260-319 | degraded exactly on a failed recall; otherwise the block is the longest prefix of the deduplicated typed-then-docs lines that fits, shorter than eight times the budget |
| `Recall.Pack` | crates/daimon-memory/src/dmem_http.rs:294-319 | the greedy loop packs exactly that prefix and never underflows |
| `Recall.TypedMembers` | crates/daimon-memory/src/dmem_http.rs:55-60 | filtering keeps exactly the entries of a typed kind |
| `Recall.TypedConcat` | crates/daimon-memory/src/dmem_http.rs:276-279 | and goes part by part, in order |
| `Recall.EstTokens` | crates/daimon-memory/src/dmem_http.rs:64-66 | four characters to a token, rounded down, and never free |
| `Recall.KeepFirstDistinct` | crates/daimon-memory/src/dmem_http.rs:294-300 | deduplication loses no uri and repeats none |
| `Recall.BlockBound` | crates/daimon-memory/src/dmem_http.rs:64-66 | the joined block has at most 4 * (costs + lines) - 1 characters, and lines are at most the costs |

## Left out

- Assumed throughout: row ids are fresh; `decide` is called only with approved or denied; a test for the KILL file reports the truth (an I/O error counts as absent in the code); timestamps lie in the years 0 to 9999.
- Database, vault, transport, model and bus calls: their answers are parameters or steps that may fail; SQL statements are atomic.
- A broker without a guard: the protocol is stated with the guard attached, as production wires it.
- The kill reason text, the awaiting-approval envelope and `list_pending`: no decision depends on them.
- `Chat.HandleChatSend`: model and effort validation, client selection, conversation loading and the system prompt enter as given values; pushes to working memory are taken to succeed, and the durable mirror and the audit of model calls are fire-and-forget and are not modelled.
- `Chat.RunTools`: how a bus reply or a capture is turned into output text is not modelled; the text and error flag are arbitrary.
- `Streaming.StreamingAgreesWithBatch`: the JSON parser is an arbitrary partial function, and only the two token counts a turn reports are kept of the usage record.
- `RouterOs.BuildCommand`: error messages are reduced to the missing parameter's name; the driver's `build_exec_request` and `build_capabilities` would only add table lookups.
- `Gateway.Handle`: identity and reply lookups are given; uuids are read and shown by arbitrary functions; the webhook route and pollers are not modelled.
- `Connector.Dispatch`: target parsing is given, the broker's description of an operation is an arbitrary function, and results are not parsed; TOML loading and the auth block are not modelled.
- `Skill::instantiate`: beyond its scanner it would repeat the connector's validation loop.
- The other model providers, orchestrator, runtime bus, inventory, IAM, settings and user interface.
