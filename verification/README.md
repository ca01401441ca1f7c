# Neuro-Mesh: a verified model of its consensus node

Neuro-Mesh nodes watch hosts for anomalies and agree, by a PBFT-style vote, on isolating or banning a target.
This project models the part of a node that decides and records: the vote engine, the node code that feeds it and
sends its votes, the discovery code that decides whose key may vote, the hash chain that proves what was decided,
and the codecs in between (VOTE wire format, Base64, journal, telemetry framing). Every theorem is for all inputs,
all runs or all reachable states; the code's own behaviour is kept where it differs from what the documentation says.

## What the modules are

| module | what it holds |
|---|---|
| `Wrappers`, `Symbolic`, `Delimited`, `Decimal` | optional values; text whose symbols are characters or digests; cutting text at a delimiter; decimal print and parse |
| `RateLimit`, `Pbft` | the sliding-window limiter and the vote engine as functions on its state, one `Op` for each locked method |
| `PbftEngine` | the engine as a class with the fields of the original, each method proved to compute its function in `Pbft` |
| `PbftRegistry`, `PbftMembership`, `PbftQuorum`, `PbftBans`, `PbftRounds`, `PbftLimiter`, `PbftText` | what every run of the engine keeps |
| `PbftVotes`, `PbftReplay`, `PbftEquivocation`, `PbftTrust`, `PbftSequence` | what the engine's calls do, told from who voted and what was taken in: votes, repeated messages, contradicting ones, trust and bans, sequence numbers |
| `Quorums`, `Paths`, `Network` | counting arguments; runs of a transition relation; n nodes with up to f faulty ones exchanging signed votes |
| `RunExists`, `Misreading` | that every such network can execute; exactly which proposals it can execute as something else |
| `NodeSpec`, `NodeAnswers`, `OwnRounds` | the node's calls as functions; how it answers received votes; what becomes of its own |
| `CommitSigs`, `OwnVotes`, `MeshNode` | COMMIT signatures; own votes shut out; the node as a class, proved to compute those functions, and the audit trail |
| `PeerTrust`, `PeerSteps`, `PeerLiveness` | dual-path trust on first use, by whole greetings and by single locked calls; who is stale |
| `Merkle`, `ProofChain` | the hash chain, its Merkle root with lazy cache, sibling paths and their verification |
| `Base64`, `VoteWire`, `Journal`, `JournalRead`, `Framing` | the codecs |

## How the model reads the source

- SHA-256 is an ideal hash: a digest is a free constructor over the text it was made from. Ed25519 is unforgeable:
  the only signature that verifies for a key and a blob is the one made with that key over that blob.
- Each mutex-guarded method is one atomic step; `advance_state` and `verify_message` read the clock once per call.
- 64-bit sequence numbers, their wrapping predecessor and the wrapping gap test, and the 32-bit accumulator of the
  Base64 decoder are modelled with their wrap-around. Trust scores are counted in units of 0.05.
- The calls of the node are functions of its state and of what each vote meets on its way: the clock at verify_message, at
  advance_state and at the proof chain, and what is evicted (`NodeSpec.Tick`); the class returns these as ghost results.
- Clock readings, which half of the seen-message set is dropped, whether a journal rotation succeeds, and the size of
  the peer registry seen by the node are inputs, so the theorems hold for every value of them.
- In `Network` an honest node signs any PRE_PREPARE, whatever its target and evidence, and PREPARE or COMMIT only for a pair
  whose stage its own `advance_state` reported. Messages of others come through the guards of the receiver; a node's own
  votes are handed back to it without them. The class `MeshNode.Node` keeps the same permits and casts each message by
  exactly the network's receive and count steps. Its invariant says that every vote it sent meets `Network.MaySend`, the
  whole condition under which the network lets an honest node broadcast: the permit, a stage and a previous hash without
  bars, and the round key of the signed pair.
- The invariants of the engine take the message hash and the round key as inputs of `Advance`, so they hold for any
  hash function; the theorems about signed texts, the network and the audit trail use that hashing is injective.

## Where a promise holds only under a condition

Each is proved as an if-and-only-if or with a concrete input beside the theorem.

- Quorum overlap. `README.md:50` of the repository speaks of 2f+1 of N=5 nodes. Two quorums of the implemented size are
  certain to share a node that is not faulty exactly when n leaves remainder 1 divided by 3 (`Quorums.HonestOverlapExact`);
  for five nodes two quorums of three may share only the faulty one (`Quorums.QuorumsMayMiss`).
- Merkle proofs. An unpaired last node is hashed on its own, but the path gets no entry for that level. So the path of
  leaf k verifies exactly when no ancestor of k is an unpaired tail, and all paths verify exactly for sizes that are powers of two.
- The node count. `prune_peer` lowers n for unknown ids as well; n stays the number of registered peers exactly when
  the id is registered if and only if n is at least two (`PbftMembership.PruneCount`).
- Signed texts. `sign_message` joins target and evidence with a bar, and `initiate_consensus` signs any target; the IPC
  commands pass any without a space (`main.cpp:433-494`). A receiver can take the signed text for another proposal if and only
  if the target's part before its first bar is an id and a brace follows the bar (`PbftText.MisreadIff`,
  `Network.ReadOtherwiseIff`). With such a target, in every setup of two nodes or more, an honest node executes a round nobody
  proposed and no honest node stands behind (`Misreading.MisreadExecutes`); without such proposals every execution is backed
  (`Network.ExecutedIsBacked`). So both safety theorems hold if and only if no proposed target can be misread
  (`Misreading.SafeIff`, `Misreading.SharesIff`).
- Round keys. Evidence and target are joined with a bar before hashing. Two targets can make one round out of two different
  pairs if and only if one of them ends with a bar and the other (`PbftText.RoundKeyCollidesIff`); evidence that starts with
  a brace, as every way in demands, does it then. So a decision link carries the node's COMMIT signature for its round always,
  and for exactly its evidence and target if and only if no target the node committed itself can be confused with the link's
  (`CommitSigs.RoundSignedExactIff`, `MeshNode.TrailExactIff`); otherwise a wrong one is recorded (`MeshNode.ConfusedLink`).
- VOTE messages. The receiver recovers the vote that was sent if and only if its target has no bar and its conditions hold
  (`VoteWire.VoteRoundTripIff`). Of a target with bars it takes the pieces for later fields (`VoteWire.VoteReceived`), and what
  it accepts of a target with one bar has the previous hash for its signature (`VoteWire.OneBarReading`, `VoteWire.ShiftedVote`).
- Trust on first use. The guarantee holds however handlers interleave, as long as every confirmation that finds no confirmed
  path finds no other stored key, no unpin falls between the two confirmations, and a heartbeat after an unpin brings a key the
  confirmed paths had confirmed (`PeerSteps.InterleavedDualSound`). For each locked call the condition is exact: a call that
  breaks it can be followed by an unsound dual answer, and one that keeps it cannot (`PeerSteps.NextSoundIff`).
- Unpinning. `consensus/MeshNode.cpp:1745-1746` announces that the next beacon will be accepted with a new key. The confirmed
  paths are kept, so an unpinned peer is accepted exactly on a path that had not confirmed it (`PeerTrust.UnpinAcceptsIff`), and
  one confirmed on both is refused until it is removed (`PeerTrust.StuckUntilRemoved`). An unpin leaves dual results sound if
  and only if it does not come between the two confirmations (`PeerTrust.UnpinSoundIff`); in between, the other path is
  dual-confirmed with any key (`PeerTrust.UnpinLetsAnyKeyIn`).
- Provisioned keys. A provisioned peer's entry holds the provisioned key if and only if a greeting with that key made it, or it
  was made or left without a key and has been greeted with that key since (`PeerTrust.ProvisionedKeyHeldIff`).
- Proofs by number. `get_proof_path` takes a sequence number and uses it as an index; the link found is that number if and only
  if nothing was evicted, wrap-around aside (`ProofChain.IndexIsNumberIff`).
- Journal recovery. Stage and target are written unescaped, so a newline in one makes stray lines. Reopening recovers the last
  number if and only if no stray line still in the file exceeds it (`Journal.RunRecoversIff`); a target may put any number on
  such a line (`Journal.TargetNumbers`). After a torn write, the next one-line append is recovered exactly when the
  unterminated end of the file does not contain the text that `extract_seq` looks for (`Journal.AppendRecoversIff`).
- Journal lines. A line gives its fields back if and only if stage, target and hash have no quotes (`JournalRead.LineReadsIff`);
  only the evidence is escaped.
- Repeated messages. A message is refused as a repeat only while its hash is kept: past 100000 hashes half of them go
  (`PbftReplay.MovesOnce`).
- Own votes. A node's own vote passes its own `verify_message` exactly when nothing of its own is on record or the vote
  directly before is (`CommitSigs.OwnVoteVerifiesIff`). After one own vote over the node's own rate limit no later own vote
  verifies, and with the ninety-ninth more the node has banned itself (`OwnVotes.OneLimitedVoteShutsOut`).

Other behaviour of the code that the theorems reflect: votes are counted before the view check, so one quorum may hold
votes of different views; the intersection test passes when fewer than a quorum have prepared, hence the two-part
conclusion of `PbftQuorum.ExecutedStep`; `record_equivocation` raises the failure count without the ban check; a local ban
leaves votes already counted, and only an auto-ban erases them; an empty signature loses the ninth token of a VOTE.

## Model

| member | source | states |
|---|---|---|
| `Network.ExecutedIsBacked` | consensus/PBFT.hpp:246-325 | In every reachable state of n nodes with at most f=(n-1)/3 faulty in which no honest node has proposed a target that can be misread, an EXECUTED round at an honest node means at least f+1 honest nodes broadcast COMMIT after advance_state showed them a PREPARE quorum whose honest members all signed PREPARE, and at least f+1 honest nodes broadcast PREPARE after a counted proposal; `Misreading.SafeIff` shows that the condition is exact |
| `Network.ExecutionsShareCommitter` | consensus/PBFT.hpp:353-354 | With n=3f+1 and no proposed target that can be misread, any two executions at honest nodes, of one round or two, have an honest committer in common; `Misreading.SharesIff` shows that the condition on targets is exact |
| `Misreading.SafeIff` | consensus/MeshNode.cpp:1403-1430 | For every setup of at least two nodes and every set of targets that honest nodes may propose: all executions in all runs are backed by f+1 honest committers and f+1 honest preparers if and only if none of these targets can be misread |
| `Misreading.SharesIff` | consensus/PBFT.hpp:353-354 | For every setup of n=3f+1, at least two, nodes: any two executions in any run share an honest committer if and only if none of the targets that honest nodes may propose can be misread |
| `Misreading.MisreadExecutes` | consensus/MeshNode.cpp:1215-1261 | For every target that can be misread and every setup of at least two nodes there is a run in which one honest node proposes it, with accepted evidence, nobody honest proposes anything else, and another honest node executes a round that nobody proposed, with no honest preparer and no honest committer |
| `Misreading.OwnProposalCounted` | consensus/MeshNode.cpp:1459-1466 | In that run the proposer does as the code does: its own vote, handed back to it, verifies and is counted, and permits its PREPARE for the pair it signed |
| `Misreading.SameHash` | consensus/PBFT.hpp:118-124 | The proposal has one message hash however its text is cut, so the proposer's next vote chains for the receivers too |
| `Misreading.MisreadExample` | main.cpp:433-461 | A concrete case: a target of "b", a bar and "{x}", with the evidence "{}", is signed as one text with the target "b" and evidence a receiver accepts |
| `Network.StepOk` | consensus/MeshNode.cpp:1263-1281 | Every receive, count, broadcast and local engine call of any node keeps the network invariant as long as no honest node proposes a target that can be misread: counted honest votes were signed, and signed votes were permitted by an advance_state result for that very pair |
| `Network.ReachesOk` | consensus/MeshNode.cpp:1459-1477 | The invariant holds in every such state reachable from the initial one, under loss, repetition and reordering; targets with bars and a node's own votes handed back to it included |
| `Network.VoteNamesRoundIff` | consensus/MeshNode.cpp:1430-1435 | In every run, a vote an honest node signed for the round key of a pair is for that pair if and only if neither target ends with a bar and the other |
| `Network.ReadOtherwiseIff` | consensus/MeshNode.cpp:1215-1253 | A receiver accepts a different target or evidence with the signature of a vote if and only if the target can be misread: its part before the first bar is an id and a brace follows the bar |
| `RunExists.ExecutionHappens` | consensus/MeshNode.cpp:1459-1477 | Whoever the faulty nodes are, for every evidence and target that a receiver accepts some run takes the round to EXECUTED at every honest node, without a target to be misread; so the hypotheses of the safety theorems are met for every setup whose ids a VOTE can carry |
| `RunExists.RunToExecuted` | consensus/MeshNode.cpp:1253-1281 | Once its proposer's PREPARE vote is counted, as the receivers read it, a quorum of receivers and faulty nodes takes the round to EXECUTED at all receivers, and nothing else is proposed or counted as a proposal on the way |
| `RunExists.CastAll` | consensus/PBFT.hpp:246-325 | One vote of a receiver or of a faulty node, received and counted by every receiver, takes all of them from one point of the round to the next and permits the stage that follows |
| `RunExists.VerifiesTracked` | consensus/PBFT.hpp:136-183 | A member's next vote, signed and chained from its last one, verifies at every honest node |
| `RunExists.CountAt` | consensus/PBFT.hpp:246-325 | How each vote moves the tally and the round: not before the quorum, and then by one stage |
| `Quorums.QuorumHonest` | consensus/PBFT.hpp:353-354 | A quorum contains at least f+1 nodes that are not faulty |
| `Quorums.Overlap` | consensus/PBFT.hpp:556-580 | Two sets among n nodes share at least the sum of their sizes minus n |
| `Quorums.QuorumsShareHonest` | consensus/PBFT.hpp:353-354 | For n=3f+1 two quorums share a node that is not faulty |
| `Quorums.QuorumsMayMiss` | consensus/PBFT.hpp:353-354 | For every other n there are two quorums and f faulty nodes with no honest node in common |
| `Quorums.HonestOverlapExact` | consensus/PBFT.hpp:353-354 | Two quorums always share an honest node if and only if n leaves remainder 1 divided by 3 |
| `PbftQuorum.RunBacked` | consensus/PBFT.hpp:276-311 | In every state reachable with fixed membership a COMMIT or EXECUTED round has a quorum of PREPARE voters, and an EXECUTED round a quorum that voted both PREPARE and COMMIT |
| `PbftQuorum.StepBacked` | consensus/PBFT.hpp:246-325 | Each call that does not change the membership keeps that property, the rolled-back COMMIT vote included |
| `PbftQuorum.ExecutedStep` | consensus/PBFT.hpp:293-324 | With any membership, an EXECUTED result comes from a COMMIT message, with a quorum of COMMIT votes and either the intersection or fewer than a quorum of PREPARE votes |
| `PbftBans.BanIsPermanent` | consensus/PBFT.hpp:190-192 | Once banned, no sequence of calls unbans an id or adds it to a voter set or history, and advance_state from it returns IDLE and changes nothing |
| `PbftBans.AutoBanErases` | consensus/PBFT.hpp:634-674 | A ban imposed by verify_message or advance_state hits the sender and leaves neither key, vote nor history |
| `PbftBans.AutoBannedStaysAbsent` | consensus/PBFT.hpp:379-390 | After an auto-ban the id is in no voter set and has no history in any later state |
| `PbftRounds.RoundsMoveOneStep` | consensus/PBFT.hpp:253-325 | Every call moves every round at most one step along IDLE, PREPARE, COMMIT, EXECUTED, except that a stale round is first cleared |
| `PbftRounds.ExecutionsApart` | consensus/PBFT.hpp:705-719 | With a clock that never runs back, two EXECUTED results for one round key are more than 120 seconds apart, whatever is called in between |
| `PbftVotes.ReportedIff` | consensus/PBFT.hpp:246-325 | In terms of who has voted: a vote is reported as PREPARE exactly if it proposes a round not begun, as COMMIT exactly if it completes the PREPARE quorum, as EXECUTED exactly if it completes a COMMIT quorum that intersects; new votes of the round's view only |
| `PbftVotes.CountedIff` | consensus/PBFT.hpp:246-325 | The sender is among the voters afterwards, and nobody else is added, unless a COMMIT is taken back for want of an intersection |
| `PbftVotes.RoundAfter` | consensus/PBFT.hpp:253-275 | A repeated vote changes nothing; the first vote gives the round its view, hash, key and start; a vote of the round's view makes it active now, one of another view does not |
| `PbftVotes.RolledBack` | consensus/PBFT.hpp:293-311 | A COMMIT without the intersection leaves all voters as they were and the round in COMMIT, so that its sender can vote again |
| `PbftVotes.SweepExact` | consensus/PBFT.hpp:705-719 | The sweep keeps exactly the rounds active within 120 seconds, unchanged and with their votes, and leaves no vote for the others |
| `PbftVotes.NothingStale` | consensus/PBFT.hpp:202-205 | After any call for a registered sender that is not banned no round, executed or not, has been idle for more than 120 seconds |
| `PbftReplay.ReplayIsIdle` | consensus/PBFT.hpp:235-242 | Once a message passed the limiter, and as long as no eviction drops its hash, every later call with that hash answers IDLE and adds no voter, round, history entry or evidence, whatever was called and cleared in between |
| `PbftReplay.MovesOnce` | consensus/PBFT.hpp:235-242 | Between two results other than IDLE for one message its hash was evicted |
| `PbftReplay.SmallNeverEvicts` | consensus/PBFT.hpp:238-242 | While fewer than 100000 hashes can have been seen nothing is evicted |
| `PbftEquivocation.TwiceIsEvidence` | consensus/PBFT.hpp:582-620 | After two messages of one sender with one number and different hashes, the first still on record and whatever was called in between, the evidence names sender, number and both hashes in order, the count is one higher and the trust 0.3 lower but not negative |
| `PbftEquivocation.EvidenceIsReal` | consensus/PBFT.hpp:582-600 | In every run all evidence about a sender names two different hashes that were taken in for one of its numbers, the second one later, with its view and time |
| `PbftEquivocation.TakenOnRecord` | consensus/PBFT.hpp:601-611 | The hash of a message taken in is on record afterwards if its number is the largest or fewer than 10000 are recorded |
| `PbftTrust.TrustFollowsMarks` | consensus/PBFT.hpp:614-683 | In every run failures in a row, equivocations, successes, score and last failure of a registered sender are what the outcomes since its registration make of them |
| `PbftTrust.BannedByCallIff` | consensus/PBFT.hpp:634-674 | verify_message and advance_state ban an id exactly with its hundredth failure in a row, and list it as a recent ban |
| `PbftTrust.RecentBansExact` | consensus/PBFT.hpp:415-420 | The recent bans are exactly the ids banned by failures since the last drain |
| `PbftSequence.VerifiesIff` | consensus/PBFT.hpp:136-183 | With something on record, exactly the messages of a known sender not banned verify that it signed, that chain from the message one number before or else from nothing, and whose number is at most 100 above the largest on record |
| `PbftSequence.NumbersGrowSlowly` | consensus/PBFT.hpp:535-554 | However many votes are cast, the numbers on record for a sender grow by at most 100 with each |
| `PbftRegistry.StepConsistent` | consensus/PBFT.hpp:98-103 | Every call keeps trust and key maps on one domain inside the registered set, voters and history owners among the keys, a round for every vote-registry key, and histories within 10000 entries |
| `PbftRegistry.ReachableConsistent` | consensus/PBFT.hpp:185-325 | All of that holds in every reachable state |
| `PbftRegistry.EvictOldestKeepsNewest` | consensus/PBFT.hpp:601-611 | Eviction keeps exactly the cap, and only entries newer than everything evicted |
| `PbftMembership.RunKeepsLargest` | consensus/PBFT.hpp:582-612 | As long as a sender is not pruned, the largest sequence number on its record never drops |
| `PbftMembership.PruneCount` | consensus/PBFT.hpp:379-390 | After prune_peer the count is exact if and only if the id was registered exactly when n was at least two |
| `PbftMembership.CountStaysExact` | consensus/MeshNode.cpp:1195-1197 | Over guarded registrations, prunes of registered ids and auto-bans, while somebody stays registered, n is the number of registered peers |
| `RateLimit.LimiterExact` | consensus/PBFT.hpp:685-703 | With a non-decreasing clock a check is admitted if and only if fewer than the maximum of all earlier admissions are younger than the window |
| `RateLimit.AdmissionsSpaced` | consensus/PBFT.hpp:685-703 | The (k+max)-th admission is at least the window length after the k-th |
| `PbftLimiter.EngineLimiterExact` | consensus/PBFT.hpp:212-227 | The same for every sender in every run of the engine, other senders and calls interleaved |
| `PbftText.BlobText` | consensus/PBFT.hpp:126-134 | For every target and evidence: two signed blobs are equal if and only if stage, sequence, view and previous hash agree and target and evidence, joined by a bar, do |
| `Symbolic.JoinedCollidesIff` | consensus/PBFT.hpp:126-134 | Two different targets can be signed as one text, with two evidences, if and only if one begins with the other and a bar |
| `PbftText.MisreadIff` | consensus/MeshNode.cpp:1226-1238 | For every evidence: a receiver can cut the signed text of a target and evidence into a different pair it accepts if and only if what precedes the first bar of the target is an id of at most 64 characters and a brace follows the bar |
| `PbftText.SignatureBindsIff` | consensus/PBFT.hpp:149-151 | A signature that verifies for two messages is for one stage, sequence, view and predecessor, and for one target and evidence if and only if neither target begins with the other and a bar |
| `PbftText.MessageHashBindsIff` | consensus/PBFT.hpp:118-124 | Equal message hashes mean one stage, sender, sequence, view and predecessor, and equal messages up to the signature if and only if neither target begins with the other and a bar |
| `PbftText.RoundKeyInjective` | consensus/MeshNode.cpp:1432-1434 | With bar-free targets a round key belongs to one evidence and one target |
| `PbftText.RoundKeySameIff` | consensus/MeshNode.cpp:1432-1434 | Two pairs with one round key are one pair if and only if neither target ends with a bar and the other |
| `PbftText.RoundKeyCollidesIff` | consensus/MeshNode.cpp:1432-1434 | Two targets can share a round key between different pairs if and only if one ends with a bar and the other, and then with evidence that starts with a brace |
| `PbftEngine.PBFTConsensus.constructor` | consensus/PBFT.hpp:78-96 | A new engine is the initial state |
| `PbftEngine.PBFTConsensus.RegisterPeerKey` | consensus/PBFT.hpp:98-103 | Computes the registration step |
| `PbftEngine.PBFTConsensus.SetIdentity` | consensus/PBFT.hpp:110-116 | Computes the identity step |
| `PbftEngine.PBFTConsensus.SetPeerCount` | consensus/PBFT.hpp:356-359 | Sets n, at least 1 |
| `PbftEngine.PBFTConsensus.IncrementPeers` | consensus/PBFT.hpp:361-364 | Raises n by one |
| `PbftEngine.PBFTConsensus.DecrementPeers` | consensus/PBFT.hpp:366-369 | Lowers n by one, not below 1 |
| `PbftEngine.PBFTConsensus.TryIncrementPeers` | consensus/PBFT.hpp:462-468 | Registers and counts an id exactly when it was not registered |
| `PbftEngine.PBFTConsensus.PrunePeer` | consensus/PBFT.hpp:371-390 | The erase loops over all rounds and stages compute the prune function: the id leaves keys, trust, history, registration and every voter set, and nothing else does |
| `PbftEngine.PBFTConsensus.BanPeerLocal` | consensus/PBFT.hpp:438-445 | Bans the id and changes nothing else |
| `PbftEngine.PBFTConsensus.ProposeBan` | consensus/PBFT.hpp:450-460 | Bans exactly the proposable targets: non-empty, not this node, not banned |
| `PbftEngine.PBFTConsensus.DrainRecentBans` | consensus/PBFT.hpp:415-420 | Returns the recent auto-bans and forgets them |
| `PbftEngine.PBFTConsensus.AdvanceView` | consensus/PBFT.hpp:508-512 | Raises the view by one |
| `PbftEngine.PBFTConsensus.RecordFailure` | consensus/PBFT.hpp:634-674 | Lowers trust, and at 100 consecutive failures bans and prunes the id |
| `PbftEngine.PBFTConsensus.VerifySequenceContinuity` | consensus/PBFT.hpp:535-554 | Answers whether the sequence is at most the largest on record plus 100, with 64-bit wrap-around |
| `PbftEngine.PBFTConsensus.VerifyMessage` | consensus/PBFT.hpp:136-183 | Answers true exactly for messages of unbanned, known senders with a valid signature, correct chaining and a continuing sequence; updates trust accordingly |
| `PbftEngine.PBFTConsensus.LargestSequence` | consensus/PBFT.hpp:535-554 | The scan finds the largest sequence number of a non-empty history |
| `PbftEngine.PBFTConsensus.CheckRateLimit` | consensus/PBFT.hpp:685-703 | Drops expired timestamps and admits exactly as the limiter function does |
| `PbftEngine.PBFTConsensus.CleanupStaleRounds` | consensus/PBFT.hpp:705-719 | The erase loop removes exactly the rounds idle for more than 120 seconds, with their votes |
| `PbftEngine.PBFTConsensus.DetectEquivocation` | consensus/PBFT.hpp:582-612 | Records the hash, reports a different hash at the same sequence, and evicts the oldest entries past the cap; what that means over runs is stated by `PbftEquivocation.TwiceIsEvidence` and `PbftEquivocation.EvidenceIsReal` |
| `PbftEngine.PBFTConsensus.CountVote` | consensus/PBFT.hpp:246-325 | Inserts the vote and moves the round exactly as the counting function does, with its rollback |
| `PbftEngine.PBFTConsensus.AdvanceState` | consensus/PBFT.hpp:185-325 | State and reported stage are those of the Advance function, for the message hash and round key computed from the message, and the set of seen hashes stays within 100000; `PbftReplay`, `PbftVotes`, `PbftEquivocation` and `PbftTrust` state what that function does |
| `PbftEngine.PBFTConsensus.SetRoundCommitSig` | consensus/PBFT.hpp:341-344 | Stores the signature with the round, making a fresh round if there is none |
| `PbftEngine.PBFTConsensus.GetRoundCommitSig` | consensus/PBFT.hpp:346-350 | Returns the signature stored with the round |
| `PbftEngine.PBFTConsensus.GetLastSentHash` | consensus/PBFT.hpp:497-504 | Returns the hash recorded at the largest sequence number, or the genesis hash |
| `PbftEngine.PBFTConsensus.SignMessage` | consensus/PBFT.hpp:126-134 | Signs the blob of the message with the node's key, or returns nothing without one |
| `CommitSigs.AdvanceFollows` | consensus/PBFT.hpp:278-324 | For every engine state and message the reported stage follows the stage of the message |
| `CommitSigs.AdvanceReady` | consensus/PBFT.hpp:278-324 | If all rounds past PREPARE hold this node's COMMIT signature, then after advance_state all but the round it reported as COMMIT do, a reported EXECUTED round among them |
| `CommitSigs.OtherStepsReady` | consensus/PBFT.hpp:98-116 | Every other engine call, a change of identity that keeps the key included, keeps the stored COMMIT signatures |
| `CommitSigs.CommitSigReady` | consensus/MeshNode.cpp:1431-1435 | Storing the COMMIT signature closes the one open round |
| `CommitSigs.OwnCommitSameIff` | consensus/MeshNode.cpp:1430-1435 | A COMMIT signature for two pairs is for one pair if and only if neither target begins with the other and a bar |
| `CommitSigs.RoundSignedExactIff` | consensus/MeshNode.cpp:1320-1325 | The signature found under a round key is always the one for the evidence and target that make that key if and only if none of the node's own targets is confusable with this one |
| `CommitSigs.ConfusedSignature` | consensus/MeshNode.cpp:1320-1325 | For every confusable target of its own the node keeps, for some evidence that starts with a brace, a signature for another pair |
| `CommitSigs.ConfusedExecution` | consensus/MeshNode.cpp:1260-1325 | For every bar-free target behind a bar in a target of the node: a consistent, properly signed engine state with the round in COMMIT and a verifying COMMIT vote that takes it to EXECUTED, where the stored signature is not for the vote's pair |
| `CommitSigs.OwnVoteVerifiesIff` | consensus/PBFT.hpp:497-533 | A node's own next vote passes its own verification if and only if nothing of its own is recorded or the vote directly before is |
| `OwnVotes.LimiterOpensGap` | consensus/PBFT.hpp:212-227 | An own vote that verifies but is over the node's own rate limit leaves it shut out with one failure |
| `OwnVotes.GapNeverCloses` | consensus/PBFT.hpp:515-533 | Once shut out, a node stays so through every run without its own re-registration, and every own vote adds a failure until it is banned |
| `OwnVotes.OneLimitedVoteShutsOut` | consensus/MeshNode.cpp:1459-1461 | After one own vote over the limit no later own vote verifies, and after ninety-nine more the node has banned itself |
| `MeshNode.CascadeShort` | consensus/MeshNode.cpp:1459-1477 | Votes of consecutive stages are at most three, two from PREPARE on and one from COMMIT on |
| `MeshNode.BanEvidenceMarked` | consensus/MeshNode.cpp:1386-1387 | Whatever the reason text, the evidence of a proposed ban is recognised as a ban when its round executes |
| `MeshNode.HeldLinksSigned` | consensus/MeshNode.cpp:1319-1325 | Every CONSENSUS_REACHED link still held carries this node's COMMIT signature for its round, and for exactly its target and the evidence its data hash was made from unless a target the node committed itself is confusable with it |
| `MeshNode.TrailExactIff` | consensus/MeshNode.cpp:1319-1325 | Over all trails the node may record, all links about a target are signed for exactly their target and evidence if and only if no target the node committed itself is confusable with it |
| `MeshNode.ConfusedLink` | consensus/MeshNode.cpp:1319-1325 | A round executed by a received COMMIT vote records a link whose signature is for another pair, for every bar-free target behind a bar in a target of the node |
| `MeshNode.Node.constructor` | consensus/MeshNode.cpp:95-104 | A new node has its own key registered and satisfies the signing invariant |
| `MeshNode.Node.Cast` | consensus/MeshNode.cpp:1460-1461 | From every state: engine and reported stage are those of verify_message followed, if it holds, by advance_state; the node makes exactly a receive step of the network and, if the message verifies, a count step; the signing invariant is kept but for a round reported as COMMIT, and an EXECUTED round is signed |
| `MeshNode.Node.SignVote` | consensus/MeshNode.cpp:1414-1430 | The vote is the next one: it has the next 64-bit sequence number, chains from the last hash on record, is signed if there is a key, and that hash has no bar |
| `MeshNode.Node.SendVote` | consensus/MeshNode.cpp:1414-1457 | For every target: the vote sent is this node's with the next sequence number, signed if it has a key; a COMMIT signature is stored with its round first and closes it; from a signing state a permitted vote is one the network lets an honest node send |
| `MeshNode.Node.Execute` | consensus/MeshNode.cpp:1477-1511 | Computes the execution: a ban round bans its target and records nothing; any other journals and records one decision, with the given signature, exactly when there is an external peer |
| `MeshNode.Node.BroadcastPbftStage` | consensus/MeshNode.cpp:1414-1522 | From every engine state and for every stage, target, evidence and key: computes the broadcast, own vote cast and nested calls included, whose effects `OwnRounds` states; one vote for each nested call, at most three, for consecutive stages of one pair; at most one decision, for that pair. From a signing state, when the stage was permitted: the decision carries this node's COMMIT signature for exactly that pair, and all stored decisions and sent votes stay in order |
| `MeshNode.Node.ProcessVote` | consensus/MeshNode.cpp:1253-1326 | From every state: engine, votes sent, journal and trail are those of the processing function, whose effects `NodeAnswers` states; at most the votes of the following stages and one decision for its pair; an own message changes nothing; the signing invariant is kept |
| `MeshNode.Node.InitiateConsensus` | consensus/MeshNode.cpp:1403-1412 | For every target: nothing happens on cooldown; otherwise exactly a broadcast of PRE_PREPARE |
| `MeshNode.Node.ProposeBan` | consensus/MeshNode.cpp:1378-1397 | For every target: fails exactly for the empty one and this node itself; otherwise a ban round is broadcast, the target is banned and journalled here on return, and no decision is recorded |
| `NodeAnswers.RefusedVote` | consensus/MeshNode.cpp:1263 | A vote that does not verify leads to no vote, journal line or decision, and raises the failures of a known sender by one, or bans it at the hundredth |
| `NodeAnswers.CountedVote` | consensus/MeshNode.cpp:1263-1264 | A vote that verifies, passes the limiter and is new is on its sender's record when the call returns, and its sender was counted for that round and stage unless the vote was taken back |
| `NodeAnswers.ProposalAnswered` | consensus/MeshNode.cpp:1266-1269 | A proposal for a round not begun is answered with the node's next vote, a PREPARE for that pair |
| `NodeAnswers.PrepareAnswered` | consensus/MeshNode.cpp:1270-1281 | A PREPARE that completes the quorum is journalled and answered with a COMMIT for that pair |
| `NodeAnswers.CommitAnswered` | consensus/MeshNode.cpp:1282-1325 | A COMMIT that completes an intersecting quorum executes: exactly one decision with the stored signature is journalled and recorded if there is a peer, a ban round bans and is journalled, nothing is sent |
| `NodeAnswers.OthersUnanswered` | consensus/MeshNode.cpp:1264-1282 | Any other vote that counts leads to no vote, journal line or decision |
| `NodeAnswers.BanProposed` | consensus/MeshNode.cpp:1378-1397 | The call sends a PRE_PREPARE for the marked evidence, and the ban is in force and journalled when it returns |
| `OwnRounds.OwnVoteOnRecord` | consensus/MeshNode.cpp:1459-1461 | An own vote that verifies when sent, passes the limiter and is new, with the largest number, is on the node's own record under its number when the broadcast returns |
| `OwnRounds.LoneNodeExecutes` | consensus/MeshNode.cpp:1459-1511 | A node that is a quorum by itself, with its key registered, nothing on record, three admissions left and readings within 120 seconds, sends exactly one vote of each stage with consecutive numbers, and the round ends EXECUTED, with one decision if there is a peer and it is no ban |
| `OwnRounds.NewNodeStands` | consensus/MeshNode.cpp:95-104 | A new node with at most three nodes in its engine is such a one |
| `PeerTrust.PeerManager.AddPeer` | consensus/PeerManager.cpp:11-25 | Adds a fresh entry exactly when the id is unknown |
| `PeerTrust.PeerManager.UpdatePeerHeartbeat` | consensus/PeerManager.cpp:27-41 | Refreshes a known entry; a key is stored only where there is none |
| `PeerTrust.PeerManager.GetStalePeers` | consensus/PeerManager.cpp:80-90 | The loop yields exactly the peers whose heartbeat is more than 30 seconds old |
| `PeerTrust.PeerManager.ConfirmPath` | consensus/PeerManager.cpp:176-237 | Both the provisioned and the first-use branch: the new entry and the two result flags, for every entry, path and key |
| `PeerTrust.PeerManager.RemovePeer` | consensus/PeerManager.cpp:75-78 | Removes the entry |
| `PeerTrust.PeerManager.PreProvisionPeerKey` | consensus/PeerManager.cpp:162-165 | Sets the expected key |
| `PeerTrust.PeerManager.UnpinPeerKey` | consensus/PeerManager.cpp:134-147 | Clears the key and leaves the confirmed paths |
| `PeerTrust.Discovery.OnBeacon` | consensus/MeshNode.cpp:918-961 | Add, confirm, heartbeat and registration together compute one event of the discovery machine |
| `PeerTrust.Discovery.OnAnnounce` | consensus/MeshNode.cpp:1175-1200 | The same for ANNOUNCE |
| `PeerTrust.Discovery.OnStale` | consensus/MeshNode.cpp:1670-1677 | Removal, which takes the key from consensus unless it was provisioned |
| `PeerTrust.Discovery.OnUnpin` | consensus/MeshNode.cpp:1739-1747 | An unpin of a known peer is one event of the discovery machine, of an unknown one none |
| `PeerTrust.RunBacked` | consensus/PeerManager.cpp:176-237 | In every state reached without an unpin between two confirmations, each confirmed path of an entry has presented the key behind the entry since its creation, and so have both paths for each registered key |
| `PeerTrust.DualMeansBothPaths` | consensus/MeshNode.cpp:920-959 | A dual-confirmed greeting brought a key that beacon and ANNOUNCE have both presented since the entry was created: the provisioned key, or else the stored one |
| `PeerTrust.RegisteredKeysConfirmed` | consensus/MeshNode.cpp:954-959 | Every key registered with consensus is the provisioned one or was presented on both paths |
| `PeerTrust.KeyNeverChanges` | consensus/PeerManager.cpp:27-41 | A stored key stays the same under all later events until its entry is removed or unpinned |
| `PeerTrust.UnpinAcceptsIff` | consensus/PeerManager.cpp:134-147 | After an unpin a greeting is accepted if and only if its path had not confirmed the entry or, for a provisioned peer, it brings the provisioned key; and it is reported dual exactly if accepted with both paths confirmed |
| `PeerTrust.UnpinLetsAnyKeyIn` | consensus/PeerManager.cpp:220-236 | With one path confirmed and then an unpin, the other path is reported dual and registered with any key, which is sound exactly if the first path had presented it |
| `PeerTrust.UnpinSoundIff` | consensus/PeerManager.cpp:134-147 | After any run, an unpin leaves every next dual result sound if and only if it does not come between the two confirmations |
| `PeerTrust.StuckUntilRemoved` | consensus/PeerManager.cpp:211-218 | A dual-confirmed entry that was unpinned is unchanged by all events until it is removed |
| `PeerTrust.ProvisionedKeyHeldIff` | consensus/PeerManager.cpp:190-206 | A provisioned peer's entry holds the provisioned key if and only if a greeting with it made the entry, or the entry was made or left without a key and has been greeted with it since |
| `PeerLiveness.EntryShowsLastSign` | consensus/PeerManager.cpp:27-41 | In every run an entry's address and heartbeat are those of the event that made it or of the last beacon that was not turned down |
| `PeerLiveness.StaleIff` | consensus/PeerManager.cpp:80-90 | A peer is found stale exactly if it has an entry and its last sign of life is more than 30 seconds old |
| `PeerSteps.StepsBacked` | consensus/PeerManager.cpp:176-237 | With every locked call a step of its own, unpins included, in every state reached by guarded steps each confirmed path confirmed the key behind the entry since its creation, unless the entry was unpinned with both paths confirmed and has no key |
| `PeerSteps.InterleavedDualSound` | consensus/PeerManager.cpp:176-237 | However add, confirm, heartbeat, unpin and remove interleave, after guarded steps a dual answer is for a key both paths confirmed since the entry was created |
| `PeerSteps.UnguardedUnsound` | consensus/PeerManager.cpp:220-236 | After guarded steps, any step that is not guarded can be followed by a dual answer for a key that one of the paths never confirmed |
| `PeerSteps.UnguardedConfirm` | consensus/PeerManager.cpp:220-236 | A first confirmation that finds another key lets the other path alone make that key dual-confirmed |
| `PeerSteps.UnguardedHeartbeat` | consensus/PeerManager.cpp:27-41 | A heartbeat that gives an unpinned entry another key makes that key dual-confirmed |
| `PeerSteps.NextSoundIff` | consensus/PeerManager.cpp:134-237 | For every locked call, after any guarded steps: the dual answers that can come next about its peer are all sound if and only if the call is guarded |
| `PeerSteps.GreetingIsSteps` | consensus/MeshNode.cpp:918-944 | An uninterrupted greeting is its add, confirm and heartbeat steps |
| `Merkle.PathAcceptedIff` | crypto/ProofChain.hpp:134-147 | The sibling path of leaf k verifies against the root if and only if no ancestor of k is an unpaired tail of a layer of more than one node |
| `Merkle.AllPathsAcceptedIff` | crypto/ProofChain.hpp:215-257 | All paths verify if and only if the number of leaves is a power of two |
| `Merkle.PaddedPathAccepted` | crypto/ProofChain.hpp:225-226 | With an empty entry at each unpaired level every path verifies |
| `Merkle.PathBindsLeaf` | crypto/ProofChain.hpp:134-147 | One path verifies for one leaf only |
| `Merkle.RootBindsLeaves` | crypto/ProofChain.hpp:215-232 | Equal roots over equally many leaf hashes mean equal leaf hashes |
| `ProofChain.BuildRoot` | crypto/ProofChain.hpp:215-232 | The loop over layers computes the root |
| `ProofChain.SiblingLevel` | crypto/ProofChain.hpp:240-256 | Changing the index inside the loop that compares with it never disturbs a later turn: one sibling or none, and the parent's index |
| `ProofChain.BuildPath` | crypto/ProofChain.hpp:234-257 | The nested loops compute the sibling path |
| `ProofChain.VerifyProof` | crypto/ProofChain.hpp:134-147 | The loop accepts exactly the paths that fold to the root |
| `ProofChain.LinkHashBinds` | crypto/ProofChain.hpp:43-48 | For every target: equal link hashes mean equal sequence, event, data hash and parent, and equal node and target if and only if neither node id begins with the other and a bar |
| `ProofChain.LastHashBindsChain` | crypto/ProofChain.hpp:75-99 | Two well-linked chains with the same last hash agree on the hashed fields, link by link from the end, whatever their targets |
| `ProofChain.LastHashBindsEntries` | crypto/ProofChain.hpp:75-99 | Two nodes whose last link hashes agree are one node and have recorded the same events, targets and data as far back as both chains reach, after any appends of any targets |
| `ProofChain.DataHashBinds` | crypto/ProofChain.hpp:75-99 | The data hash determines the data |
| `ProofChain.ChainAfterHolds` | crypto/ProofChain.hpp:75-99 | After any run of appends the chain is linked by parent hash, consecutively numbered, at most 4096 long, and holds exactly the last entries in order |
| `ProofChain.ChainProofAcceptedIff` | crypto/ProofChain.hpp:125-147 | The chain's own proof of link k verifies if and only if k is never an unpaired tail |
| `ProofChain.Chain.constructor` | crypto/ProofChain.hpp:66-73 | A new chain is empty |
| `ProofChain.Chain.Append` | crypto/ProofChain.hpp:75-99 | The links are those of all entries so far and this one, eviction included |
| `ProofChain.Chain.RebuildMerkle` | crypto/ProofChain.hpp:215-232 | Leaves the cache clean and equal to the root of the links |
| `ProofChain.Chain.GetRootHash` | crypto/ProofChain.hpp:118-123 | However appends and queries interleave, returns the root recomputed from scratch |
| `ProofChain.Chain.GetProofPath` | crypto/ProofChain.hpp:125-132 | Returns the sibling path of a held index, and nothing otherwise |
| `ProofChain.IndexIsNumberIff` | crypto/ProofChain.hpp:149-163 | The link at index n is link number n, so that a proof asked for by number is that number's, if and only if at most 4096 entries were appended, 64-bit wrap-around aside |
| `ProofChain.NewestHasNoProof` | crypto/ProofChain.hpp:125-132 | After an eviction the newest link is held under a number for which no path is given |
| `Base64.Base64Encode` | common/Base64.hpp:9-34 | The loop computes the encoding |
| `Base64.Base64Decode` | common/Base64.hpp:38-78 | The loop computes the decoding, accumulator wrap-around and both errors included |
| `Base64.GroupIsTwentyFourBits` | common/Base64.hpp:9-34 | Four characters are the base-64 digits of the 24-bit number their three bytes form, as in section 4 of RFC 4648 |
| `Base64.EncodeLength` | common/Base64.hpp:9-34 | The encoding of n bytes is 4*ceil(n/3) characters long |
| `Base64.EncodeBarFree` | common/Base64.hpp:9-34 | The encoding never contains the bar that separates the wire fields |
| `Base64.DecodeEncode` | common/Base64.hpp:38-78 | Decoding the encoding gives back every byte string, although the 32-bit accumulator wraps |
| `Base64.DecodeAcceptsIff` | common/Base64.hpp:38-78 | Accepts exactly texts of length divisible by four whose characters before the first '=' are in the alphabet, and says how many bytes come out |
| `VoteWire.SplitString` | consensus/MeshNode.cpp:1966-1972 | The getline loop computes the split |
| `VoteWire.SplitJoin` | consensus/MeshNode.cpp:1966-1972 | Splitting a join of bar-free tokens gives the tokens back when the last is not empty |
| `VoteWire.StoullPrint` | consensus/MeshNode.cpp:1240 | Parsing a printed 64-bit number gives it back |
| `VoteWire.StoiPrint` | consensus/MeshNode.cpp:1241 | Parsing a printed 32-bit number gives it back |
| `VoteWire.SizeGuardAdmits` | consensus/MeshNode.cpp:1230-1233 | The size test before decoding never rejects evidence that the test after it accepts |
| `VoteWire.VoteRoundTripIff` | consensus/MeshNode.cpp:1215-1253 | The receiver recovers exactly the vote sent if and only if its target has no bar and the vote meets the receiver's conditions; without a bar it otherwise drops it |
| `VoteWire.VoteReceived` | consensus/MeshNode.cpp:1215-1253 | What the receiver makes of every vote a node can send, whatever its target: exactly its reading of the shifted fields if that arrives and is admitted, nothing otherwise |
| `VoteWire.ReadingExactIff` | consensus/MeshNode.cpp:1438-1441 | The reading is the vote itself if and only if the target has no bar |
| `VoteWire.OneBarReading` | consensus/MeshNode.cpp:1215-1223 | With one bar in the target the text after it is taken for the evidence, the evidence for the previous hash and the previous hash for the signature |
| `VoteWire.ShiftedVote` | consensus/MeshNode.cpp:1215-1253 | A vote against "b", a bar and "e30=" is delivered as a vote of its sender against "b", with evidence "{}" and the previous hash as its signature |
| `Journal.EscapeInPlace` | common/StateJournal.hpp:68-86 | The loop that grows the string it walks over terminates and equals the per-character escape |
| `Journal.UnescapeEscape` | common/StateJournal.hpp:68-86 | JSON unescaping (section 7 of RFC 8259) gives back every evidence string |
| `Journal.EscapeNoControl` | common/StateJournal.hpp:68-86 | No control character survives, so no newline |
| `Journal.ExtractSeq` | common/StateJournal.hpp:163-175 | The digits after the first sequence mark, or 0 exactly when they exceed a 64-bit number |
| `Journal.RecoverFrom` | common/StateJournal.hpp:21-29 | The largest sequence number on any line, a last unterminated one included |
| `Journal.AppendRecoversIff` | common/StateJournal.hpp:53-92 | Reopening after an append of any fields recovers the new number if and only if no stray line, made by a newline in stage or target, has a larger number, and the unterminated end of the file lacks the sequence mark or a stray line has just that number |
| `Journal.AppendRecovered` | common/StateJournal.hpp:53-92 | For every file and all fields: what reopening recovers is the largest of what it recovered before, the new number if the end of the file does not hide it, and the numbers on stray lines |
| `Journal.TargetNumbers` | common/StateJournal.hpp:88-91 | A target with a newline followed by the sequence mark and a number puts that number on a line of its own |
| `Journal.TornHidesRecord` | common/StateJournal.hpp:163-175 | After a write torn behind the number 5, no one-line record 6 appended next is recovered |
| `Journal.RunRecoversIff` | common/StateJournal.hpp:18-92 | After any appends of any fields to a file whose unterminated end lacks the mark, rotations included, reopening recovers exactly the last number if and only if no stray line still in the file exceeds it, and always if no field has a newline |
| `Journal.RunRecovered` | common/StateJournal.hpp:18-92 | It recovers the last number or the largest stray one, whichever is larger |
| `Journal.StateJournal.constructor` | common/StateJournal.hpp:18-29 | Opening a file recovers its counter |
| `Journal.StateJournal.Append` | common/StateJournal.hpp:53-92 | Adds the record with the next 64-bit number, after the rotation if one happens; the number recovered afterwards is the larger of what the file held, the new one and the stray ones; `JournalRead` states that the record gives its fields back |
| `JournalRead.LineReadsIff` | common/StateJournal.hpp:68-92 | A line read back gives number, time, stage, target, unescaped evidence and hash if and only if stage, target and hash, which are written as they are, have no quotes |
| `JournalRead.LineDetermines` | common/StateJournal.hpp:88-92 | Equal lines have equal number, time, stage, target, evidence and hash |
| `JournalRead.AppendedLine` | common/StateJournal.hpp:101-138 | An append to a file without an open end adds exactly one line, after dropping the rest if the file exceeds 10485760 characters and the rotation succeeds |
| `JournalRead.FileReadsBack` | common/StateJournal.hpp:53-138 | After any appends, rotations included, the lines from the last one back to the last rotation read back as the entries appended, in order and with their numbers |
| `JournalRead.ReadBackAt` | common/StateJournal.hpp:88-92 | In particular each of these lines does |
| `Framing.DrainLines` | telemetry/TelemetryBridge.cpp:497-504 | The erase loop leaves the unterminated end and yields the complete non-empty lines |
| `Framing.PublishLines` | telemetry/TelemetryBridge.cpp:514-528 | The second scan publishes exactly those lines |
| `Framing.PipeMonitor.OnRead` | telemetry/TelemetryBridge.cpp:493-528 | One read publishes the complete lines of buffer and chunk and keeps the rest, unless it exceeds 1048576 bytes |
| `Framing.ChunkingIrrelevant` | telemetry/TelemetryBridge.cpp:493-528 | However the stream is cut into reads with leftovers that fit, what is published is the non-empty lines of the whole stream in order |
| `Framing.PushedComesOut` | telemetry/TelemetryBridge.cpp:96-99 | Non-empty newline-free messages within the bound come out unchanged and in order, for every cut |

## Left out

- Progress: view change, retransmission and the liveness monitor; nothing here says that a round ever finishes.
- The evidence size limit of a receiver: it is set per node, so `Network` has none and more messages arrive there; `VoteWire` has it.
- The accumulated chain-state hash of the engine (`get_chain_state_hash`): no decision reads it.
- Reading thresholds from the environment: the limiter's window and maximum are inputs, positive as the parsing guarantees.
- 32-bit overflow of the node count and of the view.
- Sockets, threads, TLS, peer exchange handshakes, webhooks, the mitigation engine and the policy enforcer: effects without modelled meaning.
- OpenSSL, key files and certificates: represented by the ideal hash and unforgeable signatures.
- The TLS fingerprint pins, the IP rate limit, the consensus cooldown map and the telemetry map of `PeerManager`.
- The TELEMETRY, ANNOUNCE and beacon texts: they use the same split and Base64 as VOTE.
- Exporting the chain to files and JSON; the chain is always present in the modelled node, while the original may run without one.
- Anomaly inference, metrics, eBPF programs, dashboards and Python orchestration.
- Concurrency inside one locked method; the node's run is sequential in `MeshNode`, while `Network` interleaves calls freely.
- The journal inside `MeshNode` is a list of what was appended; its file is modelled in `Journal`, for writes that succeed in full or are torn.
