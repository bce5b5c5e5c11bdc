# go-kardia: consensus, virtual machine, fast sync and write-ahead log

A Dafny model of the stateful cores of go-kardia, with proofs of what they promise.

| file | models |
|---|---|
| `Basics.dfy` | a few shared types and functions |
| `VotingPower.dfy`, `VoteSets.dfy` | validator power, quorums, vote tallies by round and by block |
| `RoundMachine.dfy`, `RoundInvariant.dfy` | one consensus node as a function of its inputs, and what each handler keeps |
| `RoundEffects.dfy`, `GoodRound.dfy` | what each input makes a node do, and that a round with enough votes ends in a decision |
| `Agreement.dfy` | safety of vote histories, and of all runs of a network with Byzantine validators |
| `RoundProgress.dfy`, `RoundLimit.dfy` | timeouts move waiting nodes on, and round numbers stay below their limit |
| `TimeoutTicker.dfy`, `ConsensusState.dfy` | the timer, and the consensus object with its timer and handlers that update it |
| `KvmCode.dfy`, `KvmGas.dfy`, `KvmTable.dfy`, `KvmPrice.dfy` | jump analysis, 64-bit gas arithmetic, the opcode table, prices |
| `KvmWorld.dfy` | accounts, the undo journal and snapshots |
| `KvmFrame.dfy`, `KvmCalls.dfy` | call frames, the interpreter loop, nested calls and creations |
| `KvmSemantics.dfy` | the reference: a turn, a frame, a call and a creation as functions on values, by recursion on gas |
| `KvmColumns.dfy`, `KvmLaws.dfy`, `KvmRuns.dfy` | what the reference does, byte by byte, call by call, and over whole runs |
| `Scheduler.dfy`, `SchedulerRuns.dfy`, `SchedulerState.dfy` | the fast-sync scheduler: events, runs, and the object |
| `SchedulerEvents.dfy` | what each event makes of every tracked height |
| `Processor.dfy` | the fast-sync processor, and its lockstep with the scheduler |
| `Wal.dfy` | record framing, decoding and repair of the consensus log |

`dafny verify dfyconfig.toml` checks the project.

## Main results

- **Agreement** (`Network.AgreementOverRuns`): in every run of a network with less than a third of Byzantine power, no two
  correct nodes finalize different blocks at a height. It rests on the lock lemma `Agreement.NoOtherPolka`, proved by
  induction over prefixes of the global vote history, and on `RoundInvariant.HandleInv`, which covers every handler.
- **Progress** (`ConsensusState.State.ReceiveRoutine`, `RoundLimit.AlwaysMovesOn`): a node composed with its timer, fed any
  inputs in any order, is never left waiting: its timer is running or the fired timeout is on its way, and that timeout moves
  it strictly forward. In every run with less than a third of Byzantine power the 32-bit round number never gets in the way
  (`RoundLimit.RoundsStayLow`).
- **Decision** (`GoodRound.RoundDecides`): a node that waits for a proposal without a lock, and gets a valid one, its block, and
  then prevotes and precommits for it of validators that hold more than two thirds of the power and have voted for nothing
  else, each kind in any order, from anyone and with repetitions, prevotes the block, locks it and decides it. `RoundEffects`
  says for each input exactly what the node does, vote by vote.
- **Proof of the last commit** (`Network.LastCommitProves`): in every run the precommits a node carries to the next height are
  a quorum for the block it decided.
- **The interpreter computes the reference** (`KvmCalls.KVM.Step`, `Run`, `Call`, `CreateAt` and the others): every turn, frame,
  call and creation of the object with its journal, memory, jump cache and wrapping gas arithmetic ends in exactly the machine,
  world, bytes, gas and error that the functions of `KvmSemantics` give. What those functions do is stated opcode byte by
  opcode byte in `KvmLaws` (prices in plain arithmetic included), call by call in `KvmRuns`, and for whole runs:
  every frame has exactly one run, of at most one turn more than it has gas (`KvmRuns.FrameRuns`, `RunIsUnique`).
- **One interpreter invariant** (`KvmCalls.KVM.Step` with `Keeps`): programs terminate with gas as the only measure, control
  never enters PUSH data, stack and memory accesses are in range, static calls change nothing, failing calls and creations
  are undone exactly, and no balance is made from nothing. The methods are mutually recursive and carry these guarantees
  through arbitrary nesting.
- **Exact gas** (`KvmCalls.KVM.Charge`, `KvmPrice.ChargeExact`): under both rule sets and in wrapping 64-bit arithmetic, an
  instruction is refused exactly if its price in unbounded arithmetic cannot be paid, and otherwise takes exactly that price;
  the memory fees of a frame always add up to the cost of the memory it has.
- **Journal** (`KvmWorld.StateDB.RevertToSnapshot`): undoing the journal entry by entry restores exactly the world a live
  revision was taken of.
- **Scheduler** (`Scheduler.HandleInv`, `SchedulerRuns.AskedAgainOnlyAfterRemoval`, `FastSync.Lockstep`): map agreement, a
  download window that is always exactly full, at most one open request per height over whole runs, and lockstep with the
  processor.
- **Log repair** (`Wal.RepairWalFile`, `Wal.TornLog`): a repaired log decodes to precisely the messages before the first
  error, and a torn last record is noticed except exactly when it lost only zero bytes.

## How the source is read

- A validator is identified by its address; the index lookup of a vote and the address check are one step. The validator set
  of a height and block validation are parameters.
- Proposals, block parts and votes of others are inputs that may come in any order, be repeated or be lost. A correct node's
  votes cannot be forged. In runs of a network any timeout a node has asked for may fire at any time, which includes
  everything its timer does; `ConsensusState` takes timeouts only from the timer.
- Correct nodes run without interruption. Events published and records written for replay have no effect on the node.
- A round is an unsigned 32-bit number and wraps where the code adds one to it.
- Panics of the consensus code are kept: the node stops in a state that says why.
- The guard on the proposal's POL round in `consensus/state.go:499` can never be true for unsigned rounds, so proposals with
  any POL round are accepted. The step Commit can be left for a higher round by `consensus/state.go:1017`.
- In the virtual machine, 256-bit arithmetic, hashing, precompiles, block context and the addresses of new contracts are
  functions given to the model. A code hash is free of collisions and stands for its code. Nonces and the program counter do
  not wrap around; gas, memory sizes and gas arithmetic are 64-bit, with wrap-around where the code does not check.
- Before Galaxias the constant part of the cost is charged again together with the dynamic part, as in
  `kvm/interpreter.go:255-259`.
- A run can be cancelled from outside: what the n-th look at the flag finds is given to the model, and every thousandth turn
  of a frame looks.
- Peers of the scheduler are numbered in the byte order of their identifiers. Heights are natural numbers, and the first
  height is at least one, which the state store ensures (`kai/state/cstate/store.go:314-315`).
- Pruning is documented as switched on when all peers are at the node's height (`blockchain/scheduler.go:365-366`); the code
  switches it on as soon as one peer, in whatever state, is no further than the starting height, and the model follows it.
- A read from a log file fills its buffer as far as the file goes; a short read is no error and leaves zeros, and a read at
  the end of the file fails unless it asks for nothing.

## Model

| member | source | states |
|---|---|---|
| `VotingPower.QuorumIntersection` | types/vote_set.go:243-262 | two groups with more than 2/3 of the power share a member outside every group that holds less than 1/3 |
| `VotingPower.QuorumHasCorrect` | types/vote_set.go:243-262 | a group with more than 2/3 of the power has a member outside every group that holds less than 1/3 |
| `VoteSets.AddVoteConsistent` | types/vote_set.go:122-182 | adding any vote, valid, duplicate, conflicting or misplaced, keeps every tally equal to the power of distinct validators whose votes are in the history, and never replaces a majority once found |
| `VoteSets.AddVoteOutcome` | types/vote_set.go:122-265 | a vote is counted exactly if it fits the set, is of a known validator with a good signature, is not there already, and does not conflict with an earlier one unless a peer claimed its block; then it is in the tally of its block, and every other tally is unchanged |
| `VoteSets.AddVoteMajority` | types/vote_set.go:236-262 | without a majority so far, a vote can make only its own block the majority; as long as there is none, no earlier canonical vote changes and only the new voter can get one |
| `VoteSets.MajorityExact` | types/vote_set.go:424-434 | a consistent set has a majority exactly if the voters of some block hold the quorum, and it names such a block; two thirds of any kind are reported exactly if the voters hold more than that |
| `VoteSets.RecordVoteConsistent` | types/vote_set.go:197-220 | the canonical votes keep one vote per validator and their sum stays the power of those voters; a vote for the majority block becomes canonical; every tally but the one the vote is about to join is complete |
| `VoteSets.CountVoteConsistent` | types/vote_set.go:221-265 | a block's tally stays the power of its voters; without a majority so far, the block becomes the majority exactly if its tally has reached the quorum, and then the canonical votes of its voters, and of nobody else, are moved to it |
| `VoteSets.MajorityIsQuorum` | types/vote_set.go:424-434 | a reported majority means that validators with more than 2/3 of the power signed a vote for that hash in that height and round |
| `VoteSets.CanonicalQuorum` | types/vote_set.go:455-478 | the canonical votes, which a commit is made of, hold a quorum for the majority block key, whatever their validators voted for first |
| `VoteSets.PeerMaj23Consistent` | types/vote_set.go:272-305 | a peer's first claim opens its block for conflicting votes and changes no vote, tally, sum or majority; later claims change nothing |
| `VoteSets.SetRoundConsistent` | consensus/types/height_vote_set.go:95-111 | tracking more rounds keeps all vote sets consistent and loses none |
| `VoteSets.AddHeightVoteConsistent` | consensus/types/height_vote_set.go:115-134 | votes for known rounds, catch-up rounds and refused rounds keep all vote sets of a height consistent and growing |
| `VoteSets.HeightVoteOutcome` | consensus/types/height_vote_set.go:115-134 | a vote goes to the set of its round and type and is counted as that set counts it; an unknown round is opened exactly if the peer has opened fewer than two; every other set of the height is unchanged |
| `VoteSets.HeightPeerMaj23Consistent` | consensus/types/height_vote_set.go:164-175 | a peer's claim for any round keeps all vote sets of a height consistent |
| `VoteSets.HeightMajorityIsQuorum` | consensus/types/height_vote_set.go:137-160 | a majority looked up by round and type is a quorum of signed votes of exactly that height, round and type |
| `VoteSets.POLRoundIsLatest` | consensus/types/height_vote_set.go:179-190 | the round search returns a round with a prevote majority that is no lower than any other such round |
| `RoundInvariant.SignStepInv` | consensus/state.go:774-832 | a vote signed on entering its step keeps all of the node's votes in strict (height, round, type) order, with its reasons present in the history before it |
| `RoundInvariant.EnterNewRoundInv` | consensus/state.go:1014-1066 | entering a round keeps the node invariant: ordered and justified votes, consistent vote sets, lock kept or released by a later polka, no timeout ahead of the node, commit step only with a majority, decisions backed by commit quorums, a last commit that proves the last decision, no unexpected stop |
| `RoundInvariant.EnterProposeInv` | consensus/state.go:1076-1124 | proposing keeps the node invariant, including when the proposal is already complete and the node prevotes at once |
| `RoundInvariant.EnterPrevoteInv` | consensus/state.go:1128-1179 | prevoting keeps the node invariant; which prevote it is, is stated by `RoundEffects.PrevoteEffect` |
| `RoundInvariant.EnterPrevoteWaitInv` | consensus/state.go:1182-1207 | waiting for prevotes keeps the node invariant |
| `RoundInvariant.PrecommitLockInv` | consensus/state.go:1252-1305 | locking, relocking and unlocking keep every earlier precommit for a block either locked or released by a polka of a later round, and a precommit for a block locks it in the current round |
| `RoundInvariant.EnterPrecommitInv` | consensus/state.go:1210-1310 | precommitting keeps the node invariant in all five cases: no polka, nil polka, relock, new lock, unknown block |
| `RoundInvariant.PolRoundInv` | consensus/state.go:1246-1250 | the sanity check on the polka round can fail only at the largest round number |
| `RoundInvariant.EnterPrecommitWaitInv` | consensus/state.go:1313-1337 | waiting for precommits keeps the node invariant |
| `RoundInvariant.EnterCommitInv` | consensus/state.go:1340-1387 | committing keeps the node invariant, whichever of locked block, proposal block or no block is at hand |
| `RoundInvariant.TryFinalizeCommitInv` | consensus/state.go:1390-1409 | finalizing is tried only with a commit majority, and keeps the node invariant |
| `RoundInvariant.FinalizeCommitInv` | consensus/state.go:1412-1510 | a finalized block has a commit quorum in the history and passed validation; the node goes to the next height with its invariant intact |
| `RoundInvariant.NextHeightInv` | consensus/state.go:325-425 | starting the next height keeps decisions, the order of signed votes, and a last commit that proves the decision: precommits of that height, a majority for the hash decided |
| `RoundInvariant.SetRoundTracks` | consensus/types/height_vote_set.go:95-111 | every round from the one before the last asked for up to the new one is tracked, a new one without votes, and the others with theirs |
| `RoundInvariant.CommitProves` | consensus/state.go:325-425 | the precommits of the round a block was committed in are a majority for its hash, of that height |
| `RoundInvariant.OnPolkaInv` | consensus/state.go:677-724 | a prevote majority arriving late unlocks only for a different block of a later round, and updates the valid block, keeping the node invariant |
| `RoundInvariant.OnPrevoteInv` | consensus/state.go:726-743 | moving on after a prevote keeps the node invariant |
| `RoundInvariant.OnPrecommitInv` | consensus/state.go:745-765 | moving on after a precommit, through several steps and possibly to the next height, keeps the node invariant |
| `RoundInvariant.AddVoteMsgInv` | consensus/state.go:607-771 | every vote message, from any height, round or peer, keeps the node invariant |
| `RoundInvariant.AddLateCommitInv` | consensus/state.go:623-651 | a precommit for the previous height keeps the node invariant, and with it that the last commit proves the decision |
| `RoundInvariant.SetProposalInv` | consensus/state.go:484-520 | a proposal, valid or not, keeps the node invariant |
| `RoundInvariant.AddProposalBlockPartInv` | consensus/state.go:912-985 | a block part, whether it completes the block or not, keeps the node invariant |
| `RoundInvariant.HandleTimeoutInv` | consensus/state.go:1714-1752 | a fired timeout keeps the node invariant, and one for the current height never names a round above the current one |
| `RoundInvariant.HandleInv` | consensus/state.go:1592-1752 | every input a node can receive keeps the node invariant, and height, round and step never go back |
| `RoundInvariant.NewNodeInv` | consensus/state.go:136-173 | a node that starts at any height, with any last commit, satisfies the node invariant |
| `RoundEffects.PrevoteEffect` | consensus/state.go:1128-1179 | exactly which prevote is signed: for the locked block; without a lock for the proposal block if it is there and valid; else nil; nothing else changes |
| `RoundEffects.PrecommitEffect` | consensus/state.go:1210-1310 | exactly which precommit is signed and what is locked: nil without a polka, with the lock kept; for a polka block the node holds, with that block locked in this round; nil for any other polka, with the lock released and the parts of its block, if it is one, to be collected |
| `RoundEffects.ProposeEffect` | consensus/state.go:1076-1124 | entering propose asks for the propose timeout, and prevotes at once exactly if the proposal is complete |
| `RoundEffects.NewRoundEffect` | consensus/state.go:1014-1066 | a later round starts without proposal, block and parts, the first one keeps them; votes of the next round are tracked; the node goes on to propose unless it waits for transactions |
| `RoundEffects.WaitEffects` | consensus/state.go:1182-1337 | with votes of more than two thirds at hand the wait starts, and its timeout is asked for |
| `RoundEffects.FinalizeEffect` | consensus/state.go:1390-1510 | a committed block in the right parts that is valid and can be applied is decided, and the next height starts with the precommits that prove it; each failing check stops the node with its own reason |
| `RoundEffects.CommitEffect` | consensus/state.go:1340-1409 | on a precommit majority for a block the node finalizes the locked or the proposal block if it has that hash, and else collects its parts |
| `RoundEffects.ProposalEffect` | consensus/state.go:484-520 | a proposal is taken exactly if it is the first of its height and round and signed; anything else changes nothing |
| `RoundEffects.BlockEffect` | consensus/state.go:912-985 | the last part completes the block, which becomes the valid block if it has the polka of the round; a node waiting for the proposal then prevotes, and precommits if there is a polka; a committing one finalizes |
| `RoundEffects.PolkaEffect` | consensus/state.go:677-724 | exactly when a polka releases the lock, makes the proposal block the valid one, or makes the node collect another block |
| `RoundEffects.PrevoteEvent` | consensus/state.go:607-743 | a vote that is not counted changes at most the vote sets; a counted prevote has the effect of its polka and then starts a later round, precommits, waits or prevotes, each exactly under its condition |
| `RoundEffects.CommitReaction` | consensus/state.go:745-765 | a precommit majority for a block, in whatever round and step, leads to the commit of that block |
| `RoundEffects.PrecommitEvent` | consensus/state.go:745-765 | a counted precommit makes a node that is not committing yet commit on a majority for a block, and otherwise start the wait that ends the round once more than two thirds have precommitted in its own or a later round |
| `RoundEffects.TimeoutEffect` | consensus/state.go:1714-1752 | a timeout that is behind the node does nothing; each other one makes it start the round, propose, prevote, precommit, or precommit and start the next round |
| `RoundEffects.LateEffect` | consensus/state.go:623-651 | a late precommit is added to the last commit, and only there, while the node waits for the height to start; the wait ends early exactly if it is configured to and everyone has voted |
| `GoodRound.ProposalPrevoted` | consensus/state.go:484-520 | a waiting node without a lock that gets a valid proposal and its block prevotes it |
| `GoodRound.PrevotesLock` | consensus/state.go:677-743 | prevotes of more than two thirds of the power for the block a node prevoted, in any order, from anyone, repeated or not, make it lock and precommit the block |
| `GoodRound.PrecommitsDecide` | consensus/state.go:745-765 | precommits of more than two thirds of the power for the block a node is locked on, in any order, make it decide the block |
| `GoodRound.RoundDecides` | consensus/state.go:484-1510 | all together: after the proposal, its block, the prevotes and the precommits the node has prevoted, locked and decided the block |
| `Agreement.NoOtherPolka` | consensus/state.go:1149-1179 | lock lemma: once more than 2/3 of the power precommit a block in a round, no prefix of the history has a polka for nil or another block in a later round |
| `Agreement.OneCommitPerRound` | consensus/state.go:774-791 | a round has at most one hash with a precommit quorum |
| `Agreement.CommitHasPolka` | consensus/state.go:1210-1310 | a commit quorum implies a polka for the same block in the same round |
| `Agreement.OneCommitPerHeight` | consensus/state.go:1340-1434 | all commit quorums of a height, in whatever rounds, are for the same block hash |
| `Agreement.CommitIsValid` | consensus/state.go:1149-1179 | a block with a commit quorum passed validation |
| `Network.NextInv` | consensus/state.go:1592-1752 | every step of a network of correct and Byzantine validators keeps the invariant of every correct node |
| `Network.RunInv` | consensus/state.go:1592-1752 | the invariant holds in every state of every run |
| `Network.AgreementOverRuns` | consensus/state.go:1340-1434 | agreement: in every run with less than 1/3 Byzantine power, no two correct nodes finalize blocks with different hashes at the same height, at any times and in any rounds |
| `Network.NoPolkaAgainstCommit` | consensus/state.go:1149-1310 | in every state of every run, a precommit quorum for a block rules out a polka for anything else in a later round |
| `Network.NoEquivocation` | consensus/state.go:774-832 | in every run a correct node signs at most one vote of each type per height and round |
| `Network.LastCommitProves` | consensus/state.go:325-425 | in every run, whenever a node is at the height after one it decided, the last commit it holds is of that height and has a precommit majority for the hash decided |
| `Network.NodesGoForward` | consensus/state.go:835-838 | over any stretch of a run a correct node's (height, round, step) does not go back, and its decisions and signed votes are kept |
| `Network.SanityChecksHold` | consensus/state.go:1412-1434 | every finalized block passed validation, and the panics for waiting without a quorum, committing or finalizing without a majority, a wrong height or hash, a committed invalid block and an invalid timeout step are unreachable; a wrong part set is reported only by a node that has the committed block from another part set than the one precommitted |
| `RoundProgress.HandleWaits` | consensus/state.go:523-533 | every input keeps: a node in a step that a timeout ends has scheduled that timeout for its height and round, and so has one that started the precommit timeout |
| `RoundProgress.TimeoutAdvances` | consensus/state.go:1714-1752 | a timeout of the current round, for the node's step or a later one, takes the node past that step in (height, round, step), or stops it for good |
| `RoundProgress.TockPasses` | consensus/state.go:1714-1752 | whatever timeout a node asked for is taken up, current or stale, the node is past it afterwards, has stopped, or is in the largest round |
| `RoundProgress.HeldByTimer` | consensus/ticker.go:113-151 | a waiting node is not past the latest timeout it asked for, which is of its height and round and no earlier than its step |
| `RoundProgress.LastRoundStays` | consensus/state.go:1744-1748 | the precommit timeout of the largest round number names round zero and changes nothing |
| `RoundProgress.TickerMovesOn` | consensus/ticker.go:113-151 | although the ticker keeps only the latest timeout asked for, what it fires moves every waiting node below the largest round strictly forward |
| `RoundProgress.NoStuckWait` | consensus/state.go:523-533 | in every state of every run, no correct node waits in a step without its timeout scheduled |
| `RoundLimit.SetRoundFails` | consensus/types/height_vote_set.go:95-111 | tracking the next round fails exactly when that is the largest round number, or wraps to zero in a node that has tracked before |
| `RoundLimit.RoundsStayLow` | consensus/state.go:1014-1066 | in every run with less than 1/3 Byzantine power, no correct node gets past round 2^32-3, the sanity check on the polka round never fails, round tracking fails only in that round, and a last commit is missed only by a node that started without one and is still at its first height |
| `RoundLimit.AlwaysMovesOn` | consensus/ticker.go:113-151 | in every state of every such run, the latest timeout a waiting correct node asked for moves it strictly forward |
| `ConsensusState.AfterTock` | consensus/state.go:1714-1752 | a timeout taken up leaves the node past it, and moves on a node that waits and asked for nothing later |
| `ConsensusState.State.constructor` | consensus/state.go:136-173 | a new node, with its first timeout given to the timer, satisfies the invariants of node and timer |
| `ConsensusState.State.HandleMsg` | consensus/state.go:1672-1711 | any message, through all the updates in place, keeps the node invariant and goes forward; the timer is asked for exactly the timeouts the node scheduled, and the latest of them is running, on its way, or behind the node |
| `ConsensusState.State.Expires` | consensus/ticker.go:142-148 | the timer running out puts the latest timeout on its way and keeps the same invariants |
| `ConsensusState.State.HandleTock` | consensus/state.go:1714-1752 | a fired timeout keeps the same invariants, and the latest one moves a waiting node below the largest round strictly forward |
| `ConsensusState.State.ReceiveRoutine` | consensus/state.go:1592-1669 | after any sequence of messages, expiries and fired timeouts in any order, the invariants hold, nothing signed or decided is lost, and a waiting node below the largest round has a running timer or a fired timeout on its way that will move it on |
| `ConsensusState.State.NeverStuck` | consensus/ticker.go:113-151 | the invariants of node and timer alone imply that a waiting node below the largest round will be moved on |
| `TimeoutTicker.Ticker.Tick` | consensus/ticker.go:118-140 | the timer always holds the latest of all timeouts asked for, in (height, round, step) order |
| `TimeoutTicker.Ticker.Fire` | consensus/ticker.go:142-148 | what fires was asked for, and nothing asked for since is later |
| `KvmCode.SweepExtends` | kvm/contract.go:237-254 | after an instruction the next one starts right behind its data, and no position in between starts one |
| `KvmCode.SetBit` | kvm/contract.go:218-220 | sets exactly the bit of one position |
| `KvmCode.SetEight` | kvm/contract.go:221-224 | sets exactly the bits of eight consecutive positions, across two bytes |
| `KvmCode.SetRange` | kvm/contract.go:241-252 | sets exactly the bits of the data of one PUSH |
| `KvmCode.CodeBitmap` | kvm/contract.go:231-256 | the eight-at-a-time analysis marks exactly the positions the one-at-a-time sweep skips, and every access stays inside the buffer of len/8+5 bytes |
| `KvmGas.CalcMemSize` | kvm/utils.go:28-51 | a memory size is refused exactly when offset plus length does not fit 64 bits; a zero length needs nothing at any offset |
| `KvmGas.RoundedSize` | kvm/interpreter.go:222-226 | the size in whole words is the next multiple of 32, and is refused exactly if that does not fit 64 bits |
| `KvmGas.ExpansionTelescopes` | kvm/gas.go:48-75 | no step wraps around: the fee is the difference of the total costs 3w + w*w/512 of the two sizes, and the running cost stays that of the current size |
| `KvmGas.CallShare` | kvm/gas.go:30-44 | under both rule sets and although the subtraction may wrap around, the charge for a call succeeds exactly when base (and, before Galaxias, share and constant again) is covered, and then the share is at most all but one 64th of what is left |
| `KvmGas.PlainCharge` | kvm/interpreter.go:248-259 | charges below 2^63 succeed exactly when covered and are taken exactly, before Galaxias together with the constant part once more |
| `KvmTable.TableFits` | kvm/instruction_set.go:63-957 | every entry of both tables fits its routine: stack bounds cover what routine and gas function take and leave, the memory size is that of the area touched and is charged for, routines that change accounts are marked as writes, every entry that lets a run go on costs gas, PUSHn skips n bytes, and the flags for halting, reverting, jumping and returning are those of its routine |
| `KvmColumns.Columns` | kvm/instruction_set.go:63-957 | which bytes are opcodes, and for each of them routine, words taken and given, base gas, dynamic gas, memory area and write mark |
| `KvmPrice.ChargeExact` | kvm/interpreter.go:248-259 | a charge in wrapping 64-bit arithmetic succeeds exactly when the price, before Galaxias the constant part once more, and the share of a nested call are covered, and takes exactly their sum |
| `KvmPrice.PriceBound` | kvm/gas.go:84-318 | every price of an instruction whose data fits the largest memory is far below 2^64, so no gas function overflows on it |
| `KvmPrice.ByteLenBound` | kvm/gas.go:198-209 | the exponent bytes that EXP charges for are the fewest the exponent fits in |
| `KvmPrice.DataFits` | kvm/memory.go:130-224 | the data a gas function charges for lies in the memory the instruction asks for |
| `KvmPrice.WantedCovers` | kvm/interpreter.go:212-227 | a memory of the size asked for, in whole words, covers everything the instruction touches |
| `KvmWorld.SupplyPut` | kai/state/state_object.go:376-406 | changing one account changes the sum of all balances by the difference |
| `KvmWorld.TransferConserves` | mainchain/kvm/kvm.go:104-112 | a covered transfer, also to oneself or to a new account, keeps the sum of balances and makes none negative; one of zero changes no account |
| `KvmWorld.DestructSupply` | kvm/instructions.go:780-790 | self-destruction keeps the sum of balances, except that a contract naming itself burns its balance |
| `KvmWorld.UndoConcat` | kai/state/journal.go:62-78 | undoing a longer journal is undoing its later part and then its earlier part |
| `KvmWorld.StateDB.Change` | kai/state/journal.go:53-59 | records how to undo a change and makes it; every live revision can still be restored |
| `KvmWorld.StateDB.CreateAccount` | kai/state/statedb.go:640-697 | resets an account but keeps its balance, undoably |
| `KvmWorld.StateDB.AddBalance` | kai/state/statedb.go:414-419 | adds to one balance, or only touches the account, undoably |
| `KvmWorld.StateDB.SubBalance` | kai/state/statedb.go:422-427 | takes from one balance, undoably |
| `KvmWorld.StateDB.Transfer` | mainchain/kvm/kvm.go:109-112 | takes from one balance and adds to another |
| `KvmWorld.StateDB.SetNonce` | kai/state/statedb.go:436-441 | changes one nonce, undoably |
| `KvmWorld.StateDB.SetCode` | kai/state/statedb.go:443-448 | changes one account's code, undoably |
| `KvmWorld.StateDB.SetState` | kai/state/statedb.go:450-455 | changes one storage slot, undoably; writing the same value records nothing |
| `KvmWorld.StateDB.Suicide` | kai/state/statedb.go:477-491 | marks and empties an existing account, undoably |
| `KvmWorld.StateDB.SelfDestruct` | kvm/instructions.go:780-790 | pays the balance out, then marks and empties the account |
| `KvmWorld.StateDB.NewContract` | kvm/kvm.go:451-452 | a new account with nonce one that keeps the balance found there |
| `KvmWorld.StateDB.AddRefund` | kai/state/statedb.go:259-263 | raises the refund, undoably |
| `KvmWorld.StateDB.AddLog` | kai/state/statedb.go:214-223 | appends one log, undoably |
| `KvmWorld.StateDB.Snapshot` | kai/state/statedb.go:839-844 | the new revision stands for the present world, and earlier revisions for theirs |
| `KvmWorld.StateDB.RevertJournal` | kai/state/journal.go:62-78 | the loop undoes exactly the entries from the end down to the position |
| `KvmWorld.StateDB.RevertToSnapshot` | kai/state/statedb.go:847-860 | the world is exactly the one the revision was taken of; older revisions stay live |
| `KvmFrame.GetData` | kvm/utils.go:55-65 | byte i of the result is byte start+i of the data, or zero past its end |
| `KvmFrame.SizeCovers` | kvm/memory.go:130-224 | a memory of the size asked for covers every area the routine reads or writes |
| `KvmFrame.StoreThenLoad` | kvm/memory.go:54-64 | a 32-byte store followed by a load of the same place gives the word back |
| `KvmFrame.FirstByteWeighsMost` | kvm/instructions.go:839-860 | words are read big-endian |
| `KvmFrame.SharedReturnData` | kvm/contracts.go:161-163 | return data that shares its bytes with memory reads as when the call returned exactly if a memory write changes no byte of the part they share |
| `KvmFrame.ReturnDataChanges` | kvm/instructions.go:637-672 | a store over the byte that was handed to the identity contract changes its return data |
| `KvmFrame.Scope.UseGas` | kvm/contract.go:177-183 | succeeds exactly when the gas covers it, and takes nothing otherwise |
| `KvmFrame.Scope.Resize` | kvm/memory.go:67-71 | keeps the contents and adds zeros |
| `KvmFrame.Scope.GetPtr` | kvm/memory.go:90-100 | returns exactly the bytes asked for; the area lies inside the memory at every call |
| `KvmFrame.Scope.Set` | kvm/memory.go:39-50 | writes the given bytes and nothing else; the out-of-range panic is unreachable |
| `KvmFrame.Scope.OpDup` | kvm/stack.go:80-82 | pushes the n-th word |
| `KvmFrame.Scope.OpSwap` | kvm/stack.go:76-78 | exchanges two words and leaves the others |
| `KvmFrame.Scope.OpPush1` | kvm/instructions.go:824-836 | the special one-byte form pushes what the general form would |
| `KvmFrame.Scope.OpPush` | kvm/instructions.go:839-860 | pushes the data bytes, padded with zeros past the end of the code |
| `KvmFrame.Scope.IsCode` | kvm/contract.go:117-140 | the answer from the cache shared between frames, from the frame's own analysis or from a fresh one is always that of the linear sweep |
| `KvmFrame.Scope.ValidJumpdest` | kvm/contract.go:88-100 | accepts exactly the positions of JUMPDEST instructions that are not PUSH data |
| `KvmFrame.Scope.OpJump` | kvm/instructions.go:519-526 | jumps exactly to valid destinations, and fails otherwise |
| `KvmFrame.Scope.OpJumpi` | kvm/instructions.go:528-540 | falls through on zero, else jumps exactly to valid destinations |
| `KvmFrame.Scope.OpMload` | kvm/instructions.go:483-488 | pushes the 32 bytes at the offset |
| `KvmFrame.Scope.OpMstore` | kvm/instructions.go:490-495 | writes the word's 32 bytes at the offset |
| `KvmFrame.Scope.OpMstore8` | kvm/instructions.go:497-501 | writes the low byte at the offset |
| `KvmFrame.Scope.OpDataCopy` | kvm/instructions.go:300-371 | copies the part of the data asked for, with zeros past its end |
| `KvmFrame.Scope.OpReturnDataCopy` | kvm/instructions.go:323-343 | succeeds exactly for a part the return data has, with an end that fits 64 bits, and then copies it; otherwise memory is unchanged |
| `KvmFrame.Scope.Resume` | kvm/instructions.go:660-671 | a nested call's outcome becomes a flag, a memory write no longer than the area reserved, and its leftover gas |
| `KvmCalls.KeepsTrans` | kvm/kvm.go:176-258 | what every piece of a run keeps is kept by their sequence: depth, read-only flag, live snapshots with their worlds, no balance from nothing, nothing changed while read-only |
| `KvmCalls.FrameKeeps` | kvm/interpreter.go:100-125 | what a frame keeps, its caller keeps, and a read-only frame changes nothing for a caller that could |
| `KvmCalls.StoredFacts` | kai/state/state_object.go:227-245 | a storage write is read back, leaves every other slot and account alone and moves no balance |
| `KvmCalls.LiveTrans` | kvm/kvm.go:245-252 | a snapshot taken before a callee ran is still live after it, so a revert never misses its target |
| `KvmCalls.KVM.MemoryGas` | kvm/gas.go:48-75 | charges the cost difference and keeps the running cost that of the size; refuses exactly sizes above 0x1FFFFFFFE0 |
| `KvmCalls.KVM.PerWordGas` | kvm/gas.go:84-106 | the cost of a copy or a hash is its memory fee plus the rate for every word of data, and it is refused exactly if the memory is too large or the length does not fit 64 bits |
| `KvmCalls.KVM.LogGas` | kvm/gas.go:132-160 | the cost of a log is its memory fee plus 375, 375 per topic and 8 per byte, and it is refused exactly if the memory is too large or that sum does not fit 64 bits |
| `KvmCalls.KVM.SStoreGas` | kvm/gas.go:115-130 | 20000 for a slot set from zero, else 5000; clearing a slot adds 15000 to the refund, and nothing else changes |
| `KvmCalls.KVM.SelfDestructGas` | kvm/gas.go:304-318 | 25000 if the beneficiary is missing, or is empty and about to get a balance, else nothing; adds 24000 to the refund unless the account is marked already, and changes nothing else |
| `KvmCalls.KVM.CallGas` | kvm/gas.go:211-302 | the base cost is the memory fee plus 9000 for value, 25000 for value sent to an empty account and 25000 for a missing account; the share is worked out from the gas left, base and share never overflow, and it is refused exactly if the memory is too large |
| `KvmCalls.KVM.DynamicGas` | kvm/gas.go:84-318 | every gas function reports exactly memory fee plus price in unbounded arithmetic, and the share for a nested call; with the data inside the memory asked for, it is refused exactly if that memory is too large; the refund it earns is all that changes of the world |
| `KvmCalls.KVM.Charge` | kvm/interpreter.go:200-263 | the charge succeeds exactly if the price, in unbounded arithmetic and under either rule set, can be paid, and takes exactly the price; an overflow is reported exactly when the memory size does not fit; memory then covers everything the instruction touches, new bytes are zero, and all fees paid add up to its cost; the share of a nested call is exact; what is left plus what a nested call may hold, stipend included, is less than before, and the share is at most all but one 64th |
| `KvmCalls.KVM.ExecuteStack` | kvm/instructions.go:256-293 | the routines that work on the stack make exactly the turn of the reference, for which see `KvmLaws.Arithmetic`, `PushBytes`, `StackMoves`, `ContextWords`, `LookupWords` and `MemoryReads` |
| `KvmCalls.KVM.ExecuteMemory` | kvm/instructions.go:490-774 | stores, RETURN and REVERT make exactly the turn of the reference, for which see `KvmLaws.MemoryWrites` and `RunEnds` |
| `KvmCalls.KVM.ExecuteCopy` | kvm/instructions.go:300-371 | each copy instruction makes exactly the turn of the reference, for which see `KvmLaws.MemoryCopies` |
| `KvmCalls.KVM.OpSstore` | kvm/instructions.go:511-517 | the slot of the running account holds the value afterwards, as `KvmCalls.StoredFacts` spells out; `KvmLaws.StorageWrites` says it of the whole turn |
| `KvmCalls.KVM.OpLog` | kvm/instructions.go:799-821 | exactly one log more, with the topics in the order popped and the memory area named; nothing else of the world changes |
| `KvmCalls.KVM.OpSuicide` | kvm/instructions.go:780-790 | the balance is paid out or burned, and the account marked |
| `KvmCalls.KVM.ExecuteChange` | kvm/interpreter.go:270-288 | SSTORE, LOGn and SELFDESTRUCT make exactly the turn of the reference, for which see `KvmLaws.StorageWrites`, `LogAdded` and `Destructs` |
| `KvmCalls.KVM.ExecuteJump` | kvm/instructions.go:519-540 | JUMP and JUMPI make exactly the turn of the reference, for which see `KvmLaws.Jumps` |
| `KvmCalls.KVM.RunPrecompiled` | kvm/contracts.go:71-79 | succeeds exactly when the gas covers it and it yields a result; never returns more gas than it got, and no data on a failure |
| `KvmCalls.KVM.Settle` | kvm/kvm.go:248-257 | on an error the world is the one before the call; all gas is kept on success and on a revert, and none otherwise |
| `KvmCalls.KVM.RunContract` | kvm/kvm.go:56-70 | a new frame ends with exactly the bytes, gas, error and world of the reference frame |
| `KvmCalls.KVM.RunTarget` | kvm/kvm.go:217-243 | what is at the address, a precompile, code or nothing, ends exactly as in the reference |
| `KvmCalls.KVM.Pay` | kvm/kvm.go:193-209 | makes a missing account and moves the value, keeping the sum of balances |
| `KvmCalls.KVM.Call` | kvm/kvm.go:176-258 | bytes, gas, error and world are exactly those of the reference, whose cases `KvmRuns.CallEnds` lists; a failing call leaves the world as it was; leftover never exceeds supply and is zero on every failure other than a revert; refusals cost nothing; live snapshots, total balance and read-only worlds are kept |
| `KvmCalls.KVM.CallCode` | kvm/kvm.go:267-313 | the same guarantees; bytes, gas, error and world are those of running the other account's code for the caller's account, as `KvmRuns.BorrowedCallsEnd` lists them |
| `KvmCalls.KVM.DelegateCall` | kvm/kvm.go:320-357 | the same guarantees; bytes, gas, error and world are those of running the other account's code for the calling account, with its own caller and value, as `KvmRuns.BorrowedCallsEnd` lists them |
| `KvmCalls.KVM.StaticCall` | kvm/kvm.go:363-416 | no balance, nonce, code, storage slot, log or refund changes, whatever the callee calls, and the read-only flag is as before; bytes, gas and error are those of running the callee read-only and without value, as `KvmRuns.StaticCallEnds` lists them |
| `KvmCalls.KVM.CreateAt` | kvm/kvm.go:431-514 | bytes, gas, error and world are exactly those of the reference, whose cases `KvmRuns.CreationEnds` lists; a failing creation leaves the world as it was apart from the creator's nonce |
| `KvmCalls.KVM.Deploy` | kvm/kvm.go:478-504 | stores the code exactly if the run finished, the code is small enough and it can be paid for, and else undoes the creation with the error of the first of these that failed |
| `KvmCalls.KVM.Create` | kvm/kvm.go:517-520 | the guarantees of CreateAt at the address of caller and nonce |
| `KvmCalls.KVM.Create2` | kvm/kvm.go:526-530 | the guarantees of CreateAt at the address of caller, salt and code |
| `KvmCalls.KVM.OpCall` | kvm/instructions.go:637-760 | the four call instructions make exactly the turn of the reference, for which see `KvmRuns.CallTurns`, keep what a call keeps, and end with less gas than the step began with, even when the stipend was added |
| `KvmCalls.KVM.OpCreate` | kvm/instructions.go:561-599 | hands on all but one 64th of the gas and makes exactly the turn of the reference, for which see `KvmRuns.CreateTurns`; ends with less gas than the step began with |
| `KvmCalls.KVM.OpCreate2` | kvm/instructions.go:601-635 | hands on all gas and makes exactly the turn of the reference, for which see `KvmRuns.CreateTurns`; ends with less gas than the step began with |
| `KvmCalls.KVM.Execute` | kvm/interpreter.go:270-288 | the turn made is exactly the one the reference gives for the instruction; one that lets the run go on leaves at most 1024 words, memory paid for, and the next fetch at an instruction start |
| `KvmCalls.KVM.Conclude` | kvm/interpreter.go:273-288 | after an instruction the loop stops with its error or its bytes, or moves on, as the flags of its table entry say |
| `KvmCalls.KVM.Perform` | kvm/interpreter.go:200-288 | an instruction that passed the checks is charged for and executed exactly as in the reference, bytes and error included |
| `KvmCalls.KVM.Run` | kvm/interpreter.go:100-291 | bytes, gas, error and world are exactly those of the reference frame, one level down; depth and read-only flag are restored at every exit, gas never grows, and in a read-only frame nothing changes |
| `KvmCalls.KVM.RunLoop` | kvm/interpreter.go:165-290 | the loop ends exactly as the turns of the reference end; gas alone bounds it: every turn that is not the last uses some; the loop-head invariant holds at every turn |
| `KvmCalls.KVM.Step` | kvm/interpreter.go:166-288 | a turn is the last exactly if the reference says so, with its bytes and error, and otherwise leaves exactly the machine it says: program counter, stack, memory, gas, return data and world, by the opcode byte fetched (`KvmLaws`, `KvmRuns.GoesOn`); the next loop head has at most 1024 words, memory paid for exactly, and the program counter past the code or at an instruction start; every turn keeps live snapshots, total balance and read-only worlds |
| `KvmSemantics.CostFacts` | kvm/interpreter.go:200-260 | a turn that goes on costs something, and what it leaves and hands over is less than there was |
| `KvmSemantics.ChargedEnough` | kvm/interpreter.go:212-263 | once it is paid for, an instruction has the words and the memory it works on |
| `KvmLaws.Refusals` | kvm/interpreter.go:177-260 | an instruction that does not pass ends the run, with exactly this error: invalid opcode, stack underflow, stack overflow, write protection, overflow of the memory size, or out of gas, each if and only if its check is the first to fail |
| `KvmLaws.DueIs` | kvm/interpreter.go:200-260 | the price of each opcode byte in plain arithmetic: base gas, once or twice by the rules in force, growth of memory, surcharge and share; and exactly when it can be paid |
| `KvmLaws.HandedIs` | kvm/gas.go:30-44 | the gas handed to a nested call is the amount asked for, at most all but one 64th of what the rest leaves, plus 2300 if it carries value |
| `KvmLaws.MemoryGrows` | kvm/interpreter.go:212-263 | memory grows, by zeros, to whole words that hold what the instruction names, and never shrinks |
| `KvmLaws.KeepsMemory` | kvm/interpreter.go:212-263 | an opcode that names no memory leaves it alone |
| `KvmLaws.Arithmetic` | kvm/instructions.go:30-235 | 01-0b and 10-1d replace their arguments by the result, and change nothing else but gas and program counter |
| `KvmLaws.PushBytes` | kvm/instructions.go:824-860 | 60-7f push the next bytes of the code, zeros past its end, and skip them |
| `KvmLaws.StackMoves` | kvm/instructions.go:863-878 | 80-8f copy the n-th word, 90-9f exchange two words, 50 drops one, 5b does nothing |
| `KvmLaws.ContextWords` | kvm/instructions.go:256-558 | the word pushed by each opcode that reads the frame, its account, the block or the transaction |
| `KvmLaws.LookupWords` | kvm/instructions.go:261-508 | what takes the place of the word that names it: a balance, 32 bytes of input, a code size or hash, a block hash, a storage slot |
| `KvmLaws.MemoryReads` | kvm/instructions.go:237-488 | 20 pushes the hash of the bytes named, 51 the word at the offset |
| `KvmLaws.MemoryWrites` | kvm/instructions.go:490-501 | 52 leaves 32 bytes that read as the word, 53 its last byte; all other bytes stay |
| `KvmLaws.StorageWrites` | kvm/instructions.go:511-517 | 55: the slot holds the word, all other slots, accounts, balances and logs are as before, and 15000 is refunded exactly if a slot is cleared |
| `KvmLaws.Jumps` | kvm/instructions.go:519-540 | 56 and 57 go to a JUMPDEST or end the run with an invalid jump; 57 falls through on zero |
| `KvmLaws.MemoryCopies` | kvm/instructions.go:300-415 | 37, 39, 3c and 3e: every byte of the area is the byte of input, code, other code or return data asked for, zero past the end, all others stay; 3e fails exactly if the return data has not got them |
| `KvmLaws.LogAdded` | kvm/instructions.go:799-821 | a0-a4: one log more, of this account, with the topics in the order popped and the bytes named |
| `KvmLaws.RunEnds` | kvm/instructions.go:762-778 | 00 ends the run without data, f3 with the bytes named, fd as a revert with the bytes named; gas left is kept |
| `KvmLaws.Destructs` | kvm/instructions.go:780-790 | ff: the balance goes to the beneficiary or is burned, the account is marked, all others stay, and 24000 is refunded the first time |
| `KvmRuns.GoesOn` | kvm/interpreter.go:166-288 | a turn goes on if and only if its instruction passes, is none of 00, f3, fd and ff, jumps only to a JUMPDEST and copies only return data there is; and then it has used exactly the price if it ran no other code |
| `KvmRuns.CallTurns` | kvm/instructions.go:637-760 | f1, f2, f4 and fa go on with a flag for the outcome, the result written back as far as asked for and only on success or revert, the gas left over, the return data and the world of the call they made: whose code, for which account, by whom and with what |
| `KvmRuns.CreateTurns` | kvm/instructions.go:561-635 | f0 and f5 go on with the new address or zero, the gas left over, data only from a revert, and the world of the creation they made |
| `KvmRuns.PaidIs` | kvm/kvm.go:193-209 | the value leaves the caller and reaches the callee, whose account is there afterwards; nothing else changes |
| `KvmRuns.EndowedIs` | kvm/kvm.go:451-459 | a new contract has nonce one, no code, no storage, and the balance found there plus the endowment |
| `KvmRuns.CallEnds` | kvm/kvm.go:176-258 | all a call can come to: nothing when nested calls are off, depth or balance error with all gas, a precompile's result or failure, success with all gas when there is no code, and else exactly how the callee's frame ended, undone unless it finished |
| `KvmRuns.BorrowedCallsEnd` | kvm/kvm.go:267-357 | the same for calls that run another account's code for the caller's account |
| `KvmRuns.StaticCallEnds` | kvm/kvm.go:363-416 | the same for static calls, which run read-only |
| `KvmRuns.CreationEnds` | kvm/kvm.go:431-514 | all a creation can come to: depth or balance error, collision, and otherwise the run of its code, which succeeds exactly if it finishes, returns at most 39231 bytes and leaves 200 gas for each of them |
| `KvmRuns.CallRefusals` | kvm/kvm.go:176-192 | a call fails with the depth or the balance error exactly when that check fails, and then leaves the world as it was |
| `KvmRuns.CreationRefusals` | kvm/kvm.go:431-450 | a creation fails with the depth, the balance or the collision error exactly when that check fails |
| `KvmRuns.FrameErrors` | kvm/interpreter.go:165-290 | however deep it nests, a frame ends with one of eight errors, never with a refusal |
| `KvmRuns.FrameRuns` | kvm/interpreter.go:165-290 | every frame has a run: turns that lead from one machine to the next, and a last one that is over or cancelled, at most one more than it has gas |
| `KvmRuns.RunIsUnique` | kvm/interpreter.go:165-290 | and no other run from the same start |
| `KvmRuns.CodeRuns` | kvm/interpreter.go:100-165 | a called frame is a run from program counter zero with empty stack, memory and return data |
| `Scheduler.NewSchedulerInv` | blockchain/scheduler.go:201-218 | a new scheduler satisfies the invariant |
| `Scheduler.RemovePeerInv` | blockchain/scheduler.go:242-282 | removing a peer keeps the window gap-free, bounded and full, and the four maps in agreement |
| `Scheduler.AddNewBlocksInv` | blockchain/scheduler.go:287-300 | filling the window makes it gap-free and exactly as long as targetPending and the best Ready peer allow |
| `Scheduler.SetPeerRangeInv` | blockchain/scheduler.go:302-325 | a status, accepted or refused, keeps the invariant |
| `Scheduler.MarkReceivedInv` | blockchain/scheduler.go:381-403 | a received block keeps the invariant, owned by the peer it came from |
| `Scheduler.MarkPendingInv` | blockchain/scheduler.go:405-435 | a request keeps the invariant, owned by the peer it went to |
| `Scheduler.MarkProcessedInv` | blockchain/scheduler.go:437-450 | a processed block moves the window by one, fills it again, and keeps the invariant |
| `Scheduler.HandleInv` | blockchain/scheduler.go:539-720 | every event keeps: tracked heights are gap-free from the next height, and exactly as many as targetPending and the best Ready peer allow; pending and received maps hold exactly the Pending and Received heights, each owned by a Ready peer that reaches it; only a processed block moves the height, by one; the panic occurs exactly on an unexpected processed height |
| `Scheduler.WindowExact` | blockchain/scheduler.go:287-300 | a height is tracked if and only if it is in the window of targetPending heights and a Ready peer has it |
| `SchedulerEvents.TrackedExactly` | blockchain/scheduler.go:287-300 | after every event exactly the heights of the window that some Ready peer has are tracked |
| `SchedulerEvents.StatusEffect` | blockchain/scheduler.go:302-325 | a status is ignored from a removed peer, gets the peer removed if it goes back or contradicts itself, and else fills the window for its range; no other height changes |
| `SchedulerEvents.ResponseEffect` | blockchain/scheduler.go:540-569 | a block is marked received exactly if it was asked from that Ready peer and comes later; else a Ready sender is removed, its heights are free again or, if nobody else has them, no longer tracked, and all others stay |
| `SchedulerEvents.ScheduleEffect` | blockchain/scheduler.go:660-678 | a request marks the lowest free height as asked from the chosen peer, and no other height |
| `SchedulerEvents.LeaveEffect` | blockchain/scheduler.go:556-619 | a peer without the block, or one that left, is removed: its heights are free again or, if nobody else has them, no longer tracked, and all others stay |
| `SchedulerEvents.FailureEffect` | blockchain/scheduler.go:588-604 | a block that failed verification removes both its peers, with the same effect on their heights and no other |
| `SchedulerEvents.ProcessedEffect` | blockchain/scheduler.go:571-586 | a processed block is no longer tracked, every other height keeps its entry, and the window is filled to its new end; syncing is done exactly if no peer has more |
| `SchedulerEvents.OtherEffects` | blockchain/scheduler.go:571-658 | another processed height panics; a new peer is noted once |
| `SchedulerEvents.PruneEffect` | blockchain/scheduler.go:621-646 | pruning removes the late and then the slow peers, with the same effect on their heights and no other |
| `Scheduler.BestUnique` | blockchain/scheduler.go:497-521 | the best peer for a height is unique |
| `Scheduler.ListUnique` | blockchain/scheduler.go:350-363 | a set of peers has one order by identifier |
| `SchedulerRuns.ScheduleOutcome` | blockchain/scheduler.go:660-678 | a request is for the lowest New height and goes to a covering Ready peer with the fewest open requests, ties by identifier, and marking it never fails; the other outcomes occur exactly on timeout, when nothing is New, or when no Ready peer covers the lowest New height |
| `SchedulerRuns.FailureIsAboutBases` | blockchain/scheduler.go:337-348 | when no peer covers the lowest New height, a Ready peer does reach it but starts above it |
| `SchedulerRuns.RequestCanFail` | blockchain/scheduler.go:497-501 | one peer with base above the next height makes the scheduler report a failure |
| `SchedulerRuns.AcceptedAnswersRequest` | blockchain/scheduler.go:540-554 | a block is accepted exactly from the Ready peer it is pending from and later than it was asked for; another Ready sender is removed |
| `SchedulerRuns.PruneOutcome` | blockchain/scheduler.go:621-646 | pruning removes exactly the slow or silent Ready peers, reports them in the order of their identifiers unless syncing is done, and is idle exactly if there are none |
| `SchedulerRuns.RunInv` | blockchain/scheduler.go:688-720 | the invariant holds in every state of every run |
| `SchedulerRuns.AskedAgainOnlyAfterRemoval` | blockchain/scheduler.go:242-282 | in every run a height is asked for again only after the peer it was asked from has been removed, and then from another peer |
| `SchedulerState.Sched.MaxHeight` | blockchain/scheduler.go:460-471 | the loop finds the best Ready height, or the last processed one |
| `SchedulerState.Sched.AllBlocksProcessed` | blockchain/scheduler.go:452-457 | true exactly with some peer and none above the height |
| `SchedulerState.Sched.NextHeightToSchedule` | blockchain/scheduler.go:474-485 | the loop finds the lowest New height, or that there is none |
| `SchedulerState.Sched.GetPeersWithHeight` | blockchain/scheduler.go:337-348 | the loop finds exactly the covering Ready peers |
| `SchedulerState.Sched.PendingFrom` | blockchain/scheduler.go:487-495 | the loop counts exactly the peer's open requests |
| `SchedulerState.Sched.SelectPeer` | blockchain/scheduler.go:497-521 | grouping by load and taking the first of the least loaded group finds the best peer, or that there is none |
| `SchedulerState.Sched.RemovePeer` | blockchain/scheduler.go:242-282 | the four loops together do what the value-level removal does |
| `SchedulerState.Sched.AddNewBlocks` | blockchain/scheduler.go:287-300 | the loop fills exactly the missing part of the window |
| `SchedulerState.Sched.SetPeerRange` | blockchain/scheduler.go:302-325 | the updates in place end in exactly the state that `Scheduler.SetPeerRangeInv` is about, with the same verdict on the peer |
| `SchedulerState.Sched.HandleBlockResponse` | blockchain/scheduler.go:540-554 | the updates in place give exactly the state and answer that `SchedulerRuns.AcceptedAnswersRequest` is about |
| `SchedulerState.Sched.HandleTrySchedule` | blockchain/scheduler.go:660-678 | the loops make the unique choices that `SchedulerRuns.ScheduleOutcome` is about |
| `SchedulerState.Sched.PrunablePeers` | blockchain/scheduler.go:350-374 | the loops find exactly the slow or silent Ready peers, once each, and sort them |
| `SchedulerState.Sched.HandleTryPrunePeer` | blockchain/scheduler.go:621-646 | the late peer and then the slow ones, in order, are removed as `SchedulerRuns.PruneOutcome` says |
| `SchedulerState.Sched.Handle` | blockchain/scheduler.go:688-720 | one event takes the object to exactly the state and output that `Scheduler.HandleInv` and the rows of `SchedulerEvents` are about |
| `Processor.HandleProcInv` | blockchain/processor.go:123-192 | every event keeps: queued blocks are above the height and filed under their own; applied blocks are consecutive and each confirmed by the commit in the next; the height moves only with a processed event, by one, and the event names it |
| `Processor.ReceiveEffect` | blockchain/processor.go:140-149 | a block is queued under its height with its sender exactly if it is above the height and none is queued there; a second one above the height panics; nothing else changes |
| `Processor.AdvanceEffect` | blockchain/processor.go:151-188 | the next block is applied exactly if it and its successor are queued, it verifies against the commit in its successor and it applies; one that does not verify drops all blocks of both senders, and one that does not apply panics |
| `Processor.EndEffects` | blockchain/processor.go:123-139 | what a finished scheduler and a peer error do to the queue |
| `Processor.Pc.PurgePeer` | blockchain/processor.go:113-120 | the loop removes exactly the peer's blocks |
| `Processor.Pc.ProcessNext` | blockchain/processor.go:151-188 | the updates in place end in exactly the state and output that `Processor.HandleProcInv` is about |
| `Processor.Pc.Handle` | blockchain/processor.go:123-192 | one event takes the object to the state and output HandleProcInv is about |
| `FastSync.NextInv` | blockchain/processor.go:140-188 | every step of scheduler and processor together keeps both invariants and their alignment, and never makes the scheduler panic |
| `FastSync.Lockstep` | blockchain/scheduler.go:571-586 | in every run with in-order delivery and matching start heights, scheduler height plus events in flight equals processor height plus one, and the scheduler's mismatch panic is unreachable |
| `FastSync.AppliesInOrder` | blockchain/processor.go:151-188 | in every run the processor applies consecutive heights, each confirmed by its successor's commit, and never takes one back |
| `Wal.DecodeFrame` | consensus/wal.go:292-410 | decoding a frame gives its message and leaves exactly what followed |
| `Wal.FrameLayout` | consensus/wal.go:292-321 | a record is four bytes of checksum, four of length, the most significant first, and the data |
| `Wal.DecodePrefix` | consensus/wal.go:357-410 | whatever follows them, whole frames decode to their messages first |
| `Wal.RoundTrip` | consensus/wal.go:292-410 | decoding a concatenation of encoded messages gives exactly those messages and a clean end of file |
| `Wal.Decoder.DecodeNext` | consensus/wal.go:357-410 | the reads in place decode what the value-level function says, with the same rest |
| `Wal.Encoder.Encode` | consensus/wal.go:292-321 | refuses exactly messages without a wire form or above the size limit, and otherwise appends one frame |
| `Wal.RepairWalFile` | consensus/state.go:1756-1788 | for any input bytes, repair succeeds exactly when every message before the first error can be written again, and then the new log decodes to precisely those messages and ends cleanly |
| `Wal.CutFrame` | consensus/wal.go:357-403 | a record cut short is refused, except exactly when only zero bytes were lost, given a checksum that tells the data from its zero-filled prefixes |
| `Wal.TornLog` | consensus/wal.go:357-403 | a log whose last write was torn keeps all earlier messages, and the torn one exactly when it lost only zero bytes |
| `Wal.CutCanGoUnnoticed` | consensus/wal.go:357-403 | whatever the checksum, a record whose data ends in zeros still decodes without any of them, as long as a byte of its data is there |

## Left out

- VoteSets: vote sets are values, so their update in place and sharing between routines are not captured.
- RoundMachine: crash and restart of a node, replay of its log and the private validator's last-signature record.
- Gossip routines, peer state, the event bus, RPC and the reactors around the cores.
- Signatures, hashing, Merkle proofs and block part assembly; a complete block or a failure to decode it is an input.
- Choice of proposer and proposer priorities: any signed proposal may arrive, so safety does not depend on them.
- KvmCalls: results of 256-bit arithmetic and of precompiles, and tracing hooks.
- KvmFrame.Scope.OpReturnDataCopy: return data is a value, so that the identity contract's result shares its bytes with memory, until memory is reallocated, is not captured; SharedReturnData says when that shows.
- Network.SanityChecksHold: a node stopped by a wrong part set is not ruled out, because the headers in proposals and votes and the assembly of parts are inputs.
- VoteSets.CanonicalQuorum: speaks of block keys, which leave out the number of parts; MakeCommit also drops votes that differ only in that number.
- KvmWorld: committing accounts to the trie, access lists, transient storage, preimages and deletion of empty accounts.
- KvmWorld.StateDB.RevertToSnapshot: the panic on a revision that is not live is a precondition, proved at every call.
- Processor.Pc.Handle: the panics on a duplicate block and on a block that fails to apply are outputs, not proved unreachable.
- The reset event of scheduler and processor, which is taken as the start of a run.
- SearchForEndHeight and log files split into a group.
- KSML, smart contract bytecode, transaction pool and state transition around a call.
