# ChainBridge: a verified model of the bridge, its ERC20 handler, its token and the relayer step

ChainBridge moves tokens between two chains. On each chain a bridge contract collects the votes
of relayers on proposals and calls a handler contract once a proposal has passed; the ERC20
handler takes fees and locks, burns, releases or mints tokens of a token contract; relayers
written in Go read deposit events on one chain and vote on the other. The Go bindings carry the
deployed contracts as bytecode, and that bytecode is what is modelled here, together with the
hand-written Go that joins the two chains.

## How the model is built

| file | what it holds |
|---|---|
| `Words`, `Arithmetic`, `Bits`, `Bytes` | word sizes, rounded division, vote masks bit by bit, big-endian byte strings |
| `AddressSets` | the enumerable set behind the relayer role, as a value and as storage updated in place |
| `Protocol` | the bridge as a transition system: `Step` gives the outcome of one call |
| `Bridge` | the bridge contract as a class with storage, re-entrant calls and reverts, tied to `Protocol` |
| `History`, `Masks`, `Invariants` | what the committed history says, vote masks against moving positions, and the inductive invariant |
| `Operations`, `Voting` | what every bridge call answers and does, exactly: when it commits, what it changes, and what it leaves alone |
| `Theorems`, `Quorums`, `Terms`, `Authority` | what follows for every reachable state: execution, counting, quorum, nonces; what a quorum of votes achieves; what votes fix about an execution; who can move a proposal |
| `Witnesses` | concrete reachable runs that show where the conditions are needed |
| `Ledger`, `TokenLaws`, `Tokens` | the token's rules, what each call answers and moves as double entry, laws over runs, and the token contract as a class tied to the rules |
| `Payload` | the byte layout amount, recipient length, recipient, and its readers and writer |
| `Erc20Handler`, `HandlerLaws` | fees, deposits and executed proposals, with the handler contract as a class; when it accepts either, and what its registry means |
| `Relay` | the relayer step from a deposit event to a message, decimals and rounding |
| `EventIterator` | the event iterator of the bindings against a log producer |
| `Outcomes`, `Chains`, `Parts` | one call from outside seen by its trades, two chains with any number of resources, handlers and tokens, and what a turn on them amounts to |
| `Backing` | the surplus of an asset across the two chains, and the exact law of the calls that change it |
| `Conduct`, `Rounding` | the conditions on executing calls under which the asset stays backed, with equal decimals and between different ones |
| `Shortfall` | three runs with votes for announced deposits in which one executing relayer breaks the backing |

The contracts change storage in place, so each is a class. Every method is proved equal to a
transition function (`Protocol.Step` and its parts, `Ledger.TokenStep`, `Erc20Handler.DepositStep`
and `ExecuteStep`, `EventIterator.NextStep`), reverts included, and the laws are proved about all
runs of those functions.

- **Calls and reverts.** A call either commits (`Ok`) or leaves the storage as it was (`Err`).
  The classes update fields first and put a snapshot back on a revert, as the machine does.
- **Re-entrance.** What a handler does is an arbitrary finite tree (`HandlerRun`): whether the
  address has code, the bridge calls it makes (each with handlers of its own), and whether it
  returns. The theorems about `Reachable` states quantify over all such trees.
- **History.** The state carries a journal of committed events. It includes the events the
  contract emits and a few that it does not (a counted vote with its position and terms, the
  mapping of a resource, a jump of the deposit counter); they are there to state properties and
  no transition reads them.
- **Inputs.** The sender, the block number, the administrator's decisions and the fee settings
  returned for a destination are parameters of each call.
- **Hash.** The digest is an arbitrary function. Where collisions matter, a theorem assumes that no
  two different payloads *in the history of that run* collide, and nothing else.
- **Word sizes** are explicit: 72-bit keys, 200-bit masks, `uint8` counters and thresholds, 64-bit
  nonces, block ages modulo 2^40, checked 256-bit arithmetic.

## What was found

- The vote counter does not always equal the number of set bits. A vote bit is `1 << (index - 1)`
  in a 256-bit word, which is 0 for an index above 256. Positions 201 to 256 are refused by the
  200-bit check, but a higher position passes it, counts, leaves no bit, and can vote again.
  `adminAddRelayer` stops at 200 relayers; `grantRole` and the constructor do not. The exact law is
  `Theorems.CounterAgainstBits`: the two agree if and only if no vote was counted from a position
  above 256, which is so whenever there were never more than 256 relayers. A reachable state that
  breaks the equality is built in `Witnesses.CounterWithoutBits`.
- The checked 8-bit increment nevertheless never fails, in any reachable state
  (`Theorems.IncrementNeverFails`): the threshold is 8 bits wide too, so an open proposal always
  has room for one more vote.
- One relayer can reach the threshold with several votes. Removal moves the last relayer into the
  free position, and with it the removed relayer's bit, so a relayer that has voted may vote again
  (`Witnesses.OneVoterAfterRemoval`); and a relayer above position 256 may vote any number of
  times without a removal (`Witnesses.OneVoterFromAbove`). The exact law is `Theorems.Quorum`:
  the votes are the distinct voters plus the repeated votes, and at most one repeated vote leaves
  a bit for each relayer removed since the first vote. So the threshold is met by distinct voters,
  removals and bitless repeats together.
- The votes do not fix the terms of the execution. The hash covers the handler and the data only;
  the resource (which names the token) and the destination domain (which names the fee) come from
  the executing relayer alone. A passed proposal can be executed under a resource if and only if
  that resource is mapped to the handler in its key, and then under every destination
  (`Terms.ExecutableUnder`); the resource is fixed if and only if no other is mapped to the handler
  (`Terms.ResourceFixedNow`), the destination never. `Witnesses.ExecutorPicksTerms` is such a run.
- So backing does not follow from honest votes. Call the surplus of an asset what the home handler
  holds less the foreign supply and the deposits in flight. An executing call changes it by exactly
  what the deposit it answers took in of the asset, less what the call pays out of it
  (`Backing.CallLaw`); no other turn lowers it. So an executing call keeps the asset covered if and
  only if it pays out no more than that and the surplus before (`Backing.CoverKept`), and over every
  run what is held, plus what all executing calls together overpaid, covers supply and flight
  (`Backing.Covered`).
  - In `Shortfall.OtherResource` every vote is on the terms of its deposit, and one relayer executes
    under another resource of the same handler: nothing is held and 5 are in flight.
  - In `Shortfall.OtherDestination` one relayer executes under a destination with a lower fee: 3 are
    held and 5 exist.
  - In `Shortfall.AloneByNow` the deposit's resource is mapped to another handler before the
    execution. The resource executed under is then alone on its handler, and the handler pays all
    the same: what counts is which resources were ever mapped to it.
  - `Conduct.Backed` holds when every executing call answers a deposit of its own resource, or its
    resource alone was ever mapped to its handler, and pays no more under its destination than
    under the deposit's own. `Conduct.BackedBySeclusion` needs no condition on executions when the
    resource has its handlers to itself throughout and one fee for all destinations.
- The bridge tolerates a handler that fails, but not a handler address without code. A vote in time
  that reaches the threshold commits if and only if the address has code
  (`Voting.CodelessHandlerUndoesVote`); otherwise the vote itself is undone, so no proposal ever
  passes (`Authority.NothingPassesWithoutCode`). In `Witnesses.StuckWithoutCode` a proposal stays one
  vote short and expires, where a failing handler would have let it pass.
- Between these limits the votes do what they are for: as many votes as are missing, of different
  relayers in time, always pass a proposal, and it is executed if and only if the handler returns
  for the passing vote or a later one (`Quorums.QuorumDecides`).
- The amount written into proposal data is not cut to 32 bytes, so the round trip holds exactly
  for amounts below 2^256 (`Payload.AmountSurvives`).
- The decimals lookup depends on the iteration order of a Go map exactly when one resource is
  configured both with and without the prefix `0x`, the two entries differ in their decimal
  difference, and the amount is at least one unit of what the smaller difference drops
  (`Relay.OrderIndependent`, with `Relay.AmbiguousConfiguration` as an example).
- The doc comments in the Go bindings (for example the signature given for `voteProposal`) are
  older than the ABI string and the bytecode; the model follows the ABI and the bytecode.

## Model

| member | source | states |
|---|---|---|
| AddressSets.MembersAreDistinct | bindings/Bridge/Bridge.go:41 | stored values are distinct, a member is exactly an address with a nonzero index, and two members never share an index, hence never a vote bit |
| AddressSets.AddRefinesInsert | bindings/Bridge/Bridge.go:41 | adding is set insertion, moves nobody, and a new member gets the next position |
| AddressSets.RemoveRefinesDelete | bindings/Bridge/Bridge.go:41 | swap-and-pop is set deletion; only the last member moves, into the position that became free |
| AddressSets.RunRefinesSet | bindings/Bridge/Bridge.go:41 | over every run of additions and removals the structure holds the members of a mathematical set, at pairwise different positions |
| AddressSets.EnumerableSet.Add | bindings/Bridge/Bridge.go:41 | the in-place addition gives the specified set and reports whether the member is new |
| AddressSets.EnumerableSet.Remove | bindings/Bridge/Bridge.go:41 | the in-place swap-and-pop, with its shortcut for the last member, gives the specified set and reports whether a member left |
| AddressSets.EnumerableSet.IndexOf | bindings/Bridge/Bridge.go:41 | a nonzero answer is the 1-based place where the address is stored, and zero means it is not a member |
| Bits.OrSetsOneBit | bindings/Bridge/Bridge.go:41 | setting a vote bit sets that bit and keeps all others |
| Bits.AndTestsOneBit | bindings/Bridge/Bridge.go:41 | hasVoted's mask test is nonzero exactly when that bit is set |
| Bits.OrCountsOneBit | bindings/Bridge/Bridge.go:41 | setting a clear bit adds exactly one to the number of set bits |
| Bits.OrKeepsWidth | bindings/Bridge/Bridge.go:41 | the mask still fits its width exactly when the position does, which is what the 200-bit check decides |
| Bits.PopcountWithinWidth | bindings/Bridge/Bridge.go:41 | a mask of a given width has at most that many bits set |
| Bytes.FromToBytes | bindings/Bridge/Bridge.go:41 | a number that fits is read back from its big-endian bytes |
| Bytes.PackedInjective | bindings/Bridge/Bridge.go:41 | 20 address bytes followed by data determine both |
| Bridge.Contract.Create | bindings/Bridge/Bridge.go:41 | deployment refuses a threshold over 8 bits or an expiry over 40 bits, and otherwise grants the role to every listed relayer without a limit |
| Bridge.Contract.Transact | bindings/Bridge/Bridge.go:38-41 | every call into the bridge commits the specified storage or replies with an error and leaves all storage as it was |
| Bridge.Contract.VoteProposal | bindings/Bridge/Bridge.go:38-41 | voteProposal in place: check order, opening, expiry, counting, passing and executing give the specified outcome, even when the handler re-enters |
| Bridge.Contract.RecordVote | bindings/Bridge/Bridge.go:30-41 | the counted vote: bit set within 200 bits, checked increment, Passed at the threshold in force, stored in one write |
| Bridge.Contract.ExecuteProposal | bindings/Bridge/Bridge.go:41 | Executed is written before the handler is called; a failure reverts everything or puts Passed back |
| Bridge.Contract.CallHandler | bindings/Bridge/Bridge.go:41 | the calls of a handler take effect exactly if it returns; if it fails, all of them are undone |
| Bridge.Contract.CancelProposal | bindings/Bridge/Bridge.go:41 | cancelProposal in place gives the specified outcome |
| Bridge.Contract.MakeDeposit | bindings/Bridge/Bridge.go:41 | deposit in place: the counter is raised before the handler runs, the event carries the raised value, a failing handler undoes it |
| Bridge.Contract.Administer | bindings/Bridge/Bridge.go:41 | relayer roles with the limit of 200 on adminAddRelayer only, threshold, deposit counter and pause give the specified outcome |
| Bridge.Contract.GrantRelayerRole | bindings/Bridge/Bridge.go:41 | granting is idempotent and unlimited |
| Bridge.Contract.RevokeRelayerRole | bindings/Bridge/Bridge.go:41 | revoking removes a current relayer and otherwise does nothing |
| Invariants.StepKeeps | bindings/Bridge/Bridge.go:41 | every committed call, with everything nested in it, keeps the invariant on records, mask, counter, quorum and nonces, and only moves a proposal forward |
| Invariants.VoteKeeps | bindings/Bridge/Bridge.go:41 | the same for voteProposal in all its branches |
| Invariants.CallKeeps | bindings/Bridge/Bridge.go:41 | the same for executing a proposal, while the handler call is under way and after it |
| Invariants.DepositKeeps | bindings/Bridge/Bridge.go:41 | the same for deposit, while the handler runs under a nonce already assigned |
| Invariants.RunKeeps | bindings/Bridge/Bridge.go:41 | the same for every sequence of calls |
| Masks.MaskGainsVoter | bindings/Bridge/Bridge.go:41 | if the mask marks exactly the voters' positions, it still does after a counted vote |
| Invariants.RevokeKeepsQuorum | bindings/Bridge/Bridge.go:41 | removing a relayer exposes at most one more voter to voting again with a bit, and none before the first vote |
| Theorems.ReachableInv | bindings/Bridge/Bridge.go:41 | the invariant holds in every state reachable from any deployment |
| Theorems.ExecutedExactlyOnce | bindings/Bridge/Bridge.go:41 | in every reachable state a proposal has one committed successful handler call if it is Executed and none otherwise, under any re-entrance |
| Theorems.CounterAgainstBits | bindings/Bridge/Bridge.go:38-41 | the counter is the number of counted votes and equals the number of set bits if and only if no vote came from a position above 256; then it is at most 200 |
| Theorems.WideVoteLeavesNoBit | bindings/Bridge/Bridge.go:41 | a vote from a position above 256 counts, leaves the mask alone, and does not show up in hasVoted |
| Theorems.IncrementNeverFails | bindings/Bridge/Bridge.go:38-41 | the checked 8-bit increment of the counter fails in no reachable state |
| Theorems.Quorum | bindings/Bridge/Bridge.go:41 | the counted votes are exactly the distinct voters plus the repeated votes; repeats that leave a bit are at most the relayers removed since the first vote; so for a Passed or Executed proposal distinct voters, those removals and bitless repeats reach the threshold in force at its passing vote; without a removal the mask marks exactly the voters |
| Quorums.QuorumDecides | bindings/Bridge/Bridge.go:41 | as many votes as are missing, of different relayers in time, always pass an open or new proposal, in any order and whatever the handlers do; it ends up executed if and only if the handler returns for the vote that reaches the threshold or for a later one, and passed otherwise |
| Terms.ExecutableUnder | bindings/Bridge/Bridge.go:41 | a passed proposal can be executed under a resource if and only if that resource is mapped to the handler in its key, and then under every destination; the call carries the terms of the executing relayer |
| Terms.VoteExecutesUnder | bindings/Bridge/Bridge.go:41 | the same if and only if for a vote that finds the proposal passed, in every reachable state |
| Terms.ResourceFixedNow | bindings/Bridge/Bridge.go:41 | a passed proposal can be executed under one resource only if and only if no other resource is mapped to its handler |
| Terms.TermsOfCall | bindings/Bridge/Bridge.go:41 | over the whole history a handler call has the nonce, handler and data of every vote for it, and its resource too if only one resource was ever mapped to the handler |
| Terms.HonestVoter | bindings/Bridge/Bridge.go:41 | if deviating relayers and repeated votes together stay below the threshold it passed under, an executed proposal had an honest voter |
| Terms.OnlyAuthenticExecutes | bindings/Bridge/Bridge.go:41 | if deviating relayers, removals since the first vote and bitless repeats stay below that threshold, a handler call agrees with an authentic payload in nonce, handler and data, and in the resource if it alone was ever mapped to the handler |
| Witnesses.ExecutorPicksTerms | bindings/Bridge/Bridge.go:41 | a reachable run without removals in which relayer 1 votes under one resource and destination and the handler is called under those of relayer 2 |
| Witnesses.OneVoterAfterRemoval | bindings/Bridge/Bridge.go:41 | a reachable run in which one relayer alone passes a threshold of 2, voting again after one removal |
| Witnesses.OneVoterFromAbove | bindings/Bridge/Bridge.go:41 | a reachable run without removals in which a relayer at position 257 alone passes a threshold of 2 |
| Witnesses.CounterWithoutBits | bindings/Bridge/Bridge.go:41 | a reachable state, deployed with 257 relayers, whose proposal has one counted vote and no bit |
| Masks.ExposedByVote | bindings/Bridge/Bridge.go:41 | a vote exposes nobody to voting again, and uses up its voter if that one was exposed |
| Masks.ExposedByRemove | bindings/Bridge/Bridge.go:41 | a swap-and-pop removal exposes at most one more voter |
| Operations.ExecutionAccepted | bindings/Bridge/Bridge.go:41 | exactly when executeProposal commits: a relayer, a running bridge, a passed proposal, a handler with code, and a handler that returns unless failures are tolerated; a refused call changes nothing |
| Operations.ExecutionEffect | bindings/Bridge/Bridge.go:41 | in every reachable state a handler that returns leaves the record Executed and otherwise as it was, whatever it called back, with the call as the last event; a tolerated failure leaves all storage as it was |
| Operations.CancelAccepted | bindings/Bridge/Bridge.go:41 | exactly when cancelProposal commits: a relayer, even during a pause, an open or passed proposal, and an age in blocks modulo 2^40 above the expiry; then that record becomes Cancelled and nothing else changes |
| Operations.DepositAccepted | bindings/Bridge/Bridge.go:41 | exactly when deposit commits: a running bridge, a mapped resource, a handler with code that returns, a counter within 64 bits; the event carries the next nonce even if the handler deposited in between, and without callbacks only the counter of that destination goes up |
| Operations.RolesChanged | bindings/Bridge/Bridge.go:41 | the relayer role as a set: adminAddRelayer adds a new member below 200, adminRemoveRelayer takes out a current one, granting and revoking are never refused, and nothing else changes |
| Operations.SettingsChanged | bindings/Bridge/Bridge.go:41 | the threshold takes exactly the 8-bit values, the pause is a switch, the deposit counter only goes up; each changes that one setting |
| Operations.ResourceMapped | bindings/Bridge/Bridge.go:41 | a resource is mapped if and only if its handler has code and returns; the mapping is on record whatever the handler calls, and in force with no other resource touched if it calls nothing |
| Operations.NewBridge | bindings/Bridge/Bridge.go:41 | deployment succeeds exactly for an 8-bit threshold and a 40-bit expiry, and gives exactly the listed relayers and nothing else |
| Voting.VoteAccepted | bindings/Bridge/Bridge.go:41 | exactly when a vote on an open or new proposal is accepted: a relayer, a running bridge, a mapped resource, not before the proposal; late, a position whose bit is free or lost; in time, a position above 256 or a free one up to 200, and code behind the handler if the vote reaches the threshold |
| Voting.VoteEffect | bindings/Bridge/Bridge.go:30-41 | what an accepted vote does: late, it cancels that record and nothing else; in time, it adds one to the counter and exactly the voter's bit to the mask, keeps or sets the opening block, and leaves the proposal open below the threshold, executed at it if the handler returns and passed if it fails, with every other record and setting untouched |
| Voting.VoteOnPassed | bindings/Bridge/Bridge.go:41 | a vote that finds the proposal passed commits if and only if the handler returns, leaving it Executed, and is undone otherwise |
| Voting.VoteOnFinal | bindings/Bridge/Bridge.go:41 | no vote on an executed or cancelled proposal is accepted |
| Voting.NoSecondVote | bindings/Bridge/Bridge.go:41 | a relayer at a position up to 256 whose vote on an open proposal was counted cannot have another one counted, as long as no relayer was removed since the first vote |
| Voting.CodelessHandlerUndoesVote | bindings/Bridge/Bridge.go:41 | a vote in time that reaches the threshold commits if and only if the handler address has code, and then leaves the proposal Executed if the handler returns and Passed if it fails; without code all storage stays as it was |
| Witnesses.StuckWithoutCode | bindings/Bridge/Bridge.go:41 | a reachable proposal one vote short: the vote that would pass it is undone for lack of code, passes it if the handler merely fails, and after the expiry cancels it |
| Theorems.Binding | bindings/Bridge/Bridge.go:41 | without collisions in the history, every vote and handler call for a proposal carried the same handler and data, even across remapped resources; resource and destination are the subject of Terms |
| Theorems.KeyInjective | bindings/Bridge/Bridge.go:41 | a proposal key determines origin domain, nonce, handler and data |
| Theorems.FailedExecutionCanBeRetried | bindings/Bridge/Bridge.go:41 | a tolerated handler failure leaves all storage as it was, and the same proposal can be executed later by any relayer |
| Theorems.NeverBackwards | bindings/Bridge/Bridge.go:41 | no call moves a status back, Executed and Cancelled records never change, and every change is a step up a bounded measure |
| Theorems.ChangesBounded | bindings/Bridge/Bridge.go:38-41 | over any run a record changes at most once per counted vote and once more: at most 201 times with up to 256 relayers, 256 times in any case |
| Theorems.NoncesDistinct | bindings/Bridge/Bridge.go:41 | every nonce from 1 to the counter was given to exactly one announced deposit or skipped by exactly one administrator's jump, and no other nonce was used, under re-entrance and reverts |
| Theorems.RemovalHandsOverTheVote | bindings/Bridge/Bridge.go:41 | after a removal the last relayer counts as having voted exactly if the removed one had |
| Authority.OutsidersMoveNothing | bindings/Bridge/Bridge.go:41 | no run in which only others than current relayers act, at any depth of re-entrance, and nobody is given the role, changes a record, counts a vote or executes a proposal |
| Authority.NothingPassesWithoutCode | bindings/Bridge/Bridge.go:41 | in no run whose votes and executions name handlers without code does a proposal pass or get executed, whoever votes |
| Authority.PauseStopsTrade | bindings/Bridge/Bridge.go:41 | until the pause is lifted no vote is counted, nothing executed, no deposit announced, and records can only be cancelled |
| Authority.NotCancelledEarly | bindings/Bridge/Bridge.go:41 | no run up to the last block of its expiry cancels an open or passed proposal |
| Authority.LateVoteCancels | bindings/Bridge/Bridge.go:41 | a relayer's vote after the expiry cancels the open proposal, which then never changes and is never executed |
| Authority.CancelledForGood | bindings/Bridge/Bridge.go:41 | in no run does a cancelled proposal change again or reach a handler |
| Tokens.Token.Transact | bindings/ERC20PresetMinterPauser/ERC20PresetMinterPauser.go:33 | every transaction gives the specified ledger, or the specified error and an unchanged ledger |
| Tokens.Token.Send | bindings/ERC20PresetMinterPauser/ERC20PresetMinterPauser.go:33 | transfer in place, where the sender may be the recipient |
| Tokens.Token.SendFrom | bindings/ERC20PresetMinterPauser/ERC20PresetMinterPauser.go:33 | transferFrom moves first and checks the allowance after; a shortfall undoes the move |
| Tokens.Token.MintTo | bindings/ERC20PresetMinterPauser/ERC20PresetMinterPauser.go:33 | mint in place, by a minter, with both overflow checks |
| Tokens.Token.BurnBalance | bindings/ERC20PresetMinterPauser/ERC20PresetMinterPauser.go:33 | burn in place |
| Tokens.Token.BurnBalanceFrom | bindings/ERC20PresetMinterPauser/ERC20PresetMinterPauser.go:33 | burnFrom lowers the allowance first; a failing burn undoes that |
| Ledger.TokenStepBalanced | bindings/ERC20PresetMinterPauser/ERC20PresetMinterPauser.go:33 | every call keeps the sum of all balances equal to a supply below 2^256 |
| Ledger.RunBalanced | bindings/ERC20PresetMinterPauser/ERC20PresetMinterPauser.go:33 | so does every run, and afterwards no balance addition or supply subtraction can overflow |
| Ledger.DeployedTokenBalanced | bindings/ERC20PresetMinterPauser/ERC20PresetMinterPauser.go:33 | the same for every run of a newly deployed token |
| Ledger.AllowanceAccounting | bindings/ERC20PresetMinterPauser/ERC20PresetMinterPauser.go:33 | over every run, what the owner granted is exactly what the spender moved or burned, what the owner overwrote or decreased, and the allowance that remains |
| Ledger.ApprovalIsSpendable | bindings/ERC20PresetMinterPauser/ERC20PresetMinterPauser.go:33 | after an approval transferFrom succeeds if and only if the amount is within approval and balance, the recipient is real and the token runs; the rest of the approval remains |
| Ledger.MintThenBurn | bindings/ERC20PresetMinterPauser/ERC20PresetMinterPauser.go:33 | burning what was minted succeeds and restores supply and balances |
| TokenLaws.TokensMove | bindings/ERC20PresetMinterPauser/ERC20PresetMinterPauser.go:33 | exactly when transfer, transferFrom, mint, burn and burnFrom succeed on a ledger in balance, and then, as double entry: the payer loses the amount, the payee gains it, the supply changes by what has no payer or no payee, the allowance is used up by it, and nothing else changes |
| TokenLaws.AllowanceChanges | bindings/ERC20PresetMinterPauser/ERC20PresetMinterPauser.go:33 | exactly when approve, increaseAllowance and decreaseAllowance succeed, and that they set, raise or lower that one allowance only |
| TokenLaws.SwitchesChange | bindings/ERC20PresetMinterPauser/ERC20PresetMinterPauser.go:33 | pausers only switch the pause over, and roles change one account at a time |
| TokenLaws.BalanceAccounting | bindings/ERC20PresetMinterPauser/ERC20PresetMinterPauser.go:33 | over every run from a ledger in balance an account owns what it owned and received less what it paid |
| Erc20Handler.FeeMeaning | bindings/ERC20Handler/ERC20Handler.go:44 | a fee exists exactly within the limits and word size, and it is the least number that covers the basic fee and is less than one unit short of the relative fee |
| Erc20Handler.FeeMonotone | bindings/ERC20Handler/ERC20Handler.go:44 | a larger amount never pays a smaller fee |
| Erc20Handler.TakeInConserves | bindings/ERC20Handler/ERC20Handler.go:44 | the token calls of a deposit take exactly the amount from balance and allowance of the depositor, give the fee to the treasury, and lock the rest or burn it, under any aliasing |
| Erc20Handler.PayOutConserves | bindings/ERC20Handler/ERC20Handler.go:44 | the token call of an execution mints the net amount or releases it from what is locked |
| Erc20Handler.TakeInSucceeds | bindings/ERC20Handler/ERC20Handler.go:44 | on a ledger in balance, exactly when the token calls of a deposit succeed, under any aliasing; the ledger stays in balance |
| Erc20Handler.PayOutSucceeds | bindings/ERC20Handler/ERC20Handler.go:44 | on a ledger in balance, exactly when the token call of an execution succeeds |
| Erc20Handler.DepositConserves | bindings/ERC20Handler/ERC20Handler.go:44 | the same for a whole successful deposit: the amount is the one in the data, the fee the calculated one, and no other token changes |
| Erc20Handler.ExecutionConserves | bindings/ERC20Handler/ERC20Handler.go:44 | the same for a whole successful execution, for the amount and recipient in the data |
| HandlerLaws.DepositAccepted | bindings/ERC20Handler/ERC20Handler.go:44 | exactly when the handler accepts a deposit of any data, for a token ledger in balance: the bridge calls, the data has an amount, the token is whitelisted and has code, the fee exists within the amount, and the depositor has the amount and allowed it while the token runs |
| HandlerLaws.ExecutionAccepted | bindings/ERC20Handler/ERC20Handler.go:44 | exactly when the handler accepts an execution of any data, for a token ledger in balance: the same on caller, data, token and fee, and the token can mint the rest or release it from what the handler holds |
| HandlerLaws.RegistryMeaning | bindings/ERC20Handler/ERC20Handler.go:44 | after every run of settings a resource has the token it was last mapped to, a token the resource it was last given, the whitelist is what was ever mapped, and burnable is what was marked after it had been mapped |
| Erc20Handler.Handler.Deposit | bindings/ERC20Handler/ERC20Handler.go:44 | the handler's deposit over token contracts updated in place gives the specified ledgers, or an error and unchanged ledgers |
| Erc20Handler.Handler.TakeTokensIn | bindings/ERC20Handler/ERC20Handler.go:44 | if burning or locking fails after the fee has moved, the fee moves back |
| Erc20Handler.Handler.ExecuteProposal | bindings/ERC20Handler/ERC20Handler.go:44 | the handler's execution over token contracts gives the specified ledgers, or an error and unchanged ledgers |
| Erc20Handler.Handler.SetResource | bindings/ERC20Handler/ERC20Handler.go:44 | the bridge, and nobody else, maps a resource to a token and whitelists it |
| Erc20Handler.Handler.SetBurnable | bindings/ERC20Handler/ERC20Handler.go:44 | the bridge, and nobody else, marks a whitelisted token as burnable |
| Payload.PaddedWord | chains/ethereum/proposal_data.go:16-19 | a padded number is read back, and takes 32 bytes exactly if it is below 2^256 |
| Payload.DataRoundTrip | chains/ethereum/proposal_data.go:14-22 | the relayer's proposal data, followed by anything, is read by the relayer and by the handler as the amount and recipient written |
| Payload.ProposalRoundTrip | chains/ethereum/proposal_data.go:14-22 | the handler reads the amount and recipient written, for a recipient of any length |
| Payload.AmountSurvives | chains/ethereum/proposal_data.go:14-22 | the handler reads back the amount written if and only if it is below 2^256 |
| Payload.ReadersAgree | chains/ethereum/events.go:18-30 | relayer and handler read the same amount and recipient from all data the relayer accepts |
| Payload.HandlerReadsWhatIsWritten | chains/ethereum/proposal_data.go:14-22 | the handler reads an amount and an address from exactly the data that the relayer can write for them, followed by anything |
| Payload.LongRecipientsAreCut | bindings/ERC20Handler/ERC20Handler.go:44 | the handler uses the first 20 bytes of a longer recipient |
| Payload.ShortRecipientsAreFilled | bindings/ERC20Handler/ERC20Handler.go:44 | a recipient of fewer than 20 bytes is filled up with zeros on the right |
| Relay.HandleErc20Deposited | chains/ethereum/events.go:15-64 | for every iteration order of both maps: too short data is refused; otherwise the message carries the recipient as declared, and the amount is the deposited one if the destination is not configured or none of its entries names the resource, else rescaled by one of these entries, whichever it is if they agree on the decimal difference |
| Relay.RescaleByKey | chains/ethereum/events.go:36-50 | the inner loop applies the first entry that names the resource, and leaves the amount alone if none does |
| Relay.RescaleKeepsValue | chains/ethereum/events.go:41-47 | the rescaled amount is the largest number of units of the destination token that is worth no more than the deposited units |
| Relay.LookupPossible | chains/ethereum/events.go:33-53 | one direct lookup is among the results the loops can give |
| Relay.OrderIndependent | chains/ethereum/events.go:33-53 | the loops give the result of the direct lookup in every iteration order if and only if it is not the case that both spellings are configured with different decimal differences and the amount reaches the smaller of them |
| Relay.RescaleSeparates | chains/ethereum/events.go:41-47 | dropping more decimals gives a smaller amount exactly from one unit of the smaller difference on, and 0 either way below it |
| Relay.AmbiguousConfiguration | chains/ethereum/events.go:33-53 | a configuration that gives one deposit two different amounts, depending on the iteration order |
| Relay.KeysNaming | chains/ethereum/events.go:37-40 | exactly the plain key (itself without prefix) and the key with prefix `0x` name a resource |
| Relay.FactorFits | chains/ethereum/events.go:41-47 | the scale factor fits the signed 64-bit integer it is computed in exactly up to 18 decimals |
| Relay.RescaleThereAndBack | chains/ethereum/events.go:41-47 | scaling up and back is the identity; down and back never gains and loses less than one coarse unit |
| Relay.ScalingDownRounds | chains/ethereum/events.go:41-47 | with matching fees, and for every unit the amount is divided by, the value paid out on the coarser chain is within one coarse unit of the net value taken in, on either side |
| Relay.ScalingUpRounds | chains/ethereum/events.go:41-47 | with matching fees, and for every unit the amount is multiplied by, the value paid out on the finer chain is at most the net value taken in and less than one coarse unit below it |
| EventIterator.ReturnsLogsInOrder | bindings/Bridge/Bridge.go:1255-1292 | for every interleaving the events returned are the logs sent before the end, unpacked and in order; an answer of true sets the event the caller reads to the unpacking of the next log sent; once Next answers false without a failure they are all of them |
| EventIterator.NextAnswers | bindings/Bridge/Bridge.go:1255-1292 | exactly when Next answers true, what it delivers and takes out of the channel, when it fails, which is for good, and when it is done |
| EventIterator.FalseIsFinal | bindings/Bridge/Bridge.go:1255-1292 | an answer of false is final: whatever is sent afterwards, Next never waits again, answers false again and delivers nothing |
| EventIterator.RunSends | bindings/Bridge/Bridge.go:1255-1292 | what is sent are the logs before the first end, and that end is the one the subscription reports |
| EventIterator.StepInOrder | bindings/Bridge/Bridge.go:1255-1292 | every step of producer or consumer keeps what is returned and what is still in the channel in step with what was sent |
| EventIterator.NeverFails | bindings/Bridge/Bridge.go:1255-1292 | if every log sent unpacks and the subscription ends without error, iteration never fails |
| EventIterator.BridgeDepositIterator.Next | bindings/Bridge/Bridge.go:1255-1292 | Next in place, including its self-call, which recurs at most once, gives the specified state and answer |
| Outcomes.RelayOutcome | bindings/Bridge/Bridge.go:41 | with a handler that makes no calls back, a vote or execution either trades nothing, or executes exactly its own proposal with exactly one handler call on the terms of its sender; new votes are for that proposal only, and no resource is mapped |
| Parts.DepositTurnTakesPlace | bindings/Bridge/Bridge.go:41 | on the two chains a user's deposit takes place if and only if the bridge runs, the resource is mapped, a nonce is left and the handler can take the tokens; then the tokens move and the next nonce is announced, otherwise nothing changes |
| Parts.PassedTurnExecutes | bindings/Bridge/Bridge.go:41 | a call or vote on a passed proposal executes it if and only if a relayer makes it while the bridge runs, for a mapped resource whose handler can pay; only then do tokens move |
| Parts.TokenRunsOccur | bindings/ERC20PresetMinterPauser/ERC20PresetMinterPauser.go:33 | every run of a token is a run of the two chains |
| Parts.BridgeRunsOccur | bindings/Bridge/Bridge.go:41 | so is every run of a bridge |
| Parts.RegistryRunsOccur | bindings/ERC20Handler/ERC20Handler.go:44 | and every run of settings of a new handler |
| Backing.TakeAtHome | bindings/ERC20Handler/ERC20Handler.go:44 | a deposit of the watched resource at home takes exactly the amount from the depositor, gives the fee to the treasury and the net amount to the handler, whoever these are |
| Backing.BurnAbroad | bindings/ERC20Handler/ERC20Handler.go:44 | abroad it takes exactly the net amount out of existence |
| Backing.TakeElsewhere | bindings/ERC20Handler/ERC20Handler.go:44 | a deposit of another resource leaves the watched token alone |
| Backing.ReleaseAtHome | bindings/ERC20Handler/ERC20Handler.go:44 | an execution under the watched resource at home moves exactly the net amount from the handler to the recipient |
| Backing.MintAbroad | bindings/ERC20Handler/ERC20Handler.go:44 | abroad it brings exactly the net amount into existence |
| Backing.PayElsewhere | bindings/ERC20Handler/ERC20Handler.go:44 | an execution under another resource leaves the watched token alone |
| Backing.ExecutedIsAnnounced | bindings/Bridge/Bridge.go:41 | if votes are counted for announced deposits only, so is every execution, under the handler the deposit's resource had when the vote was counted |
| Backing.NewDepositUndelivered | bindings/Bridge/Bridge.go:41 | a new deposit's proposal has not been executed yet, so it starts in flight |
| Backing.AnsweredDeposit | bindings/Bridge/Bridge.go:41 | an executed proposal answers one deposit, and no other deposit has its nonce |
| Backing.InFlightLaw | bindings/Bridge/Bridge.go:41 | executing a proposal takes exactly the deposits under its nonce out of flight |
| Backing.CallLaw | bindings/Bridge/Bridge.go:41 | an executing call changes the surplus by exactly what the answered deposit took in of the asset less what the call pays out of it, under any resource, destination, rescaling and fees |
| Backing.CoverKept | bindings/Bridge/Bridge.go:41 | an executing call leaves the asset covered if and only if it pays out at most what its deposit took in and the surplus before; from surplus 0, at most what its deposit took in |
| Backing.TurnLaw | bindings/Bridge/Bridge.go:41 | every turn of users, relayers, administrators and token holders keeps the two-chain invariant and lowers the surplus by no more than it overpays |
| Backing.Covered | bindings/Bridge/Bridge.go:41 | over every such run, with other resources mapped and remapped at will, what is held at home plus all that executing calls overpaid covers the foreign supply and all deposits in flight both ways |
| Conduct.PaysBack | bindings/ERC20Handler/ERC20Handler.go:44 | with equal decimals and mirrored fees a conforming call does not overpay |
| Conduct.Backed | bindings/Bridge/Bridge.go:41 | with equal decimals and mirrored fees, over every run whose counted votes are for announced deposits and whose executing calls conform, the home handler's balance covers the foreign supply plus the net amount of all deposits in flight in both directions, for each resource |
| Conduct.BackedBySeclusion | bindings/Bridge/Bridge.go:41 | the same with no condition on executing calls, for a resource that alone was ever mapped to its handlers by the end of the run and has one fee for all destinations |
| Conduct.Redeemable | bindings/ERC20Handler/ERC20Handler.go:44 | while the asset is covered the home handler can pay out every deposit in flight towards home on its own terms, if and only if the token is not paused and the recipient is not the zero address |
| Rounding.RescaledPayout | chains/ethereum/events.go:41-47 | between different decimals a payout exceeds what its deposit took in by less than one unit of the coarser token, and not at all on the finer side |
| Rounding.RoundingCosts | chains/ethereum/events.go:41-47 | the loss occurs: with one decimal less and half of every amount as fee, a deposit that takes in 9 pays out 10 |
| Rounding.BackedAcrossDecimals | chains/ethereum/events.go:41-47 | backing between tokens of different decimals, up to less than one coarse unit for each call made on the coarser chain |
| Shortfall.OtherResource | bindings/Bridge/Bridge.go:41 | a run with every vote on the terms of its deposit in which relayer 1 executes under another resource of the handler, leaving 0 held and at least 5 in flight |
| Shortfall.OtherDestination | bindings/Bridge/Bridge.go:41 | a run in which relayer 2 executes under destination 200 with its lower fee, leaving 3 held and 5 in existence |
| Shortfall.AloneByNow | bindings/Bridge/Bridge.go:41 | the first run with the deposit's resource mapped elsewhere before the execution: the resource executed under is alone on its handler by then, and still 0 are held and at least 5 in flight |

## Left out

- Admin authorisation: the DAO contract behind the admin calls is not part of this model; its decisions are inputs, and every admin action may happen at any time.
- Sender extraction through a forwarder, gas, native-coin transfers (`transferFunds`) and event encoding.
- keccak256 itself: the digest is an arbitrary function.
- Admin withdrawals from handlers, forwarder settings and changes of fee settings; the fee settings in force are a parameter of each handler call.
- Role administration beyond granting and revoking (admin roles, role hashes); granting and revoking roles of bridge and token is open to any administrator.
- ERC721 and generic handlers: they repeat the ERC20 shape, with nothing harder to prove.
- Token contracts other than the preset token; in particular tokens that call back into the bridge appear only as handler trees in `Protocol`, not in `Erc20Handler`.
- The Go wrappers that pack calls for go-ethereum, the writer's retry and polling loops, the listener's block loop, configuration, flags, logging and the command-line tool.
- The content that a failed unpacking leaves in the iterator's event; it is modelled as absent.
- The reverse map from tokens to resources is kept as the handler writes it (HandlerLaws.RegistryMeaning); no modelled operation reads it.
- Relay.HandleErc20Deposited: requires a declared recipient length within the data and configured differences of at most 18 decimals, because the Go slice and the conversion to a 64-bit integer are not meaningful beyond.
- Relay.RescaleByKey: has the same condition on configured differences.
- Relay.ScalingDownRounds: assumes that both chains accept the amounts.
- Relay.ScalingUpRounds: assumes that the rescaled amount fits a word and that both chains accept the amounts.
- Conduct.Backed: votes counted only for announced deposits, no depositor that is the home handler itself, no admin withdrawal, no remapping of the asset's own resource and no other resource mapped to its token, its home token not made burnable, the handler as the foreign token's only minter, mapped handlers that are ERC20 handlers, and no hash collision between an executing call and the deposit it answers; besides these, the stated condition on executing calls. Backing.Covered has the same conditions except for the collision and the calls. The preset token makes no calls, so handler calls there nest no bridge calls. A deposit that is never executed, for example because its data cannot be relayed or its proposal was cancelled, counts as in flight for ever.
- TokenLaws.TokensMove, TokenLaws.BalanceAccounting, HandlerLaws.DepositAccepted and HandlerLaws.ExecutionAccepted: take balances to add up to the supply, which Ledger.DeployedTokenBalanced proves of a deployed token.
- Conduct.Redeemable: takes the home token's balances to add up to its supply, which Ledger.DeployedTokenBalanced proves of a deployed token.
- Rounding.BackedAcrossDecimals: the conditions of Conduct.Backed, with matching fees on both chains and rescaled amounts that fit a word.
- Voting.NoSecondVote: positions up to 256 and no removal; Voting.VoteAccepted has the exact condition, and Witnesses.OneVoterFromAbove and Witnesses.OneVoterAfterRemoval show what happens otherwise.
- Terms.OnlyAuthenticExecutes: leaves the set of authentic payloads to the reader, and says nothing of the destination, which only the executing relayer chooses; Conduct covers the case where the payloads are the deposits announced by the other bridge.
