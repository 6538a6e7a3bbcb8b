# GGMI token — a verified Dafny model

GGMI ("Gnosis Guild Membership Interest") is a fungible-token ledger in the
style of EIP-20, with EIP-2612 permit nonces. On top of the ledger it has three
access rules:

- a single **owner**, who alone may mint, pause, unpause, manage the
  authorization set and hand ownership on;
- an owner-managed set of **authorized** accounts;
- a global **pause** switch.

While the token is paused, `transfer`, `transferFrom` and `burn` are refused
with `EnforcedPause` for a caller who is neither the owner nor authorized. The
owner and the authorized accounts pass this gate. `approve` and `permit` are
never gated. `mint` is owner-only; the owner always passes the gate, so `mint`
works while paused, and an authorized account that is not the owner cannot
mint.

The repository's behaviour is fixed by its test suite, `test/GGMI.spec.ts`. The
contract's Solidity source is not part of this model. Where the tests leave a
behaviour open, the model follows OpenZeppelin Contracts v5 (`ERC20`,
`ERC20Permit`, `Ownable`, `Pausable`), whose custom errors
(`OwnableUnauthorizedAccount`, `EnforcedPause`) the tests expect.

## Files

- `types.dfy` — module `Types`: 160-bit addresses, events, outcomes (the
  custom errors), permit messages and signatures, and the `Call` datatype of
  entry points.
- `ledger.dfy` — module `Ledger`: the contract state as a value `State`, plus
  one step function per entry point. Each step function gives the new state
  and the outcome, and its contract says when the call succeeds (both
  directions), which error it reports, that a revert changes nothing, and
  exactly what a success changes. The module also holds the supply invariant
  (`totalSupply` is the sum of all balances) and its arithmetic lemmas.
- `properties.dfy` — module `Properties`: the cross-operation guarantees.
  These cover the supply invariant, all-or-nothing reverts, the pause gate,
  the privileged bypass, pause-independence of ungated calls, owner-only
  administration and permit nonces.
- `token.dfy` — module `Token`: class `GGMI`. Its fields are the contract
  storage: `owner`, `authorized`, `paused`, `balances`, `allowances`,
  `totalSupply`, `nonces`, and the event `log`. There is one method per
  external entry point, and it updates the fields in place. Each method is
  proved to end in the state and outcome of its step function and to keep
  the supply invariant `Valid()`.
- `scenarios.dfy` — module `Scenarios`: one method per `it` block of the
  test suite. Each replays the test's calls on a fresh `GGMI` and asserts the
  test's expectations.

Calling conventions:

- The transaction sender (`connect(x)` in the tests) is the explicit `caller`
  parameter of every method.
- The contract's own address is the constructor parameter `self`.
- The block time for `permit` is the parameter `now`.

## Model

`balanceOf`, `allowance` and `nonces` are plain reads of their mapping, where
a missing key reads as 0 (`Ledger.Get`, `Token.GGMI.BalanceOf`, `Allowance`,
`Nonces`). `Ledger.IsPrivileged` and `Ledger.PassesPauseGate` define the pause
gate: the owner and the authorized accounts always pass, everyone else only
while the token runs. The lemmas that state what the gate does are
`Properties.PauseGateBlocks`, `Properties.EnforcedPauseExactly` and
`Properties.PauseIrrelevant`.

| member | source | states |
|---|---|---|
| Ledger.Deploy | test/GGMI.spec.ts:8-16 | A freshly deployed token has the deployer as owner, is not paused, and has zero supply satisfying the invariant. No account is authorized, every balance, nonce and allowance is 0, and the log holds the initial OwnershipTransferred(0, owner). |
| Token.GGMI.constructor | test/GGMI.spec.ts:10-13 | Deploying with a non-zero initial owner yields exactly the storage of Ledger.Deploy and satisfies the supply invariant. |
| Ledger.MintStep | test/GGMI.spec.ts:165-174 | mint succeeds iff the caller is the owner and the recipient is non-zero. Any other caller gets Unauthorized(caller), even while paused. On success, supply and the recipient's balance both grow by exactly the amount, nothing else changes, and a Transfer(0, to, amount) event is logged. |
| Ledger.BurnStep | test/GGMI.spec.ts:34-40 | burn succeeds iff the caller passes the pause gate, is non-zero, and holds at least the amount. A caller failing the gate gets EnforcedPause regardless of its balance; past the gate, a zero caller gets InvalidSender(0) and a short balance InsufficientBalance(caller, balance, amount). On success, supply and the caller's balance fall by exactly the amount and all other balances stay. |
| Ledger.TransferStep | test/GGMI.spec.ts:19-25 | transfer succeeds iff the caller passes the pause gate, caller and recipient are non-zero, and the balance covers the amount. A caller failing the gate gets EnforcedPause; past it, in this order, a zero caller gets InvalidSender(0), a zero recipient InvalidReceiver(0) and a short balance InsufficientBalance(caller, balance, amount). On success, exactly the amount moves from caller to recipient, and supply and allowances are unchanged. |
| Ledger.TransferFromStep | test/GGMI.spec.ts:26-33 | transferFrom succeeds iff the caller (the spender, not `from`) passes the pause gate, the allowance and the balance of `from` cover the amount, and the addresses are non-zero. The errors come in the order EnforcedPause, InsufficientAllowance(spender, allowance, amount), InvalidApprover(0), InvalidSpender(0), InvalidReceiver(0), InsufficientBalance(from, balance, amount). On success, the allowance falls by exactly the amount, `from`'s balance moves to `to`, and nothing else changes. |
| Ledger.ApproveStep | test/GGMI.spec.ts:66-70 | approve succeeds iff the caller and the spender are non-zero, whatever the pause flag; a zero caller gets InvalidApprover(0), a zero spender InvalidSpender(0). The allowance then equals the approved amount exactly (an overwrite), and no other allowance changes. |
| Ledger.PermitStep | test/GGMI.spec.ts:247-253 | permit succeeds iff the deadline has not passed, the owner signed exactly (owner, spender, value, current nonce, deadline), and the addresses are non-zero. The errors come in the order ExpiredSignature(deadline), InvalidSigner(recovered, owner), InvalidApprover(0), InvalidSpender(0). On success, the owner's nonce rises by exactly one, the allowance is set, and all other nonces and allowances stay. |
| Ledger.PauseStep | test/GGMI.spec.ts:225-233 | pause succeeds iff the caller is the owner and the token is running. Afterwards `paused` is true and only the flag and the log change. A non-owner gets Unauthorized(caller). |
| Ledger.UnpauseStep | test/GGMI.spec.ts:235-245 | unpause succeeds iff the caller is the owner and the token is paused. Afterwards `paused` is false and only the flag and the log change. |
| Ledger.GrantStep | test/GGMI.spec.ts:176-197 | grantAuthorization succeeds iff the caller is the owner, and otherwise reverts with Unauthorized(caller). On success the account is authorized, no other account's status changes, and AuthorizationGranted(contract address, account) is logged. |
| Ledger.RevokeStep | test/GGMI.spec.ts:199-223 | revokeAuthorization succeeds iff the caller is the owner, and otherwise reverts with Unauthorized(caller). On success the account is not authorized, no other account's status changes, and AuthorizationRevoked(contract address, account) is logged. |
| Ledger.TransferOwnershipStep | test/GGMI.spec.ts:87-89 | transferOwnership succeeds iff the caller is the owner and the new owner is non-zero, paused or not. The owner becomes the new owner and the authorized set is kept. |
| Ledger.SumOfRemove | test/GGMI.spec.ts:50-51 | The sum of balances does not depend on the order of summation: any one account can be taken out first. |
| Ledger.SumOfFrame | test/GGMI.spec.ts:50-51 | The sum of balances over a set of accounts depends only on those accounts' balances. |
| Ledger.TotalUpdate | test/GGMI.spec.ts:50-51 | Setting one balance changes the sum of all balances by the difference. |
| Ledger.BalanceBound | test/GGMI.spec.ts:74-82 | No balance exceeds the sum of all balances, so burning one's balance cannot underflow the total supply. |
| Properties.ApplyPreservesSupply | test/GGMI.spec.ts:44-52 | Every call, successful or not, keeps `totalSupply` equal to the sum of all balances. |
| Properties.MovePreservesTotal | test/GGMI.spec.ts:53-61 | Moving tokens between two accounts keeps the sum of balances. |
| Properties.RevertChangesNothing | test/GGMI.spec.ts:130-162 | A call that reverts leaves the whole state unchanged, the event log included. |
| Properties.PauseGateBlocks | test/GGMI.spec.ts:130-162 | While paused, a caller that is neither owner nor authorized gets EnforcedPause from transfer, transferFrom and burn. State is unchanged, whatever its balance or allowance. |
| Properties.EnforcedPauseExactly | test/GGMI.spec.ts:43-163 | EnforcedPause is reported in exactly two cases: a gated call by an unprivileged caller while paused, or the owner pausing an already paused token. |
| Properties.UnauthorizedExactly | test/GGMI.spec.ts:166-173 | Unauthorized is reported exactly when an owner-only call comes from anyone but the current owner, authorized accounts included. It carries the caller's address. |
| Properties.PauseIrrelevant | test/GGMI.spec.ts:53-129 | For a privileged caller's transfer, transferFrom and burn, and for mint, approve, permit, grantAuthorization, revokeAuthorization and transferOwnership by anyone, the pause flag changes neither the outcome nor the resulting state. |
| Properties.BurnIgnoresPause | test/GGMI.spec.ts:119-129 | A privileged caller's burn has the same outcome and effect paused or not. |
| Properties.TransferIgnoresPause | test/GGMI.spec.ts:95-105 | A privileged caller's transfer has the same outcome and effect paused or not. |
| Properties.TransferFromIgnoresPause | test/GGMI.spec.ts:106-118 | A privileged spender's transferFrom has the same outcome and effect paused or not, whoever `from` is. |
| Properties.SupplyOnlyByMintAndBurn | test/GGMI.spec.ts:44-52 | No call other than mint and burn changes the total supply. |
| Properties.AdministrationIsOwnerOnly | test/GGMI.spec.ts:176-205 | A call by anyone but the owner leaves the owner, the authorized set and the pause flag unchanged. |
| Properties.FormerOwnerLosesAdministration | test/GGMI.spec.ts:83-94 | After the owner hands ownership to another non-zero address, every owner-only call of the former owner fails with Unauthorized(former owner). |
| Properties.AuthorizationSurvivesOwnershipTransfer | test/GGMI.spec.ts:95-105 | Handing ownership on keeps every grant, so an authorized former owner still passes the pause gate. |
| Properties.PauseUnpauseRoundTrip | test/GGMI.spec.ts:235-245 | The owner's pause sets `paused`, and a following unpause restores the earlier state except for the two logged events. |
| Properties.GrantIdempotent | test/GGMI.spec.ts:183-189 | Granting an already authorized account succeeds and leaves the authorized set as it is. |
| Properties.RevokeIdempotent | test/GGMI.spec.ts:206-214 | Revoking an account that is not authorized succeeds and leaves the authorized set as it is. |
| Properties.GrantThenRevoke | test/GGMI.spec.ts:206-214 | A grant followed by a revoke un-authorizes the account and restores the rest of the authorized set. |
| Properties.AllowanceOnlyRaisedByApproval | test/GGMI.spec.ts:62-73 | No call other than approve or permit raises any allowance; transferFrom only lowers one. |
| Properties.NoncesOnlyCountUp | test/GGMI.spec.ts:247-253 | Nonces never decrease. Only a successful permit moves one, the signer's, and by exactly one. |
| Properties.PermitNotReplayable | test/GGMI.spec.ts:247-253 | Once a permit has gone through, submitting the same signed permit again fails after any sequence of intervening transactions and at any block time. |
| Properties.Run | test/GGMI.spec.ts:44-52 | Running any sequence of calls from a state whose supply equals the sum of balances ends in such a state. |
| Properties.NoncesNeverFallAlongRun | test/GGMI.spec.ts:247-253 | No sequence of calls lowers any account's nonce. |
| Token.GGMI.BalanceOf | test/GGMI.spec.ts:51-128 | In a state satisfying the supply invariant, no account's `balanceOf` exceeds `totalSupply`. |
| Token.GGMI.IsAuthorized | test/GGMI.spec.ts:186-213 | `authorized` holds exactly for the accounts in the authorized set, and each of them passes the pause gate. |
| Token.GGMI.Mint | test/GGMI.spec.ts:165-174 | The method's storage update and outcome are those of Ledger.MintStep, and the supply invariant is kept. |
| Token.GGMI.Burn | test/GGMI.spec.ts:34-40 | Storage update and outcome are those of Ledger.BurnStep; invariant kept. |
| Token.GGMI.Transfer | test/GGMI.spec.ts:19-25 | Storage update and outcome are those of Ledger.TransferStep; invariant kept. |
| Token.GGMI.TransferFrom | test/GGMI.spec.ts:26-33 | Storage update and outcome are those of Ledger.TransferFromStep; invariant kept. |
| Token.GGMI.Approve | test/GGMI.spec.ts:66-70 | Storage update and outcome are those of Ledger.ApproveStep; invariant kept. |
| Token.GGMI.Permit | test/GGMI.spec.ts:247-253 | Storage update and outcome are those of Ledger.PermitStep; invariant kept. |
| Token.GGMI.Pause | test/GGMI.spec.ts:225-233 | Storage update and outcome are those of Ledger.PauseStep; invariant kept. |
| Token.GGMI.Unpause | test/GGMI.spec.ts:235-245 | Storage update and outcome are those of Ledger.UnpauseStep; invariant kept. |
| Token.GGMI.GrantAuthorization | test/GGMI.spec.ts:176-197 | Storage update and outcome are those of Ledger.GrantStep; invariant kept. |
| Token.GGMI.RevokeAuthorization | test/GGMI.spec.ts:199-223 | Storage update and outcome are those of Ledger.RevokeStep; invariant kept. |
| Token.GGMI.TransferOwnership | test/GGMI.spec.ts:83-94 | Storage update and outcome are those of Ledger.TransferOwnershipStep; invariant kept. |

## Scenarios

Each method of module `Scenarios` replays one test. The three signers are
distinct, and none of them is the zero address or 0x…01.

| scenario | test |
|---|---|
| UserCanTransfer, UserCanTransferFrom, UserCanBurn | test/GGMI.spec.ts:19-40 |
| OwnerCanMintWhilePaused, OwnerCanTransferWhilePaused, OwnerCanTransferFromWhilePaused, OwnerCanBurnWhilePaused | test/GGMI.spec.ts:44-82 |
| AuthorizedCannotMintWhilePaused | test/GGMI.spec.ts:83-94 |
| AuthorizedCanTransferWhilePaused, AuthorizedCanTransferFromWhilePaused, AuthorizedCanBurnWhilePaused | test/GGMI.spec.ts:95-129 |
| UserCannotTransferWhilePaused, UserCannotTransferFromWhilePaused, UserCannotBurnWhilePaused | test/GGMI.spec.ts:130-162 |
| MintRevertsForNonOwner | test/GGMI.spec.ts:166-173 |
| GrantRevertsForNonOwner, GrantAuthorizes, GrantEmitsAuthorizationGranted | test/GGMI.spec.ts:177-196 |
| RevokeRevertsForNonOwner, RevokeDeauthorizes, RevokeEmitsAuthorizationRevoked | test/GGMI.spec.ts:200-222 |
| PauseSetsPaused, UnpauseClearsPaused | test/GGMI.spec.ts:226-244 |
| NoncesStartAtZero | test/GGMI.spec.ts:248-252 |

## Choices where the tests are silent

These follow OpenZeppelin v5 unless noted.

- The pause gate looks at the caller only, never at `from`. The test at
  lines 62-73, where the owner spends an unprivileged holder's allowance
  while paused, rules out a gate on `from` alone. A gate that lets the call
  through when either the caller or `from` is privileged would fit that test
  and the ones at lines 106-118 and 141-151 equally, so caller-only is a
  choice the tests do not force.
- The gate is checked first in `burn`, `transfer` and `transferFrom`, before
  any balance, allowance or zero-address check. This departs from
  OpenZeppelin's `ERC20Pausable`, which checks the pause inside `_update`,
  after `_spendAllowance` and the zero-address checks of `_transfer`. The
  test at lines 152-162, where an account holding nothing still gets
  `EnforcedPause`, pins only the gate before the balance check. The
  "exactly" of `Properties.EnforcedPauseExactly` rests on this choice: with
  OpenZeppelin's order a paused `transferFrom` with too small an allowance,
  or a call with a zero address, would report its own error instead.
- `transferFrom` lowers the allowance by the amount and emits no `Approval`.
- Insufficient balance or allowance and zero addresses revert with the ERC-20
  errors (`InsufficientBalance`, `InsufficientAllowance`, `InvalidSender`,
  `InvalidReceiver`, `InvalidApprover`, `InvalidSpender`). They carry no
  partial effect.
- Only the owner may pause or unpause.
- `pause` on a paused token reverts with `EnforcedPause`, and `unpause` on a
  running token reverts with `ExpectedPause`. This is the behaviour of
  OpenZeppelin's `Pausable`. Repeated toggling would fit the tests equally;
  they toggle once each way.
- `transferOwnership(0)` reverts with `InvalidOwner(0)`, as OpenZeppelin's
  `Ownable` does. The tests hand ownership to 0x…01, not to 0, which fits this.
  Accepting any new owner would also fit the tests.
- `approve` is not pause-gated. The tests show an unprivileged holder
  approving while paused (lines 66-70).
- `grantAuthorization` and `revokeAuthorization` succeed, and log their
  event, even when they change nothing.
- `AuthorizationGranted` and `AuthorizationRevoked` carry the token's own
  address as their first argument. The tests at lines 195 and 221 pass
  `tokenContract.getAddress` to `withArgs` without calling it. hardhat-chai-matchers
  reads a function given to `withArgs` as a predicate on the argument, and an async
  method always returns a truthy promise, so that first argument goes
  unchecked. Emitting the token's address there is therefore a choice.

## Left out

- Display name, symbol and decimals: static configuration passed at deploy,
  with no behaviour.
- `parseEther` scaling: amounts are plain naturals, and one token is
  10^18 units.
- uint256 width: balances, allowances, supply and nonces are unbounded
  naturals. The tests never approach 2^256, so overflow reverts are not
  modelled. Addresses are bounded to 160 bits.
- Ledger.TransferFromStep: does not model OpenZeppelin's "infinite allowance"
  (an allowance of 2^256-1 is not decremented), since uint256 limits are not
  modelled.
- Ledger.PermitStep: the EIP-712 digest and ECDSA recovery are abstracted.
  A signature is its signer plus the message it covers. A signature over a
  different message recovers to the zero address, where the real recovery
  yields some unrelated address. Malformed-signature reverts are not
  modelled.
- Event encoding: events are a sequence of datatype values in the `log`
  field.
- `renounceOwnership`, `burnFrom`, `DOMAIN_SEPARATOR`, `eip712Domain` and the
  `name`/`symbol`/`decimals` queries are inherited library entry points. The
  tests do not exercise them, and they are not modelled.
- The Hardhat test harness (fixtures, contract factory, async calls, chai
  matchers) is represented by the scenario methods. Deployment is the `GGMI`
  constructor, whose `requires initialOwner != 0` stands for `Ownable`
  refusing a zero initial owner.
