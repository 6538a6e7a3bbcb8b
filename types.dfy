/** Vocabulary of the GGMI token: addresses, the events it emits, the outcomes
    a call can end with, and the calls a transaction can make. */
module Types {

  /** 2^160: an Ethereum address is a 160-bit number. */
  const ADDRESS_SPACE: int := 0x1_0000_0000_0000_0000_0000_0000_0000_0000_0000_0000

  type Addr = a: int | 0 <= a < ADDRESS_SPACE

  /** The zero address, which no account controls. */
  const ZERO: Addr := 0

  /** 0x0000000000000000000000000000000000000001, used by the tests as an
      ownership sink nobody holds a key for. */
  const ADDRESS_ONE: Addr := 1

  /** Observable logs: the ERC-20, Ownable and Pausable events and the two
      authorization events of the token. */
  datatype Event =
    | Transfer(from: Addr, to: Addr, value: nat)
    | Approval(owner: Addr, spender: Addr, value: nat)
    | OwnershipTransferred(previousOwner: Addr, newOwner: Addr)
    | Paused(account: Addr)
    | Unpaused(account: Addr)
    | AuthorizationGranted(source: Addr, account: Addr)
    | AuthorizationRevoked(source: Addr, account: Addr)

  /** How a call ends: `Ok`, or the custom error it reverts with. */
  datatype Outcome =
    | Ok
    | Unauthorized(account: Addr)               // OwnableUnauthorizedAccount
    | InvalidOwner(owner: Addr)                 // OwnableInvalidOwner
    | EnforcedPause
    | ExpectedPause
    | InsufficientBalance(sender: Addr, balance: nat, needed: nat)
    | InsufficientAllowance(spender: Addr, allowance: nat, needed: nat)
    | InvalidSender(sender: Addr)
    | InvalidReceiver(receiver: Addr)
    | InvalidApprover(approver: Addr)
    | InvalidSpender(spender: Addr)
    | ExpiredSignature(deadline: nat)
    | InvalidSigner(signer: Addr, owner: Addr)

  /** The message an account signs off-chain to approve a spender (EIP-2612). */
  datatype PermitMessage = PermitMessage(owner: Addr, spender: Addr, value: nat, nonce: nat, deadline: nat)

  /** A signature, abstracted to who produced it and over which message. */
  datatype Signature = Signature(signer: Addr, message: PermitMessage)

  /** The state-changing entry points of the token; the caller is given separately. */
  datatype Call =
    | Mint(to: Addr, amount: nat)
    | Burn(amount: nat)
    | Transfer(to: Addr, amount: nat)
    | TransferFrom(from: Addr, to: Addr, amount: nat)
    | Approve(spender: Addr, amount: nat)
    | Permit(owner: Addr, spender: Addr, value: nat, deadline: nat, now: nat, sig: Signature)
    | Pause
    | Unpause
    | GrantAuthorization(account: Addr)
    | RevokeAuthorization(account: Addr)
    | TransferOwnership(newOwner: Addr)
  {
    /** The calls that move or destroy tokens and are blocked for unprivileged callers while paused. */
    predicate Gated() {
      Burn? || Transfer? || TransferFrom?
    }

    /** The calls only the current owner may make. */
    predicate OwnerOnly() {
      Mint? || Pause? || Unpause? || GrantAuthorization? || RevokeAuthorization? || TransferOwnership?
    }
  }
}
