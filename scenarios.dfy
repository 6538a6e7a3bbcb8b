/** The behaviour the repository's test suite pins down, call by call: every
    `it` block of test/GGMI.spec.ts replayed against the GGMI class, with its
    expectations as assertions. A call the test only awaits must not revert,
    so it is asserted to end with `Ok`. */
module Scenarios {
  import opened Types
  import opened Token

  /** parseEther("1"): one token in its smallest unit. */
  const ONE_TOKEN: nat := 1_000_000_000_000_000_000

  /** The three test signers: distinct real accounts, neither the zero address nor 0x..01. */
  predicate Signers(deployer: Addr, sender: Addr, receiver: Addr) {
    && deployer != sender && deployer != receiver && sender != receiver
    && deployer !in {ZERO, ADDRESS_ONE} && sender !in {ZERO, ADDRESS_ONE} && receiver !in {ZERO, ADDRESS_ONE}
  }

  // ------------------------------------------------------ When not paused

  method UserCanTransfer(deployer: Addr, sender: Addr, receiver: Addr, self: Addr)
    requires Signers(deployer, sender, receiver)
  {
    var token := new GGMI(deployer, self);
    var r := token.Mint(deployer, sender, ONE_TOKEN);
    assert r == Ok;
    r := token.Transfer(sender, receiver, ONE_TOKEN);
    assert r == Ok;
  }

  method UserCanTransferFrom(deployer: Addr, sender: Addr, receiver: Addr, self: Addr)
    requires Signers(deployer, sender, receiver)
  {
    var token := new GGMI(deployer, self);
    var r := token.Mint(deployer, sender, ONE_TOKEN);
    assert r == Ok;
    r := token.Approve(sender, receiver, ONE_TOKEN);
    assert r == Ok;
    r := token.TransferFrom(receiver, sender, receiver, ONE_TOKEN);
    assert r == Ok;
  }

  method UserCanBurn(deployer: Addr, sender: Addr, receiver: Addr, self: Addr)
    requires Signers(deployer, sender, receiver)
  {
    var token := new GGMI(deployer, self);
    var r := token.Mint(deployer, sender, ONE_TOKEN);
    assert r == Ok;
    r := token.Burn(sender, 100);
    assert r == Ok;
  }

  // ---------------------------------------------------------- When paused

  method OwnerCanMintWhilePaused(deployer: Addr, sender: Addr, receiver: Addr, self: Addr)
    requires Signers(deployer, sender, receiver)
  {
    var token := new GGMI(deployer, self);
    var r := token.Pause(deployer);
    assert r == Ok;
    r := token.Mint(deployer, sender, ONE_TOKEN);
    assert r == Ok;
    assert token.totalSupply == ONE_TOKEN;
    assert token.BalanceOf(sender) == ONE_TOKEN;
  }

  method OwnerCanTransferWhilePaused(deployer: Addr, sender: Addr, receiver: Addr, self: Addr)
    requires Signers(deployer, sender, receiver)
  {
    var token := new GGMI(deployer, self);
    var r := token.Pause(deployer);
    assert r == Ok;
    r := token.Mint(deployer, deployer, ONE_TOKEN);
    assert r == Ok;
    r := token.Transfer(deployer, sender, ONE_TOKEN);
    assert r == Ok;
    assert token.BalanceOf(sender) == ONE_TOKEN;
  }

  method OwnerCanTransferFromWhilePaused(deployer: Addr, sender: Addr, receiver: Addr, self: Addr)
    requires Signers(deployer, sender, receiver)
  {
    var token := new GGMI(deployer, self);
    var r := token.Mint(deployer, sender, ONE_TOKEN);
    assert r == Ok;
    r := token.Pause(deployer);
    assert r == Ok;
    r := token.Approve(sender, deployer, ONE_TOKEN);
    assert r == Ok;
    assert token.BalanceOf(sender) == ONE_TOKEN;
    assert token.Allowance(sender, deployer) == ONE_TOKEN;
    r := token.TransferFrom(deployer, sender, receiver, ONE_TOKEN);
    assert r == Ok;
    assert token.BalanceOf(receiver) == ONE_TOKEN;
  }

  method OwnerCanBurnWhilePaused(deployer: Addr, sender: Addr, receiver: Addr, self: Addr)
    requires Signers(deployer, sender, receiver)
  {
    var token := new GGMI(deployer, self);
    var r := token.Pause(deployer);
    assert r == Ok;
    r := token.Mint(deployer, deployer, ONE_TOKEN);
    assert r == Ok;
    r := token.Burn(deployer, ONE_TOKEN);
    assert r == Ok;
    assert token.BalanceOf(deployer) == 0;
  }

  method AuthorizedCannotMintWhilePaused(deployer: Addr, sender: Addr, receiver: Addr, self: Addr)
    requires Signers(deployer, sender, receiver)
  {
    var token := new GGMI(deployer, self);
    var r := token.Pause(deployer);
    assert r == Ok;
    r := token.GrantAuthorization(deployer, deployer);
    assert r == Ok;
    r := token.TransferOwnership(deployer, ADDRESS_ONE);
    assert r == Ok;
    r := token.Mint(deployer, sender, ONE_TOKEN);
    assert r == Unauthorized(deployer);
  }

  method AuthorizedCanTransferWhilePaused(deployer: Addr, sender: Addr, receiver: Addr, self: Addr)
    requires Signers(deployer, sender, receiver)
  {
    var token := new GGMI(deployer, self);
    var r := token.Pause(deployer);
    assert r == Ok;
    r := token.Mint(deployer, deployer, ONE_TOKEN);
    assert r == Ok;
    r := token.GrantAuthorization(deployer, deployer);
    assert r == Ok;
    r := token.TransferOwnership(deployer, ADDRESS_ONE);
    assert r == Ok;
    r := token.Transfer(deployer, sender, ONE_TOKEN);
    assert r == Ok;
    assert token.BalanceOf(sender) == ONE_TOKEN;
  }

  method AuthorizedCanTransferFromWhilePaused(deployer: Addr, sender: Addr, receiver: Addr, self: Addr)
    requires Signers(deployer, sender, receiver)
  {
    var token := new GGMI(deployer, self);
    var r := token.Pause(deployer);
    assert r == Ok;
    r := token.Approve(deployer, sender, ONE_TOKEN);
    assert r == Ok;
    r := token.GrantAuthorization(deployer, sender);
    assert r == Ok;
    r := token.Mint(deployer, deployer, ONE_TOKEN);
    assert r == Ok;
    assert token.BalanceOf(deployer) == ONE_TOKEN;
    assert token.Allowance(deployer, sender) == ONE_TOKEN;
    r := token.TransferFrom(sender, deployer, receiver, ONE_TOKEN);
    assert r == Ok;
    assert token.BalanceOf(receiver) == ONE_TOKEN;
  }

  method AuthorizedCanBurnWhilePaused(deployer: Addr, sender: Addr, receiver: Addr, self: Addr)
    requires Signers(deployer, sender, receiver)
  {
    var token := new GGMI(deployer, self);
    var r := token.Pause(deployer);
    assert r == Ok;
    r := token.Mint(deployer, deployer, ONE_TOKEN);
    assert r == Ok;
    r := token.GrantAuthorization(deployer, deployer);
    assert r == Ok;
    r := token.TransferOwnership(deployer, ADDRESS_ONE);
    assert r == Ok;
    r := token.Burn(deployer, ONE_TOKEN);
    assert r == Ok;
    assert token.BalanceOf(deployer) == 0;
  }

  method UserCannotTransferWhilePaused(deployer: Addr, sender: Addr, receiver: Addr, self: Addr)
    requires Signers(deployer, sender, receiver)
  {
    var token := new GGMI(deployer, self);
    var r := token.Pause(deployer);
    assert r == Ok;
    r := token.Mint(deployer, sender, ONE_TOKEN);
    assert r == Ok;
    r := token.Transfer(sender, receiver, ONE_TOKEN);
    assert r == EnforcedPause;
  }

  method UserCannotTransferFromWhilePaused(deployer: Addr, sender: Addr, receiver: Addr, self: Addr)
    requires Signers(deployer, sender, receiver)
  {
    var token := new GGMI(deployer, self);
    var r := token.Mint(deployer, sender, ONE_TOKEN);
    assert r == Ok;
    r := token.Approve(sender, receiver, ONE_TOKEN);
    assert r == Ok;
    r := token.Pause(deployer);
    assert r == Ok;
    r := token.TransferFrom(receiver, sender, receiver, ONE_TOKEN);
    assert r == EnforcedPause;
  }

  method UserCannotBurnWhilePaused(deployer: Addr, sender: Addr, receiver: Addr, self: Addr)
    requires Signers(deployer, sender, receiver)
  {
    var token := new GGMI(deployer, self);
    var r := token.Pause(deployer);
    assert r == Ok;
    r := token.Mint(deployer, deployer, ONE_TOKEN);
    assert r == Ok;
    assert token.BalanceOf(sender) == 0;
    r := token.Burn(sender, 100);
    assert r == EnforcedPause;
  }

  // ----------------------------------------------------------------- mint()

  method MintRevertsForNonOwner(deployer: Addr, sender: Addr, receiver: Addr, self: Addr)
    requires Signers(deployer, sender, receiver)
  {
    var token := new GGMI(deployer, self);
    var r := token.Mint(sender, sender, ONE_TOKEN);
    assert r == Unauthorized(sender);
  }

  // --------------------------------------------------- grantAuthorization()

  method GrantRevertsForNonOwner(deployer: Addr, sender: Addr, receiver: Addr, self: Addr)
    requires Signers(deployer, sender, receiver)
  {
    var token := new GGMI(deployer, self);
    var r := token.GrantAuthorization(sender, sender);
    assert r == Unauthorized(sender);
  }

  method GrantAuthorizes(deployer: Addr, sender: Addr, receiver: Addr, self: Addr)
    requires Signers(deployer, sender, receiver)
  {
    var token := new GGMI(deployer, self);
    assert !token.IsAuthorized(sender);
    var r := token.GrantAuthorization(deployer, sender);
    assert r == Ok;
    assert token.IsAuthorized(sender);
  }

  method GrantEmitsAuthorizationGranted(deployer: Addr, sender: Addr, receiver: Addr, self: Addr)
    requires Signers(deployer, sender, receiver)
  {
    var token := new GGMI(deployer, self);
    var r := token.GrantAuthorization(deployer, sender);
    assert r == Ok;
    assert token.log[|token.log| - 1] == AuthorizationGranted(self, sender);
  }

  // -------------------------------------------------- revokeAuthorization()

  method RevokeRevertsForNonOwner(deployer: Addr, sender: Addr, receiver: Addr, self: Addr)
    requires Signers(deployer, sender, receiver)
  {
    var token := new GGMI(deployer, self);
    var r := token.RevokeAuthorization(sender, sender);
    assert r == Unauthorized(sender);
  }

  method RevokeDeauthorizes(deployer: Addr, sender: Addr, receiver: Addr, self: Addr)
    requires Signers(deployer, sender, receiver)
  {
    var token := new GGMI(deployer, self);
    assert !token.IsAuthorized(sender);
    var r := token.GrantAuthorization(deployer, sender);
    assert r == Ok;
    assert token.IsAuthorized(sender);
    r := token.RevokeAuthorization(deployer, sender);
    assert r == Ok;
    assert !token.IsAuthorized(sender);
  }

  method RevokeEmitsAuthorizationRevoked(deployer: Addr, sender: Addr, receiver: Addr, self: Addr)
    requires Signers(deployer, sender, receiver)
  {
    var token := new GGMI(deployer, self);
    var r := token.GrantAuthorization(deployer, sender);
    assert r == Ok;
    r := token.RevokeAuthorization(deployer, sender);
    assert r == Ok;
    assert token.log[|token.log| - 1] == AuthorizationRevoked(self, sender);
  }

  // -------------------------------------------------- pause() and unpause()

  method PauseSetsPaused(deployer: Addr, sender: Addr, receiver: Addr, self: Addr)
    requires Signers(deployer, sender, receiver)
  {
    var token := new GGMI(deployer, self);
    assert !token.paused;
    var r := token.Pause(deployer);
    assert r == Ok;
    assert token.paused;
  }

  method UnpauseClearsPaused(deployer: Addr, sender: Addr, receiver: Addr, self: Addr)
    requires Signers(deployer, sender, receiver)
  {
    var token := new GGMI(deployer, self);
    assert !token.paused;
    var r := token.Pause(deployer);
    assert r == Ok;
    assert token.paused;
    r := token.Unpause(deployer);
    assert r == Ok;
    assert !token.paused;
  }

  // ---------------------------------------------------------------- nonces()

  method NoncesStartAtZero(deployer: Addr, sender: Addr, receiver: Addr, self: Addr)
    requires Signers(deployer, sender, receiver)
  {
    var token := new GGMI(deployer, self);
    assert token.Nonces(deployer) == 0;
  }
}
