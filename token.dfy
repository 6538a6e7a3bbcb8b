/** The GGMI token contract as an object: its storage is the fields, every
    external entry point a method that updates them in place. Each method is
    proved to produce the state and the outcome of its step function in
    ledger.dfy; a call that reverts returns before touching any field. */
module Token {
  import opened Types
  import Ledger
  import Properties

  class GGMI {
    const self: Addr
    var owner: Addr
    var authorized: set<Addr>
    var paused: bool
    var balances: map<Addr, nat>
    var allowances: map<(Addr, Addr), nat>
    var totalSupply: nat
    var nonces: map<Addr, nat>
    var log: seq<Event>

    /** The storage as a value. */
    function Model(): (m: Ledger.State)
      reads this
    {
      Ledger.State(self, owner, authorized, paused, balances, allowances, totalSupply, nonces, log)
    }

    /** The total supply is the sum of all balances. */
    ghost predicate Valid()
      reads this
    {
      Ledger.Inv(Model())
    }

    // ---------------------------------------------------------------- queries

    /** The balance of `account`; an account never credited holds zero.
        In a valid state no balance exceeds the total supply. */
    function BalanceOf(account: Addr): (r: nat)
      reads this
      ensures Valid() ==> r <= totalSupply
    {
      Ledger.BalanceBound(balances, account);
      Ledger.BalanceOf(Model(), account)
    }

    /** What `spender` may still take from `holder`; zero unless approved. */
    function Allowance(holder: Addr, spender: Addr): (r: nat)
      reads this
    {
      Ledger.AllowanceOf(Model(), holder, spender)
    }

    /** The number of permits of `account` used so far; zero at first. */
    function Nonces(account: Addr): (r: nat)
      reads this
    {
      Ledger.NonceOf(Model(), account)
    }

    /** Whether the owner has granted `account` the pause bypass. */
    predicate IsAuthorized(account: Addr)
      reads this
      ensures IsAuthorized(account) <==> account in authorized
      ensures IsAuthorized(account) ==> PassesPauseGate(account)
    {
      Ledger.IsAuthorized(Model(), account)
    }

    predicate PassesPauseGate(caller: Addr)
      reads this
    {
      Ledger.PassesPauseGate(Model(), caller)
    }

    // ------------------------------------------------------------- deployment

    /** Deployment by `initialOwner`, who becomes the owner; the token lives at `self`. */
    constructor (initialOwner: Addr, self: Addr)
      requires initialOwner != ZERO
      ensures Valid() && Model() == Ledger.Deploy(initialOwner, self)
    {
      this.self := self;
      owner := initialOwner;
      authorized := {};
      paused := false;
      balances := map[];
      allowances := map[];
      totalSupply := 0;
      nonces := map[];
      log := [OwnershipTransferred(ZERO, initialOwner)];
    }

    // ------------------------------------------------------------ entry points

    method Mint(caller: Addr, to: Addr, amount: nat) returns (r: Outcome)
      requires Valid()
      modifies this
      ensures Valid()
      ensures var st := Ledger.MintStep(old(Model()), caller, to, amount);
              Model() == st.state && r == st.result
    {
      Properties.ApplyPreservesSupply(Model(), caller, Call.Mint(to, amount));
      if caller != owner {
        return Unauthorized(caller);
      }
      if to == ZERO {
        return InvalidReceiver(ZERO);
      }
      balances := balances[to := BalanceOf(to) + amount];
      totalSupply := totalSupply + amount;
      log := log + [Event.Transfer(ZERO, to, amount)];
      r := Ok;
    }

    method Burn(caller: Addr, amount: nat) returns (r: Outcome)
      requires Valid()
      modifies this
      ensures Valid()
      ensures var st := Ledger.BurnStep(old(Model()), caller, amount);
              Model() == st.state && r == st.result
    {
      Properties.ApplyPreservesSupply(Model(), caller, Call.Burn(amount));
      if !PassesPauseGate(caller) {
        return EnforcedPause;
      }
      if caller == ZERO {
        return InvalidSender(ZERO);
      }
      var balance := BalanceOf(caller);
      if balance < amount {
        return InsufficientBalance(caller, balance, amount);
      }
      Ledger.BalanceBound(balances, caller);
      balances := balances[caller := balance - amount];
      totalSupply := totalSupply - amount;
      log := log + [Event.Transfer(caller, ZERO, amount)];
      r := Ok;
    }

    method Transfer(caller: Addr, to: Addr, amount: nat) returns (r: Outcome)
      requires Valid()
      modifies this
      ensures Valid()
      ensures var st := Ledger.TransferStep(old(Model()), caller, to, amount);
              Model() == st.state && r == st.result
    {
      Properties.ApplyPreservesSupply(Model(), caller, Call.Transfer(to, amount));
      if !PassesPauseGate(caller) {
        return EnforcedPause;
      }
      if caller == ZERO {
        return InvalidSender(ZERO);
      }
      if to == ZERO {
        return InvalidReceiver(ZERO);
      }
      var balance := BalanceOf(caller);
      if balance < amount {
        return InsufficientBalance(caller, balance, amount);
      }
      balances := Ledger.Move(balances, caller, to, amount);
      log := log + [Event.Transfer(caller, to, amount)];
      r := Ok;
    }

    method TransferFrom(caller: Addr, from: Addr, to: Addr, amount: nat) returns (r: Outcome)
      requires Valid()
      modifies this
      ensures Valid()
      ensures var st := Ledger.TransferFromStep(old(Model()), caller, from, to, amount);
              Model() == st.state && r == st.result
    {
      Properties.ApplyPreservesSupply(Model(), caller, Call.TransferFrom(from, to, amount));
      if !PassesPauseGate(caller) {
        return EnforcedPause;
      }
      var allowance := Allowance(from, caller);
      if allowance < amount {
        return InsufficientAllowance(caller, allowance, amount);
      }
      if from == ZERO {
        return InvalidApprover(ZERO);
      }
      if caller == ZERO {
        return InvalidSpender(ZERO);
      }
      if to == ZERO {
        return InvalidReceiver(ZERO);
      }
      var balance := BalanceOf(from);
      if balance < amount {
        return InsufficientBalance(from, balance, amount);
      }
      allowances := allowances[(from, caller) := allowance - amount];
      balances := Ledger.Move(balances, from, to, amount);
      log := log + [Event.Transfer(from, to, amount)];
      r := Ok;
    }

    method Approve(caller: Addr, spender: Addr, amount: nat) returns (r: Outcome)
      requires Valid()
      modifies this
      ensures Valid()
      ensures var st := Ledger.ApproveStep(old(Model()), caller, spender, amount);
              Model() == st.state && r == st.result
    {
      if caller == ZERO {
        return InvalidApprover(ZERO);
      }
      if spender == ZERO {
        return InvalidSpender(ZERO);
      }
      allowances := allowances[(caller, spender) := amount];
      log := log + [Approval(caller, spender, amount)];
      r := Ok;
    }

    /** Anyone may submit `holder`'s signed approval; `now` is the block time. */
    method Permit(holder: Addr, spender: Addr, value: nat, deadline: nat, now: nat, sig: Signature) returns (r: Outcome)
      requires Valid()
      modifies this
      ensures Valid()
      ensures var st := Ledger.PermitStep(old(Model()), holder, spender, value, deadline, now, sig);
              Model() == st.state && r == st.result
    {
      if deadline < now {
        return ExpiredSignature(deadline);
      }
      var nonce := Nonces(holder);
      var signer := Ledger.Recover(sig, PermitMessage(holder, spender, value, nonce, deadline));
      if signer != holder {
        return InvalidSigner(signer, holder);
      }
      if holder == ZERO {
        return InvalidApprover(ZERO);
      }
      if spender == ZERO {
        return InvalidSpender(ZERO);
      }
      nonces := nonces[holder := nonce + 1];
      allowances := allowances[(holder, spender) := value];
      log := log + [Approval(holder, spender, value)];
      r := Ok;
    }

    method Pause(caller: Addr) returns (r: Outcome)
      requires Valid()
      modifies this
      ensures Valid()
      ensures var st := Ledger.PauseStep(old(Model()), caller);
              Model() == st.state && r == st.result
    {
      if caller != owner {
        return Unauthorized(caller);
      }
      if paused {
        return EnforcedPause;
      }
      paused := true;
      log := log + [Paused(caller)];
      r := Ok;
    }

    method Unpause(caller: Addr) returns (r: Outcome)
      requires Valid()
      modifies this
      ensures Valid()
      ensures var st := Ledger.UnpauseStep(old(Model()), caller);
              Model() == st.state && r == st.result
    {
      if caller != owner {
        return Unauthorized(caller);
      }
      if !paused {
        return ExpectedPause;
      }
      paused := false;
      log := log + [Unpaused(caller)];
      r := Ok;
    }

    method GrantAuthorization(caller: Addr, account: Addr) returns (r: Outcome)
      requires Valid()
      modifies this
      ensures Valid()
      ensures var st := Ledger.GrantStep(old(Model()), caller, account);
              Model() == st.state && r == st.result
    {
      if caller != owner {
        return Unauthorized(caller);
      }
      authorized := authorized + {account};
      log := log + [AuthorizationGranted(self, account)];
      r := Ok;
    }

    method RevokeAuthorization(caller: Addr, account: Addr) returns (r: Outcome)
      requires Valid()
      modifies this
      ensures Valid()
      ensures var st := Ledger.RevokeStep(old(Model()), caller, account);
              Model() == st.state && r == st.result
    {
      if caller != owner {
        return Unauthorized(caller);
      }
      authorized := authorized - {account};
      log := log + [AuthorizationRevoked(self, account)];
      r := Ok;
    }

    method TransferOwnership(caller: Addr, newOwner: Addr) returns (r: Outcome)
      requires Valid()
      modifies this
      ensures Valid()
      ensures var st := Ledger.TransferOwnershipStep(old(Model()), caller, newOwner);
              Model() == st.state && r == st.result
    {
      if caller != owner {
        return Unauthorized(caller);
      }
      if newOwner == ZERO {
        return InvalidOwner(ZERO);
      }
      log := log + [OwnershipTransferred(owner, newOwner)];
      owner := newOwner;
      r := Ok;
    }
  }
}
