/** The GGMI token as a value: its whole state and, for every entry point, the
    state and outcome one call produces. The class in token.dfy is proved to
    follow these functions; properties.dfy proves what they promise together. */
module Ledger {
  import opened Types

  /** Everything the contract stores, plus the log of events it has emitted. */
  datatype State = State(
    self: Addr,                          // the token contract's own address
    owner: Addr,
    authorized: set<Addr>,
    paused: bool,
    balances: map<Addr, nat>,
    allowances: map<(Addr, Addr), nat>,  // (owner, spender) -> remaining allowance
    totalSupply: nat,
    nonces: map<Addr, nat>,
    log: seq<Event>)

  /** The state after a call and how the call ended. */
  datatype Step = Step(state: State, result: Outcome)

  // ---------------------------------------------------------------- queries

  /** A missing key reads as zero, as a Solidity mapping does. */
  function Get<K>(m: map<K, nat>, k: K): (r: nat) {
    if k in m then m[k] else 0
  }

  function BalanceOf(s: State, a: Addr): (r: nat) {
    Get(s.balances, a)
  }

  function AllowanceOf(s: State, owner: Addr, spender: Addr): (r: nat) {
    Get(s.allowances, (owner, spender))
  }

  function NonceOf(s: State, a: Addr): (r: nat) {
    Get(s.nonces, a)
  }

  predicate IsAuthorized(s: State, a: Addr) {
    a in s.authorized
  }

  /** The owner and the authorized accounts may act while the token is paused. */
  predicate IsPrivileged(s: State, a: Addr) {
    a == s.owner || a in s.authorized
  }

  /** The pause gate: passes while running, and for privileged callers always. */
  predicate PassesPauseGate(s: State, caller: Addr) {
    !s.paused || IsPrivileged(s, caller)
  }

  // ------------------------------------------------------- supply invariant

  /** Some element of a non-empty set, fixed once so that proofs can name it. */
  ghost function Pick(ks: set<Addr>): (k: Addr)
    requires ks != {}
    ensures k in ks
  {
    var k :| k in ks; k
  }

  /** The sum of `m` over the keys `ks`. */
  ghost function SumOf(m: map<Addr, nat>, ks: set<Addr>): (r: nat)
    requires ks <= m.Keys
    decreases ks
  {
    if ks == {} then 0 else m[Pick(ks)] + SumOf(m, ks - {Pick(ks)})
  }

  /** The sum of all balances. */
  ghost function Total(m: map<Addr, nat>): (r: nat) {
    SumOf(m, m.Keys)
  }

  /** The ledger invariant: the total supply is the sum of all balances. */
  ghost predicate Inv(s: State) {
    s.totalSupply == Total(s.balances)
  }

  /** Taking `k` out first gives the same sum as whatever order `SumOf` chose. */
  lemma {:induction false} SumOfRemove(m: map<Addr, nat>, ks: set<Addr>, k: Addr)
    requires ks <= m.Keys && k in ks
    ensures SumOf(m, ks) == m[k] + SumOf(m, ks - {k})
    decreases ks
  {
    var j := Pick(ks);
    if j != k {
      SumOfRemove(m, ks - {j}, k);
      SumOfRemove(m, ks - {k}, j);
      assert ks - {j} - {k} == ks - {k} - {j};
    }
  }

  /** The sum over `ks` only looks at the values on `ks`. */
  lemma {:induction false} SumOfFrame(m: map<Addr, nat>, m': map<Addr, nat>, ks: set<Addr>)
    requires ks <= m.Keys && ks <= m'.Keys
    requires forall k :: k in ks ==> m[k] == m'[k]
    ensures SumOf(m, ks) == SumOf(m', ks)
    decreases ks
  {
    if ks != {} {
      SumOfFrame(m, m', ks - {Pick(ks)});
    }
  }

  /** Overwriting one balance changes the total by the difference. */
  lemma TotalUpdate(m: map<Addr, nat>, k: Addr, v: nat)
    ensures Total(m[k := v]) + Get(m, k) == Total(m) + v
  {
    var m' := m[k := v];
    SumOfRemove(m', m'.Keys, k);
    assert m'.Keys - {k} == m.Keys - {k};
    SumOfFrame(m, m', m.Keys - {k});
    if k in m {
      SumOfRemove(m, m.Keys, k);
    } else {
      assert m.Keys - {k} == m.Keys;
    }
  }

  /** No single balance exceeds the total. */
  lemma BalanceBound(m: map<Addr, nat>, a: Addr)
    ensures Get(m, a) <= Total(m)
  {
    if a in m {
      SumOfRemove(m, m.Keys, a);
    }
  }

  // ------------------------------------------------------------- deployment

  /** The state right after deployment by `initialOwner` at address `self`. */
  function Deploy(initialOwner: Addr, self: Addr): (s: State)
    requires initialOwner != ZERO
    ensures s.owner == initialOwner && s.self == self && !s.paused
    ensures s.totalSupply == 0 && Inv(s)
    ensures forall a :: !IsAuthorized(s, a) && NonceOf(s, a) == 0 && BalanceOf(s, a) == 0
    ensures forall o, sp :: AllowanceOf(s, o, sp) == 0
    ensures s.log == [OwnershipTransferred(ZERO, initialOwner)]
  {
    State(self, initialOwner, {}, false, map[], map[], 0, map[], [OwnershipTransferred(ZERO, initialOwner)])
  }

  // ------------------------------------------------------------ ledger moves

  /** `a`'s balance lowered by `v`. */
  function Debit(m: map<Addr, nat>, a: Addr, v: nat): (r: map<Addr, nat>)
    requires v <= Get(m, a)
  {
    m[a := Get(m, a) - v]
  }

  /** `a`'s balance raised by `v`. */
  function Credit(m: map<Addr, nat>, a: Addr, v: nat): (r: map<Addr, nat>) {
    m[a := Get(m, a) + v]
  }

  /** `t` holds exactly `amount` tokens moved from `from` to `to` in `s`; all other balances are equal. */
  predicate Moved(s: State, t: State, from: Addr, to: Addr, amount: nat) {
    && (from != to ==> BalanceOf(t, from) + amount == BalanceOf(s, from) && BalanceOf(t, to) == BalanceOf(s, to) + amount)
    && (from == to ==> BalanceOf(t, from) == BalanceOf(s, from))
    && (forall a :: a != from && a != to ==> BalanceOf(t, a) == BalanceOf(s, a))
  }

  /** The balance movement shared by transfer and transferFrom (ERC-20 `_update` between two accounts). */
  function Move(m: map<Addr, nat>, from: Addr, to: Addr, amount: nat): (r: map<Addr, nat>)
    requires amount <= Get(m, from)
  {
    Credit(Debit(m, from, amount), to, amount)
  }

  // ------------------------------------------------------------ entry points

  /** mint(to, amount): owner only; creates `amount` tokens for `to`. The pause
      gate is consulted with the owner as caller, which always passes. */
  function MintStep(s: State, caller: Addr, to: Addr, amount: nat): (r: Step)
    ensures r.result == Ok <==> caller == s.owner && to != ZERO
    ensures caller != s.owner ==> r.result == Unauthorized(caller)
    ensures caller == s.owner && to == ZERO ==> r.result == InvalidReceiver(ZERO)
    ensures r.result != Ok ==> r.state == s
    ensures r.result == Ok ==>
      && r.state.totalSupply == s.totalSupply + amount
      && BalanceOf(r.state, to) == BalanceOf(s, to) + amount
      && (forall a :: a != to ==> BalanceOf(r.state, a) == BalanceOf(s, a))
      && r.state.log == s.log + [Event.Transfer(ZERO, to, amount)]
      && r.state.(balances := s.balances, totalSupply := s.totalSupply, log := s.log) == s
  {
    if caller != s.owner then Step(s, Unauthorized(caller))
    else if to == ZERO then Step(s, InvalidReceiver(ZERO))
    else
      Step(s.(balances := Credit(s.balances, to, amount),
              totalSupply := s.totalSupply + amount,
              log := s.log + [Event.Transfer(ZERO, to, amount)]), Ok)
  }

  /** burn(amount): destroys `amount` of the caller's own tokens; pause-gated. */
  function BurnStep(s: State, caller: Addr, amount: nat): (r: Step)
    requires Inv(s)
    ensures r.result == Ok <==> PassesPauseGate(s, caller) && caller != ZERO && amount <= BalanceOf(s, caller)
    ensures !PassesPauseGate(s, caller) ==> r.result == EnforcedPause
    ensures PassesPauseGate(s, caller) && caller != ZERO && BalanceOf(s, caller) < amount ==>
      r.result == InsufficientBalance(caller, BalanceOf(s, caller), amount)
    ensures PassesPauseGate(s, caller) && caller == ZERO ==> r.result == InvalidSender(ZERO)
    ensures r.result != Ok ==> r.state == s
    ensures r.result == Ok ==>
      && r.state.totalSupply + amount == s.totalSupply
      && BalanceOf(r.state, caller) + amount == BalanceOf(s, caller)
      && (forall a :: a != caller ==> BalanceOf(r.state, a) == BalanceOf(s, a))
      && r.state.log == s.log + [Event.Transfer(caller, ZERO, amount)]
      && r.state.(balances := s.balances, totalSupply := s.totalSupply, log := s.log) == s
  {
    if !PassesPauseGate(s, caller) then Step(s, EnforcedPause)
    else if caller == ZERO then Step(s, InvalidSender(ZERO))
    else if BalanceOf(s, caller) < amount then Step(s, InsufficientBalance(caller, BalanceOf(s, caller), amount))
    else
      BalanceBound(s.balances, caller);
      Step(s.(balances := Debit(s.balances, caller, amount),
              totalSupply := s.totalSupply - amount,
              log := s.log + [Event.Transfer(caller, ZERO, amount)]), Ok)
  }

  /** transfer(to, amount): moves the caller's tokens to `to`; pause-gated. */
  function TransferStep(s: State, caller: Addr, to: Addr, amount: nat): (r: Step)
    ensures r.result == Ok <==>
      PassesPauseGate(s, caller) && caller != ZERO && to != ZERO && amount <= BalanceOf(s, caller)
    ensures !PassesPauseGate(s, caller) ==> r.result == EnforcedPause
    ensures PassesPauseGate(s, caller) && caller != ZERO && to != ZERO && BalanceOf(s, caller) < amount ==>
      r.result == InsufficientBalance(caller, BalanceOf(s, caller), amount)
    ensures PassesPauseGate(s, caller) && caller == ZERO ==> r.result == InvalidSender(ZERO)
    ensures PassesPauseGate(s, caller) && caller != ZERO && to == ZERO ==> r.result == InvalidReceiver(ZERO)
    ensures r.result != Ok ==> r.state == s
    ensures r.result == Ok ==>
      && Moved(s, r.state, caller, to, amount)
      && r.state.log == s.log + [Event.Transfer(caller, to, amount)]
      && r.state.(balances := s.balances, log := s.log) == s
  {
    if !PassesPauseGate(s, caller) then Step(s, EnforcedPause)
    else if caller == ZERO then Step(s, InvalidSender(ZERO))
    else if to == ZERO then Step(s, InvalidReceiver(ZERO))
    else if BalanceOf(s, caller) < amount then Step(s, InsufficientBalance(caller, BalanceOf(s, caller), amount))
    else
      Step(s.(balances := Move(s.balances, caller, to, amount),
              log := s.log + [Event.Transfer(caller, to, amount)]), Ok)
  }

  /** transferFrom(from, to, amount): the caller spends its allowance from
      `from`; pause-gated on the caller, never on `from`. The allowance is
      lowered by `amount` and no Approval event is emitted for that. */
  function TransferFromStep(s: State, caller: Addr, from: Addr, to: Addr, amount: nat): (r: Step)
    ensures r.result == Ok <==>
      && PassesPauseGate(s, caller)
      && amount <= AllowanceOf(s, from, caller)
      && from != ZERO && caller != ZERO && to != ZERO
      && amount <= BalanceOf(s, from)
    ensures !PassesPauseGate(s, caller) ==> r.result == EnforcedPause
    ensures PassesPauseGate(s, caller) && AllowanceOf(s, from, caller) < amount ==>
      r.result == InsufficientAllowance(caller, AllowanceOf(s, from, caller), amount)
    ensures PassesPauseGate(s, caller) && amount <= AllowanceOf(s, from, caller) ==>
      && (from == ZERO ==> r.result == InvalidApprover(ZERO))
      && (from != ZERO && caller == ZERO ==> r.result == InvalidSpender(ZERO))
      && (from != ZERO && caller != ZERO && to == ZERO ==> r.result == InvalidReceiver(ZERO))
      && (from != ZERO && caller != ZERO && to != ZERO && BalanceOf(s, from) < amount ==>
            r.result == InsufficientBalance(from, BalanceOf(s, from), amount))
    ensures r.result != Ok ==> r.state == s
    ensures r.result == Ok ==>
      && AllowanceOf(r.state, from, caller) + amount == AllowanceOf(s, from, caller)
      && (forall o: Addr, sp: Addr :: (o, sp) != (from, caller) ==> AllowanceOf(r.state, o, sp) == AllowanceOf(s, o, sp))
      && Moved(s, r.state, from, to, amount)
      && r.state.log == s.log + [Event.Transfer(from, to, amount)]
      && r.state.(balances := s.balances, allowances := s.allowances, log := s.log) == s
  {
    var allowance := AllowanceOf(s, from, caller);
    if !PassesPauseGate(s, caller) then Step(s, EnforcedPause)
    else if allowance < amount then Step(s, InsufficientAllowance(caller, allowance, amount))
    else if from == ZERO then Step(s, InvalidApprover(ZERO))
    else if caller == ZERO then Step(s, InvalidSpender(ZERO))
    else if to == ZERO then Step(s, InvalidReceiver(ZERO))
    else if BalanceOf(s, from) < amount then Step(s, InsufficientBalance(from, BalanceOf(s, from), amount))
    else
      Step(s.(allowances := s.allowances[(from, caller) := allowance - amount],
              balances := Move(s.balances, from, to, amount),
              log := s.log + [Event.Transfer(from, to, amount)]), Ok)
  }

  /** approve(spender, amount): overwrites the caller's allowance for `spender`; not pause-gated. */
  function ApproveStep(s: State, caller: Addr, spender: Addr, amount: nat): (r: Step)
    ensures r.result == Ok <==> caller != ZERO && spender != ZERO
    ensures caller == ZERO ==> r.result == InvalidApprover(ZERO)
    ensures caller != ZERO && spender == ZERO ==> r.result == InvalidSpender(ZERO)
    ensures r.result != Ok ==> r.state == s
    ensures r.result == Ok ==>
      && AllowanceOf(r.state, caller, spender) == amount
      && (forall o: Addr, sp: Addr :: (o, sp) != (caller, spender) ==> AllowanceOf(r.state, o, sp) == AllowanceOf(s, o, sp))
      && r.state.log == s.log + [Approval(caller, spender, amount)]
      && r.state.(allowances := s.allowances, log := s.log) == s
  {
    if caller == ZERO then Step(s, InvalidApprover(ZERO))
    else if spender == ZERO then Step(s, InvalidSpender(ZERO))
    else
      Step(s.(allowances := s.allowances[(caller, spender) := amount],
              log := s.log + [Approval(caller, spender, amount)]), Ok)
  }

  /** The address a signature recovers to for `msg`: its signer when it was
      made over `msg`, otherwise an address nobody controls. */
  function Recover(sig: Signature, msg: PermitMessage): (signer: Addr) {
    if sig.message == msg then sig.signer else ZERO
  }

  /** permit(owner, spender, value, deadline, signature), EIP-2612: anyone may
      submit the owner's signed approval; it consumes the owner's nonce, so that
      the signed message, which names that nonce, is good for one use. Not pause-gated. */
  function PermitStep(s: State, owner: Addr, spender: Addr, value: nat, deadline: nat, now: nat, sig: Signature): (r: Step)
    ensures r.result == Ok <==>
      && now <= deadline
      && sig == Signature(owner, PermitMessage(owner, spender, value, NonceOf(s, owner), deadline))
      && owner != ZERO && spender != ZERO
    ensures deadline < now ==> r.result == ExpiredSignature(deadline)
    ensures now <= deadline ==>
      var signer := Recover(sig, PermitMessage(owner, spender, value, NonceOf(s, owner), deadline));
      && (signer != owner ==> r.result == InvalidSigner(signer, owner))
      && (signer == owner && owner == ZERO ==> r.result == InvalidApprover(ZERO))
      && (signer == owner && owner != ZERO && spender == ZERO ==> r.result == InvalidSpender(ZERO))
    ensures r.result != Ok ==> r.state == s
    ensures r.result == Ok ==>
      && NonceOf(r.state, owner) == NonceOf(s, owner) + 1
      && (forall a :: a != owner ==> NonceOf(r.state, a) == NonceOf(s, a))
      && AllowanceOf(r.state, owner, spender) == value
      && (forall o: Addr, sp: Addr :: (o, sp) != (owner, spender) ==> AllowanceOf(r.state, o, sp) == AllowanceOf(s, o, sp))
      && r.state.log == s.log + [Approval(owner, spender, value)]
      && r.state.(nonces := s.nonces, allowances := s.allowances, log := s.log) == s
  {
    if deadline < now then Step(s, ExpiredSignature(deadline))
    else
      var nonce := NonceOf(s, owner);
      var signer := Recover(sig, PermitMessage(owner, spender, value, nonce, deadline));
      if signer != owner then Step(s, InvalidSigner(signer, owner))
      else if owner == ZERO then Step(s, InvalidApprover(ZERO))
      else if spender == ZERO then Step(s, InvalidSpender(ZERO))
      else
        Step(s.(nonces := s.nonces[owner := nonce + 1],
                allowances := s.allowances[(owner, spender) := value],
                log := s.log + [Approval(owner, spender, value)]), Ok)
  }

  /** pause(): owner only; refused with EnforcedPause when already paused. */
  function PauseStep(s: State, caller: Addr): (r: Step)
    ensures r.result == Ok <==> caller == s.owner && !s.paused
    ensures caller != s.owner ==> r.result == Unauthorized(caller)
    ensures caller == s.owner && s.paused ==> r.result == EnforcedPause
    ensures r.result != Ok ==> r.state == s
    ensures r.result == Ok ==>
      && r.state.paused
      && r.state.log == s.log + [Paused(caller)]
      && r.state.(paused := s.paused, log := s.log) == s
  {
    if caller != s.owner then Step(s, Unauthorized(caller))
    else if s.paused then Step(s, EnforcedPause)
    else Step(s.(paused := true, log := s.log + [Paused(caller)]), Ok)
  }

  /** unpause(): owner only; refused with ExpectedPause when not paused. */
  function UnpauseStep(s: State, caller: Addr): (r: Step)
    ensures r.result == Ok <==> caller == s.owner && s.paused
    ensures caller != s.owner ==> r.result == Unauthorized(caller)
    ensures caller == s.owner && !s.paused ==> r.result == ExpectedPause
    ensures r.result != Ok ==> r.state == s
    ensures r.result == Ok ==>
      && !r.state.paused
      && r.state.log == s.log + [Unpaused(caller)]
      && r.state.(paused := s.paused, log := s.log) == s
  {
    if caller != s.owner then Step(s, Unauthorized(caller))
    else if !s.paused then Step(s, ExpectedPause)
    else Step(s.(paused := false, log := s.log + [Unpaused(caller)]), Ok)
  }

  /** grantAuthorization(account): owner only, allowed while paused, and
      succeeds for an account that is already authorized. */
  function GrantStep(s: State, caller: Addr, account: Addr): (r: Step)
    ensures r.result == Ok <==> caller == s.owner
    ensures caller != s.owner ==> r.result == Unauthorized(caller) && r.state == s
    ensures r.result == Ok ==>
      && IsAuthorized(r.state, account)
      && (forall a :: a != account ==> (IsAuthorized(r.state, a) <==> IsAuthorized(s, a)))
      && r.state.log == s.log + [AuthorizationGranted(s.self, account)]
      && r.state.(authorized := s.authorized, log := s.log) == s
  {
    if caller != s.owner then Step(s, Unauthorized(caller))
    else Step(s.(authorized := s.authorized + {account},
                 log := s.log + [AuthorizationGranted(s.self, account)]), Ok)
  }

  /** revokeAuthorization(account): owner only; succeeds for an account that is not authorized. */
  function RevokeStep(s: State, caller: Addr, account: Addr): (r: Step)
    ensures r.result == Ok <==> caller == s.owner
    ensures caller != s.owner ==> r.result == Unauthorized(caller) && r.state == s
    ensures r.result == Ok ==>
      && !IsAuthorized(r.state, account)
      && (forall a :: a != account ==> (IsAuthorized(r.state, a) <==> IsAuthorized(s, a)))
      && r.state.log == s.log + [AuthorizationRevoked(s.self, account)]
      && r.state.(authorized := s.authorized, log := s.log) == s
  {
    if caller != s.owner then Step(s, Unauthorized(caller))
    else Step(s.(authorized := s.authorized - {account},
                 log := s.log + [AuthorizationRevoked(s.self, account)]), Ok)
  }

  /** transferOwnership(newOwner): owner only, allowed while paused; the zero
      address is refused. The authorized set is kept as it is. */
  function TransferOwnershipStep(s: State, caller: Addr, newOwner: Addr): (r: Step)
    ensures r.result == Ok <==> caller == s.owner && newOwner != ZERO
    ensures caller != s.owner ==> r.result == Unauthorized(caller)
    ensures caller == s.owner && newOwner == ZERO ==> r.result == InvalidOwner(ZERO)
    ensures r.result != Ok ==> r.state == s
    ensures r.result == Ok ==>
      && r.state.owner == newOwner
      && r.state.authorized == s.authorized
      && r.state.log == s.log + [OwnershipTransferred(s.owner, newOwner)]
      && r.state.(owner := s.owner, log := s.log) == s
  {
    if caller != s.owner then Step(s, Unauthorized(caller))
    else if newOwner == ZERO then Step(s, InvalidOwner(ZERO))
    else Step(s.(owner := newOwner, log := s.log + [OwnershipTransferred(s.owner, newOwner)]), Ok)
  }

  /** One transaction: `caller` makes `call`. */
  function Apply(s: State, caller: Addr, call: Call): (r: Step)
    requires Inv(s)
  {
    match call
    case Mint(to, amount) => MintStep(s, caller, to, amount)
    case Burn(amount) => BurnStep(s, caller, amount)
    case Transfer(to, amount) => TransferStep(s, caller, to, amount)
    case TransferFrom(from, to, amount) => TransferFromStep(s, caller, from, to, amount)
    case Approve(spender, amount) => ApproveStep(s, caller, spender, amount)
    case Permit(owner, spender, value, deadline, now, sig) => PermitStep(s, owner, spender, value, deadline, now, sig)
    case Pause => PauseStep(s, caller)
    case Unpause => UnpauseStep(s, caller)
    case GrantAuthorization(account) => GrantStep(s, caller, account)
    case RevokeAuthorization(account) => RevokeStep(s, caller, account)
    case TransferOwnership(newOwner) => TransferOwnershipStep(s, caller, newOwner)
  }
}
