/** What the entry points promise together: the supply invariant, all-or-nothing
    reverts, the pause gate and its two privilege tiers, owner-only
    administration, authorization bookkeeping and permit nonces. */
module Properties {
  import opened Types
  import opened Ledger

  /** Every call keeps the total supply equal to the sum of all balances. */
  lemma ApplyPreservesSupply(s: State, caller: Addr, call: Call)
    requires Inv(s)
    ensures Inv(Apply(s, caller, call).state)
  {
    var r := Apply(s, caller, call);
    if r.result == Ok {
      match call
      case Mint(to, amount) =>
        TotalUpdate(s.balances, to, Get(s.balances, to) + amount);
      case Burn(amount) =>
        TotalUpdate(s.balances, caller, Get(s.balances, caller) - amount);
      case Transfer(to, amount) =>
        MovePreservesTotal(s.balances, caller, to, amount);
      case TransferFrom(from, to, amount) =>
        MovePreservesTotal(s.balances, from, to, amount);
      case _ =>
    }
  }

  /** Moving tokens between two accounts leaves the sum of balances as it was. */
  lemma MovePreservesTotal(m: map<Addr, nat>, from: Addr, to: Addr, amount: nat)
    requires amount <= Get(m, from)
    ensures Total(Move(m, from, to, amount)) == Total(m)
  {
    var d := Debit(m, from, amount);
    TotalUpdate(m, from, Get(m, from) - amount);
    TotalUpdate(d, to, Get(d, to) + amount);
  }

  /** A call that reverts leaves the whole state, the log included, unchanged. */
  lemma RevertChangesNothing(s: State, caller: Addr, call: Call)
    requires Inv(s)
    ensures Apply(s, caller, call).result != Ok ==> Apply(s, caller, call).state == s
  {
  }

  /** While paused, an account that is neither the owner nor authorized cannot
      transfer, transferFrom or burn, whatever its balance or allowance. */
  lemma PauseGateBlocks(s: State, caller: Addr, call: Call)
    requires Inv(s) && s.paused && !IsPrivileged(s, caller) && call.Gated()
    ensures Apply(s, caller, call) == Step(s, EnforcedPause)
  {
  }

  /** EnforcedPause is reported exactly by a gated call of an unprivileged
      caller while paused, and by the owner pausing an already paused token. */
  lemma EnforcedPauseExactly(s: State, caller: Addr, call: Call)
    requires Inv(s)
    ensures Apply(s, caller, call).result == EnforcedPause <==>
      || (call.Gated() && s.paused && !IsPrivileged(s, caller))
      || (call.Pause? && caller == s.owner && s.paused)
  {
  }

  /** Unauthorized is reported exactly for an owner-only call made by anyone
      but the current owner, authorized accounts included, and it names the caller. */
  lemma UnauthorizedExactly(s: State, caller: Addr, call: Call)
    requires Inv(s)
    ensures Apply(s, caller, call).result.Unauthorized? <==> call.OwnerOnly() && caller != s.owner
    ensures call.OwnerOnly() && caller != s.owner ==> Apply(s, caller, call) == Step(s, Unauthorized(caller))
  {
  }

  /** The pause switch is invisible to every call except pause and unpause
      themselves, when the call is not gated or the caller is privileged:
      the outcome is the same and so is the new state, up to the flag. This is
      the privileged bypass of transfer, transferFrom and burn, and says that
      mint, approve, permit, grantAuthorization, revokeAuthorization and
      transferOwnership ignore the pause. */
  lemma PauseIrrelevant(s: State, caller: Addr, call: Call)
    requires Inv(s)
    requires !call.Pause? && !call.Unpause?
    requires !call.Gated() || IsPrivileged(s, caller)
    ensures var p := Apply(s.(paused := true), caller, call);
            var u := Apply(s.(paused := false), caller, call);
            p.result == u.result && p.state == u.state.(paused := true)
  {
    var sp, su := s.(paused := true), s.(paused := false);
    assert Inv(sp) && Inv(su);
    match call
    case Burn(amount) =>
      BurnIgnoresPause(s, caller, amount);
    case Transfer(to, amount) =>
      TransferIgnoresPause(s, caller, to, amount);
    case TransferFrom(from, to, amount) =>
      TransferFromIgnoresPause(s, caller, from, to, amount);
    case _ =>
  }

  /** A privileged caller burns alike whether or not the token is paused. */
  lemma BurnIgnoresPause(s: State, caller: Addr, amount: nat)
    requires Inv(s) && IsPrivileged(s, caller)
    ensures var p := BurnStep(s.(paused := true), caller, amount);
            var u := BurnStep(s.(paused := false), caller, amount);
            p.result == u.result && p.state == u.state.(paused := true)
  {
  }

  /** A privileged caller transfers alike whether or not the token is paused. */
  lemma TransferIgnoresPause(s: State, caller: Addr, to: Addr, amount: nat)
    requires IsPrivileged(s, caller)
    ensures var p := TransferStep(s.(paused := true), caller, to, amount);
            var u := TransferStep(s.(paused := false), caller, to, amount);
            p.result == u.result && p.state == u.state.(paused := true)
  {
  }

  /** A privileged spender uses an allowance alike whether or not the token is paused. */
  lemma TransferFromIgnoresPause(s: State, caller: Addr, from: Addr, to: Addr, amount: nat)
    requires IsPrivileged(s, caller)
    ensures var p := TransferFromStep(s.(paused := true), caller, from, to, amount);
            var u := TransferFromStep(s.(paused := false), caller, from, to, amount);
            p.result == u.result && p.state == u.state.(paused := true)
  {
  }

  /** Only mint and burn change the total supply. */
  lemma SupplyOnlyByMintAndBurn(s: State, caller: Addr, call: Call)
    requires Inv(s)
    requires !call.Mint? && !call.Burn?
    ensures Apply(s, caller, call).state.totalSupply == s.totalSupply
  {
  }

  /** Only the owner changes the owner, the authorized set or the pause flag. */
  lemma AdministrationIsOwnerOnly(s: State, caller: Addr, call: Call)
    requires Inv(s) && caller != s.owner
    ensures var t := Apply(s, caller, call).state;
            t.owner == s.owner && t.authorized == s.authorized && t.paused == s.paused
  {
  }

  /** Once the owner has handed ownership to another address, every owner-only
      call of the former owner fails, even when it is authorized. */
  lemma FormerOwnerLosesAdministration(s: State, newOwner: Addr, call: Call)
    requires Inv(s) && newOwner != ZERO && newOwner != s.owner && call.OwnerOnly()
    ensures var t := TransferOwnershipStep(s, s.owner, newOwner);
            t.result == Ok && Inv(t.state) &&
            Apply(t.state, s.owner, call) == Step(t.state, Unauthorized(s.owner))
  {
    ApplyPreservesSupply(s, s.owner, Call.TransferOwnership(newOwner));
  }

  /** Once the owner has handed ownership away, an authorized account keeps
      its pause bypass: a new owner inherits the grants. */
  lemma AuthorizationSurvivesOwnershipTransfer(s: State, newOwner: Addr, a: Addr)
    requires newOwner != ZERO && IsAuthorized(s, a)
    ensures var t := TransferOwnershipStep(s, s.owner, newOwner).state;
            IsAuthorized(t, a) && PassesPauseGate(t, a)
  {
  }

  /** pause followed by unpause by the owner restores the state, the two events aside. */
  lemma PauseUnpauseRoundTrip(s: State)
    requires !s.paused
    ensures var p := PauseStep(s, s.owner);
            var u := UnpauseStep(p.state, s.owner);
            p.result == Ok && p.state.paused && u.result == Ok &&
            u.state == s.(log := s.log + [Paused(s.owner), Unpaused(s.owner)])
  {
  }

  /** Granting an account that is already authorized succeeds and changes
      nothing but the log. */
  lemma GrantIdempotent(s: State, a: Addr)
    requires IsAuthorized(s, a)
    ensures var g := GrantStep(s, s.owner, a);
            g.result == Ok && g.state.authorized == s.authorized
  {
  }

  /** Revoking an account that is not authorized succeeds and changes
      nothing but the log. */
  lemma RevokeIdempotent(s: State, a: Addr)
    requires !IsAuthorized(s, a)
    ensures var v := RevokeStep(s, s.owner, a);
            v.result == Ok && v.state.authorized == s.authorized
  {
  }

  /** A revoke after a grant removes the account; the others keep their status. */
  lemma GrantThenRevoke(s: State, a: Addr)
    ensures var g := GrantStep(s, s.owner, a).state;
            var v := RevokeStep(g, s.owner, a).state;
            IsAuthorized(g, a) && !IsAuthorized(v, a) && v.authorized == s.authorized - {a}
  {
  }

  /** Nonces never decrease, and only a successful permit moves one, by exactly one. */
  lemma NoncesOnlyCountUp(s: State, caller: Addr, call: Call, a: Addr)
    requires Inv(s)
    ensures var r := Apply(s, caller, call);
            && NonceOf(r.state, a) >= NonceOf(s, a)
            && (NonceOf(r.state, a) != NonceOf(s, a) ==>
                  call.Permit? && call.owner == a && r.result == Ok && NonceOf(r.state, a) == NonceOf(s, a) + 1)
  {
  }

  /** An allowance never rises except through approve or permit: every other
      call keeps it or, for transferFrom, lowers it. */
  lemma AllowanceOnlyRaisedByApproval(s: State, caller: Addr, call: Call, o: Addr, sp: Addr)
    requires Inv(s) && !call.Approve? && !call.Permit?
    ensures AllowanceOf(Apply(s, caller, call).state, o, sp) <= AllowanceOf(s, o, sp)
  {
  }

  /** The state after the transactions `txs`, each a caller and its call, run in order. */
  function Run(s: State, txs: seq<(Addr, Call)>): (t: State)
    requires Inv(s)
    ensures Inv(t)
    decreases |txs|
  {
    if txs == [] then s
    else
      ApplyPreservesSupply(s, txs[0].0, txs[0].1);
      Run(Apply(s, txs[0].0, txs[0].1).state, txs[1..])
  }

  /** No sequence of transactions lowers a nonce. */
  lemma {:induction false} NoncesNeverFallAlongRun(s: State, txs: seq<(Addr, Call)>, a: Addr)
    requires Inv(s)
    ensures NonceOf(Run(s, txs), a) >= NonceOf(s, a)
    decreases |txs|
  {
    if txs != [] {
      NoncesOnlyCountUp(s, txs[0].0, txs[0].1, a);
      ApplyPreservesSupply(s, txs[0].0, txs[0].1);
      NoncesNeverFallAlongRun(Apply(s, txs[0].0, txs[0].1).state, txs[1..], a);
    }
  }

  /** A signed permit works once: after it went through, submitting it again
      fails whatever transactions came in between and whenever it is submitted. */
  lemma PermitNotReplayable(s: State, owner: Addr, spender: Addr, value: nat, deadline: nat, now: nat,
                            txs: seq<(Addr, Call)>, now': nat, sig: Signature)
    requires Inv(s)
    requires PermitStep(s, owner, spender, value, deadline, now, sig).result == Ok
    ensures var t := PermitStep(s, owner, spender, value, deadline, now, sig).state;
            Inv(t) && PermitStep(Run(t, txs), owner, spender, value, deadline, now', sig).result != Ok
  {
    var t := PermitStep(s, owner, spender, value, deadline, now, sig).state;
    ApplyPreservesSupply(s, owner, Call.Permit(owner, spender, value, deadline, now, sig));
    NoncesNeverFallAlongRun(t, txs, owner);
  }
}
