/** The signed-in user's credit account: a guarded debit with a boolean answer, and sign-out. */
module AuthSystem {
  import opened Wrappers

  datatype Plan = Free | Premium | Enterprise

  datatype User = User(id: string, name: string, email: string, plan: Plan, credits: int, maxCredits: int)

  const InitialUser := User("1", "Dr. Quantum Researcher", "researcher@quantum.lab", Free, 10, 50)

  /** `useCredits(amount)`: the user afterwards and the answer. */
  function Debit(user: Option<User>, amount: int): (Option<User>, bool)
  {
    if user.None? || user.value.credits < amount then (user, false)
    else (Some(user.value.(credits := user.value.credits - amount)), true)
  }

  /** A debit is refused exactly when nobody is signed in or the balance is below the amount; a refusal changes nothing. */
  lemma DebitRefusal(user: Option<User>, amount: int)
    ensures !Debit(user, amount).1 <==> user.None? || user.value.credits < amount
    ensures !Debit(user, amount).1 ==> Debit(user, amount).0 == user
  {
  }

  /** An accepted debit lowers the balance by exactly the amount and touches no other field. */
  lemma DebitAccepted(user: Option<User>, amount: int)
    requires Debit(user, amount).1
    ensures var u := Debit(user, amount).0;
      && user.Some? && u.Some?
      && u.value.credits == user.value.credits - amount
      && u.value.(credits := user.value.credits) == user.value
  {
  }

  /** A sequence of `useCredits` calls, answered in order. */
  function DebitAll(user: Option<User>, amounts: seq<int>): (Option<User>, seq<bool>)
    decreases |amounts|
  {
    if amounts == [] then (user, [])
    else
      var (u, ok) := Debit(user, amounts[0]);
      var (u', oks) := DebitAll(u, amounts[1..]);
      (u', [ok] + oks)
  }

  /** The sum of the amounts whose call was answered true. */
  function AcceptedTotal(amounts: seq<int>, oks: seq<bool>): int
    requires |oks| == |amounts|
  {
    if amounts == [] then 0
    else (if oks[0] then amounts[0] else 0) + AcceptedTotal(amounts[1..], oks[1..])
  }

  /**
   * Over any run of calls the balance drops by exactly the accepted
   * amounts, the other fields stay as they were, nobody is signed out, and
   * a balance that starts non-negative never goes below zero.
   */
  lemma {:induction false} DebitAllBalance(u: User, amounts: seq<int>)
    ensures var (r, oks) := DebitAll(Some(u), amounts);
      && |oks| == |amounts|
      && r.Some?
      && r.value.credits == u.credits - AcceptedTotal(amounts, oks)
      && r.value.(credits := u.credits) == u
      && (u.credits >= 0 ==> r.value.credits >= 0)
    decreases |amounts|
  {
    if amounts != [] {
      var (v, ok) := Debit(Some(u), amounts[0]);
      assert v.Some?;
      DebitAllBalance(v.value, amounts[1..]);
      var (r, oks) := DebitAll(v, amounts[1..]);
      assert DebitAll(Some(u), amounts) == (r, [ok] + oks);
      assert ([ok] + oks)[1..] == oks;
    }
  }

  /** After sign-out every call is refused and nobody is signed in again. */
  lemma {:induction false} SignedOutRefusesAll(amounts: seq<int>)
    ensures var (r, oks) := DebitAll(None, amounts);
      r == None && |oks| == |amounts| && forall i :: 0 <= i < |oks| ==> !oks[i]
    decreases |amounts|
  {
    if amounts != [] {
      SignedOutRefusesAll(amounts[1..]);
      var (r, oks) := DebitAll(None, amounts[1..]);
      assert DebitAll(None, amounts) == (r, [false] + oks);
    }
  }

  /**
   * Nothing bounds the balance from above: debiting -41 from the initial
   * user is accepted and leaves 51 credits, more than the maximum of 50.
   */
  lemma NegativeDebitExceedsMaximum()
    ensures Debit(Some(InitialUser), -41) == (Some(InitialUser.(credits := 51)), true)
    ensures InitialUser.(credits := 51).credits > InitialUser.maxCredits
  {
  }

  /** The provider's state: the signed-in user, if any. */
  class AuthProvider {
    var user: Option<User>

    constructor ()
      ensures user == Some(InitialUser)
    {
      user := Some(InitialUser);
    }

    /** `login` only writes to the console; the account is untouched. */
    method Login(email: string, password: string)
    {
    }

    method Logout()
      modifies this
      ensures user == None
    {
      user := None;
    }

    method UseCredits(amount: int) returns (ok: bool)
      modifies this
      ensures (user, ok) == Debit(old(user), amount)
    {
      if user.None? || user.value.credits < amount {
        return false;
      }
      user := Some(user.value.(credits := user.value.credits - amount));
      ok := true;
    }
  }
}
