/** One process's bank: the vector of account objects, searched by name on every call. */
module Bank {
  import opened Wrappers
  import opened Account
  import L = Ledger

  class Bank {
    const store: Store
    const accounts: seq<Account>
    ghost const index: map<string, nat>  // where in the vector each name is

    ghost predicate Valid() {
      && (forall i | 0 <= i < |accounts| :: accounts[i].store == store)
      && (forall i | 0 <= i < |accounts| :: accounts[i].name in index && index[accounts[i].name] == i)
      && (forall n | n in index :: index[n] < |accounts| && accounts[index[n]].name == n)
    }

    /** Builds the vector from the account names of the directory, none of which repeats. */
    constructor (names: seq<string>, store: Store)
      requires forall i, j | 0 <= i < j < |names| :: names[i] != names[j]
      ensures Valid() && this.store == store && fresh(accounts)
      ensures View() == L.World(store.Files(), store.locks, map n | n in names :: L.Cache(-1, -1))
    {
      var acts: seq<Account> := [];
      ghost var at: map<string, nat> := map[];
      for i := 0 to |names|
        invariant |acts| == i && fresh(acts)
        invariant forall j | 0 <= j < i ::
                    acts[j].store == store && acts[j].name == names[j] && acts[j].Cached() == L.Cache(-1, -1)
        invariant forall j | 0 <= j < i :: names[j] in at && at[names[j]] == j
        invariant forall n | n in at :: at[n] < i && names[at[n]] == n
      {
        var act := new Account(names[i], store);
        at := at[names[i] := i];
        acts := acts + [act];
      }
      this.store, accounts, index := store, acts, at;
    }

    /** The bank as the value model sees it. */
    ghost function View(): L.World
      requires Valid()
      reads store, accounts
    {
      L.World(store.Files(), store.locks, map n | n in index :: accounts[index[n]].Cached())
    }

    lemma SlotAt(i: nat)
      requires Valid() && i < |accounts|
      ensures accounts[i].name in View().caches
      ensures L.SlotOf(View(), accounts[i].name) == accounts[i].View()
    {
    }

    /** A call on one account object is, on the bank, an update of that account alone. */
    twostate lemma OneMoved(i: nat)
      requires Valid() && i < |accounts|
      requires forall j | 0 <= j < |accounts| :: allocated(accounts[j]) && old(allocated(accounts[j]))
      requires forall j | 0 <= j < |accounts| && j != i :: unchanged(accounts[j])
      requires accounts[i].OnlyMine(old(store.files), old(store.locks))
      ensures View() == L.Put(old(View()), accounts[i].name, accounts[i].View())
    {
      SlotAt(i);
      var n := accounts[i].name;
      var expected := L.Put(old(View()), n, accounts[i].View());
      ImageUpdate(ParseFile, old(store.files), n, if n in store.files then store.files[n] else "");
      assert View().files == expected.files && View().locks == expected.locks;
      assert View().caches == expected.caches;
    }

    // The account calls, each on the account at one index, seen as updates of the whole bank.

    method LoadAt(i: nat) returns (r: bool)
      requires Valid() && i < |accounts|
      modifies store, accounts[i]
      ensures var n := accounts[i].name; var (sl, out) := L.Load(L.SlotOf(old(View()), n));
        View() == L.Put(old(View()), n, sl) && r == out
    {
      SlotAt(i);
      r := accounts[i].LoadAccount();
      OneMoved(i);
    }

    method SaveAt(i: nat) returns (r: bool)
      requires Valid() && i < |accounts|
      modifies store, accounts[i]
      ensures var n := accounts[i].name; var (sl, out) := L.Save(L.SlotOf(old(View()), n));
        View() == L.Put(old(View()), n, sl) && r == out
    {
      SlotAt(i);
      r := accounts[i].SaveAccount();
      OneMoved(i);
    }

    method DepositAt(i: nat, amount: int) returns (r: Outcome<bool>)
      requires Valid() && i < |accounts|
      modifies store, accounts[i]
      ensures var n := accounts[i].name; var (sl, out) := L.Deposit(L.SlotOf(old(View()), n), amount);
        View() == L.Put(old(View()), n, sl) && r == out
    {
      SlotAt(i);
      r := accounts[i].Deposit(amount);
      OneMoved(i);
    }

    method WithdrawAt(i: nat, an: string, p: int, amount: int) returns (r: Outcome<bool>)
      requires Valid() && i < |accounts|
      modifies store, accounts[i]
      ensures var n := accounts[i].name; var (sl, out) := L.Withdraw(n, L.SlotOf(old(View()), n), an, p, amount);
        View() == L.Put(old(View()), n, sl) && r == out
    {
      SlotAt(i);
      r := accounts[i].Withdraw(an, p, amount);
      OneMoved(i);
    }

    method BalanceAt(i: nat, an: string, p: int) returns (r: Outcome<int>)
      requires Valid() && i < |accounts|
      modifies store, accounts[i]
      ensures var n := accounts[i].name; var (sl, out) := L.GetBalance(n, L.SlotOf(old(View()), n), an, p);
        View() == L.Put(old(View()), n, sl) && r == out
    {
      SlotAt(i);
      r := accounts[i].GetBalance(an, p);
      OneMoved(i);
    }

    method IsAnAccount(an: string) returns (r: bool)
      requires Valid()
      ensures r == (an in View().caches)
    {
      for i := 0 to |accounts|
        invariant forall j | 0 <= j < i :: accounts[j].name != an
      {
        if accounts[i].name == an {
          SlotAt(i);
          return true;
        }
      }
      return false;
    }

    method LookupAccount(an: string, p: int) returns (r: bool)
      requires Valid()
      ensures r == L.Lookup(View(), an, p)
    {
      for i := 0 to |accounts|
        invariant an in index && index[an] < i ==> !L.Lookup(View(), an, p)
      {
        SlotAt(i);
        if accounts[i].name == an {
          var creds := accounts[i].CheckCreds(an, p);
          if creds {
            return true;
          }
        }
      }
      return false;
    }

    method Deposit(an: string, p: int, amount: int) returns (r: Outcome<bool>)
      requires Valid()
      modifies store, accounts
      ensures (View(), r) == L.BankDeposit(old(View()), an, p, amount)
    {
      var found := LookupAccount(an, p);
      if !found {
        return Returned(false);
      }
      for i := 0 to |accounts|
        invariant View() == old(View())
        invariant an in index && i <= index[an]
      {
        SlotAt(i);
        if accounts[i].name == an {
          r := DepositAt(i, amount);
          return;
        }
      }
      assert false;
    }

    method BalanceInq(an: string, p: int) returns (r: Outcome<int>)
      requires Valid()
      modifies store, accounts
      ensures (View(), r) == L.BalanceInq(old(View()), an, p)
    {
      var found := LookupAccount(an, p);
      if !found {
        return Returned(-1);
      }
      for i := 0 to |accounts|
        invariant View() == old(View())
        invariant an in index && i <= index[an]
      {
        SlotAt(i);
        if accounts[i].name == an {
          r := BalanceAt(i, an, p);
          return;
        }
      }
      assert false;
    }

    method Withdraw(an: string, p: int, amount: int) returns (r: Outcome<bool>)
      requires Valid()
      modifies store, accounts
      ensures (View(), r) == L.BankWithdraw(old(View()), an, p, amount)
    {
      var found := LookupAccount(an, p);
      if !found {
        return Returned(false);
      }
      for i := 0 to |accounts|
        invariant View() == old(View())
        invariant an in index && i <= index[an]
      {
        SlotAt(i);
        if accounts[i].name == an {
          r := WithdrawAt(i, an, p, amount);
          return;
        }
      }
      assert false;
    }

    method CheckAt(i: nat, an: string, p: int) returns (r: bool)
      requires Valid() && i < |accounts|
      ensures r == L.CheckCreds(accounts[i].name, L.SlotOf(View(), accounts[i].name), an, p)
    {
      SlotAt(i);
      r := accounts[i].CheckCreds(an, p);
    }

    /** The money back to the account `an`. */
    method Refund(an: string, amount: int) returns (end: L.Settlement)
      requires Valid() && an in View().caches
      modifies store, accounts
      ensures (View(), end) == L.Refund(old(View()), an, amount)
    {
      var depositSuccess := false;
      for i := 0 to |accounts|
        invariant i <= index[an] ==> View() == old(View())
        invariant i > index[an] ==> (View(), Returned(depositSuccess)) == RefundOutcome(old(View()), an, amount)
      {
        if accounts[i].name == an {
          var r := DepositAt(i, amount);
          if r.Exited? {
            return L.Died;
          }
          depositSuccess := r.value;
        }
      }
      return if depositSuccess then L.Refunded else L.Owed;
    }

    ghost function RefundOutcome(w: L.World, an: string, amount: int): (L.World, Outcome<bool>)
      requires an in w.caches
    {
      var (sl, r) := L.Deposit(L.SlotOf(w, an), amount);
      (L.Put(w, an, sl), r)
    }

    /** The credit of the loaded recipient at index `i`. */
    method PayAt(i: nat, an: string, amount: int) returns (end: L.Settlement)
      requires Valid() && i < |accounts| && an in View().caches && accounts[i].name != an
      modifies store, accounts
      ensures (View(), end) == L.Pay(old(View()), an, accounts[i].name, amount)
    {
      var deposited := DepositAt(i, amount);
      ghost var t := accounts[i].name;
      ghost var paid := L.Deposit(L.SlotOf(old(View()), t), amount).0;
      L.PutThenSlot(old(View()), t, paid, t);
      if deposited.Exited? {
        return L.Died;
      }
      if !deposited.value {
        var _ := SaveAt(i);
        end := Refund(an, amount);
        return;
      }
      var saved := SaveAt(i);
      return if saved then L.Credited else L.Unsaved;
    }

    /** The recipient at index `i` is to be credited with what `an` has been debited. */
    method SettleAt(i: nat, an: string, amount: int) returns (end: L.Settlement)
      requires Valid() && i < |accounts| && an in View().caches && accounts[i].name != an
      modifies store, accounts
      ensures (View(), end) == L.Settle(old(View()), an, accounts[i].name, amount)
    {
      if accounts[i].name in store.locks {
        return L.Dropped;
      }
      var loaded := LoadAt(i);
      ghost var t := accounts[i].name;
      L.PutThenSlot(old(View()), t, L.Load(L.SlotOf(old(View()), t)).0, t);
      if !loaded {
        var _ := SaveAt(i);
        end := Refund(an, amount);
      } else {
        end := PayAt(i, an, amount);
      }
    }

    /** lock_act on an unlocked account: load it, and let it go again unless the credentials match. */
    method LockAt(i: nat, an: string, p: int) returns (r: bool)
      requires Valid() && i < |accounts| && accounts[i].name == an && an !in store.locks
      modifies store, accounts[i]
      ensures (View(), r) == L.LockAct(old(View()), an, p)
    {
      ghost var w := View();
      var check := LoadAt(i);
      L.PutThenSlot(w, an, L.Load(L.SlotOf(w, an)).0, an);
      var creds := CheckAt(i, an, p);
      if !creds {
        var _ := SaveAt(i);
        return false;
      }
      return check;
    }

    method LockAct(an: string, p: int) returns (r: bool)
      requires Valid()
      modifies store, accounts
      ensures (View(), r) == L.LockAct(old(View()), an, p)
    {
      for i := 0 to |accounts|
        invariant View() == old(View())
        invariant an in index ==> i <= index[an]
      {
        if accounts[i].name == an {
          if an in store.locks {
            return false;
          }
          r := LockAt(i, an, p);
          return;
        }
      }
      return false;
    }

    /** The first loop of a transfer. */
    method Debit(an: string, p: int, amount: int) returns (r: Outcome<bool>)
      requires Valid() && L.Lookup(View(), an, p)
      modifies store, accounts
      ensures (View(), r) == L.BankWithdraw(old(View()), an, p, amount)
    {
      var withdrawSuccess := false;
      for i := 0 to |accounts|
        invariant i <= index[an] ==> View() == old(View())
        invariant i > index[an] ==> (View(), Returned(withdrawSuccess)) == L.BankWithdraw(old(View()), an, p, amount)
      {
        if accounts[i].name == an {
          var done := WithdrawAt(i, an, p, amount);
          if done.Exited? {
            return Exited;
          }
          withdrawSuccess := done.value;
        }
      }
      return Returned(withdrawSuccess);
    }

    /** The second loop of a transfer. */
    method Credit(an: string, t: string, amount: int) returns (r: Outcome<bool>)
      requires Valid() && an in View().caches && t in View().caches && an != t
      modifies store, accounts
      ensures var (w, end) := L.Settle(old(View()), an, t, amount);
        View() == w && r == if end.Died? then Exited else Returned(end.Credited?)
    {
      for i := 0 to |accounts|
        invariant i <= index[t] ==> View() == old(View())
        invariant i > index[t] ==> (View(), L.Credited) == L.Settle(old(View()), an, t, amount)
      {
        if accounts[i].name == t {
          var end := SettleAt(i, an, amount);
          if end.Died? {
            return Exited;
          }
          if !end.Credited? {
            return Returned(false);
          }
        }
      }
      return Returned(true);
    }

    method Transfer(an: string, p: int, t: string, amount: int) returns (r: Outcome<bool>)
      requires Valid()
      modifies store, accounts
      ensures (View(), r) == L.Transfer(old(View()), an, p, t, amount)
    {
      if an == t {
        return Returned(false);
      }
      var sender := LookupAccount(an, p);
      if !sender {
        return Returned(false);
      }
      var recipient := IsAnAccount(t);
      if !recipient {
        return Returned(false);
      }
      var withdrawSuccess :- Debit(an, p, amount);
      if !withdrawSuccess {
        return Returned(false);
      }
      r := Credit(an, t, amount);
    }

    method UnlockAct(an: string, p: int) returns (r: bool)
      requires Valid()
      modifies store, accounts
      ensures (View(), r) == L.UnlockAct(old(View()), an, p)
    {
      for i := 0 to |accounts|
        invariant View() == old(View())
        invariant an in index ==> i <= index[an]
      {
        SlotAt(i);
        if accounts[i].name == an {
          if an !in store.locks {
            return false;
          }
          var creds := accounts[i].CheckCreds(an, p);
          if !creds {
            return false;
          }
          var _ := SaveAt(i);
          return true;
        }
      }
      return false;
    }
  }
}
