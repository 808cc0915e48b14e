/** What the calls of one bank amount to, over every store and every set of distinct account names. */
module LedgerLaws {
  import opened Wrappers
  import opened Ledger
  import opened Sums

  function Balances(files: map<string, File>): map<string, int> {
    map n | n in files :: files[n].balance
  }

  /** The money in the account files. */
  ghost function Money(files: map<string, File>): int {
    Sum(Balances(files))
  }

  lemma MoneyUpdate(files: map<string, File>, n: string, f: File)
    ensures Money(files[n := f]) == Money(files) + f.balance - if n in files then files[n].balance else 0
  {
    assert Balances(files[n := f]) == Balances(files)[n := f.balance];
    SumUpdate(Balances(files), n, f.balance);
  }

  // ---------- One account ----------

  /** An account that is not locked refuses everything but to be loaded, and that needs a file. */
  lemma UnlockedAccount(own: string, sl: Slot, an: string, p: int, amount: int)
    requires !sl.locked
    ensures GetBalance(own, sl, an, p) == (sl, Returned(-1))
    ensures Withdraw(own, sl, an, p, amount) == (sl, Returned(false))
    ensures Deposit(sl, amount) == (sl, Returned(false)) && Save(sl) == (sl, false)
    ensures Load(sl) == if sl.file == None then (sl, false)
                        else (Slot(sl.file, true, Cache(sl.file.value.pin, sl.file.value.balance)), true)
  {
  }

  /**
   A locked account cannot be loaded; saving takes the lock away and leaves the file. A wrong name or PIN withdraws
   nothing and is told a balance of 0; a deposit asks for neither.
   */
  lemma LockedAccount(own: string, sl: Slot, an: string, p: int, amount: int)
    requires sl.locked
    ensures Load(sl) == (sl, false) && Save(sl) == (Slot(sl.file, false, Cache(-1, -1)), true)
    ensures own != an || sl.cache.pin != p ==>
              && GetBalance(own, sl, an, p) == (sl, Returned(0))
              && Withdraw(own, sl, an, p, amount) == (sl, Returned(false))
    ensures own == an && sl.cache.pin == p && amount > sl.cache.balance ==>
              Withdraw(own, sl, an, p, amount) == (sl, Returned(false))
    ensures sl.file == None ==> Deposit(sl, amount) == (sl, Exited)
    ensures sl.file != None ==>
              var seen, pin := sl.file.value.balance, sl.cache.pin;
              && Deposit(sl, amount)
                 == (Slot(Some(File(pin, seen + amount)), true, Cache(pin, seen + amount)), Returned(true))
              && (own == an && pin == p ==>
                    GetBalance(own, sl, an, p) == (Slot(sl.file, true, Cache(pin, seen)), Returned(seen)))
              && (own == an && pin == p && amount <= sl.cache.balance ==>
                    Withdraw(own, sl, an, p, amount)
                    == (Slot(Some(File(pin, seen - amount)), true, Cache(pin, seen - amount)), Returned(true)))
  {
  }

  // ---------- One bank ----------

  /** A transfer that gets as far as debiting the sender. */
  predicate Debited(w: World, an: string, p: int, t: string, amount: int) {
    !TransferRefused(w, an, p, t) && amount <= w.caches[an].balance && an in w.files
  }

  /** The ending of the second half, by the recipient's lock and file alone: the other endings cannot occur. */
  lemma SettleOutcome(w: World, an: string, t: string, amount: int)
    requires an in w.caches && t in w.caches && an != t
    requires an in w.files && an in w.locks
    ensures var (w', end) := Settle(w, an, t, amount);
      var back := File(w.caches[an].pin, w.files[an].balance + amount);
      if t in w.locks then end == Dropped && w' == w
      else if t in w.files then
        && end == Credited
        && w' == World(w.files[t := File(w.files[t].pin, w.files[t].balance + amount)], w.locks, w.caches[t := RESET])
      else
        && end == Refunded
        && w' == World(w.files[an := back], w.locks, w.caches[an := Cache(back.pin, back.balance)])
  {
    if t !in w.locks {
      assert (w.locks + {t}) - {t} == w.locks;
      assert w.locks - {t} == w.locks && w.locks + {an} == w.locks;
      if t !in w.files {
        PutThenSlot(w, t, SlotOf(w, t), an);
      }
    }
  }

  /**
   A transfer answers true exactly when the sender may be debited and the recipient is free and has a
   file; then exactly the two balances have moved and the recipient is free again. It answers false
   with nothing changed if the debit is refused, with the sender's money put back if the recipient has
   no file, and with the sender's money gone if the recipient is locked.
   */
  lemma TransferOutcome(w: World, an: string, p: int, t: string, amount: int)
    ensures var (w', r) := Transfer(w, an, p, t, amount);
      && (r == Returned(true) <==> Debited(w, an, p, t, amount) && t !in w.locks && t in w.files)
      && (r == Exited <==> !TransferRefused(w, an, p, t) && amount <= w.caches[an].balance && an !in w.files)
      && (!Debited(w, an, p, t, amount) ==> w' == w)
      && (Debited(w, an, p, t, amount) ==>
            var same := File(p, w.files[an].balance);
            var left := File(p, w.files[an].balance - amount);
            var paid := w.files[an := left];
            var seen := w.caches[an := Cache(p, left.balance)];
            w' == if t in w.locks then World(paid, w.locks, seen)
                  else if t in w.files then
                    World(paid[t := File(w.files[t].pin, w.files[t].balance + amount)], w.locks, seen[t := RESET])
                  else World(w.files[an := same], w.locks, w.caches[an := Cache(p, same.balance)]))
  {
    if !TransferRefused(w, an, p, t) {
      PutThenSlot(w, an, SlotOf(w, an), an);
      if Debited(w, an, p, t, amount) {
        var w1 := BankWithdraw(w, an, p, amount).0;
        var left := File(p, w.files[an].balance - amount);
        assert w.locks + {an} == w.locks;
        assert w1 == World(w.files[an := left], w.locks, w.caches[an := Cache(p, left.balance)]);
        SettleOutcome(w1, an, t, amount);
      }
    }
  }

  /** A transfer keeps the total exactly when it is not a debit that then finds the recipient locked. */
  lemma TransferConserves(w: World, an: string, p: int, t: string, amount: int)
    ensures Money(Transfer(w, an, p, t, amount).0.files) == Money(w.files)
            <==> !(Debited(w, an, p, t, amount) && t in w.locks && amount != 0)
  {
    TransferOutcome(w, an, p, t, amount);
    if Debited(w, an, p, t, amount) {
      var left := File(p, w.files[an].balance - amount);
      MoneyUpdate(w.files, an, left);
      if t !in w.locks {
        if t in w.files {
          MoneyUpdate(w.files[an := left], t, File(w.files[t].pin, w.files[t].balance + amount));
        } else {
          MoneyUpdate(w.files, an, File(p, w.files[an].balance));
        }
      }
    }
  }

  /**
   A transfer that answers false has left every file as it was, except if the recipient was locked by the
   time the sender had been debited: there the source does not give the money back. (A cached PIN that is not
   the file's would be written too; no run gets there.)
   */
  lemma FailedTransferKeepsFiles(w: World, an: string, p: int, t: string, amount: int)
    requires Transfer(w, an, p, t, amount).1 == Returned(false)
    ensures Transfer(w, an, p, t, amount).0.files == w.files
            <==> (Debited(w, an, p, t, amount) ==> w.files[an].pin == p && (t in w.locks ==> amount == 0))
  {
    TransferOutcome(w, an, p, t, amount);
    if Debited(w, an, p, t, amount) {
      var left := File(p, w.files[an].balance - if t in w.locks then amount else 0);
      assert w.files[an := w.files[an]] == w.files;
      assert Transfer(w, an, p, t, amount).0.files == w.files[an := left];
      assert w.files[an := left][an] == left;
    }
  }

  /**
   A login gets the account exactly when it exists, is free, has a file and the PIN is the file's; only
   then is anything but the caller's cache of that account different, and then just that one lock.
   */
  lemma LockActOutcome(w: World, an: string, p: int)
    ensures LockAct(w, an, p) ==
      if an !in w.caches || an in w.locks || an !in w.files then (w, false)
      else if w.files[an].pin != p then (World(w.files, w.locks, w.caches[an := RESET]), false)
      else (World(w.files, w.locks + {an}, w.caches[an := Cache(p, w.files[an].balance)]), true)
  {
    if an in w.caches && an !in w.locks {
      var held := Load(SlotOf(w, an)).0;
      PutTwice(w, an, held, Save(held).0);
      PutThenSlot(w, an, SlotOf(w, an), an);
      assert w.locks - {an} == w.locks;
      assert an in w.files ==> w.files[an := w.files[an]] == w.files;
    }
  }

  /** The caller holds the account: the files' and caches' view of a successful lookup. */
  predicate Held(w: World, an: string, p: int) {
    an in w.caches && an in w.locks && w.caches[an].pin == p
  }

  /** The account's balance moved by `delta`, in its file and, from there, in the caller's cache. */
  function MovedBy(w: World, an: string, p: int, delta: int): World
    requires an in w.files
  {
    var g := File(p, w.files[an].balance + delta);
    World(w.files[an := g], w.locks, w.caches[an := Cache(g.pin, g.balance)])
  }

  /**
   A withdrawal goes through exactly when the caller holds the account and the cached balance covers it;
   then the balance in the file, not the cached one, is what it is taken from. Otherwise nothing changes.
   */
  lemma WithdrawOutcome(w: World, an: string, p: int, amount: int)
    ensures BankWithdraw(w, an, p, amount) ==
      if !Held(w, an, p) || amount > w.caches[an].balance then (w, Returned(false))
      else if an !in w.files then (w, Exited)
      else (MovedBy(w, an, p, 0 - amount), Returned(true))
  {
    HeldPut(w, an, p);
  }

  /** A deposit goes through exactly when the caller holds the account, and moves the file's balance. */
  lemma DepositOutcome(w: World, an: string, p: int, amount: int)
    ensures BankDeposit(w, an, p, amount) ==
      if !Held(w, an, p) then (w, Returned(false))
      else if an !in w.files then (w, Exited)
      else (MovedBy(w, an, p, amount), Returned(true))
  {
    HeldPut(w, an, p);
  }

  /** An inquiry answers with the file's balance exactly when the caller holds the account, and refreshes its cache. */
  lemma BalanceOutcome(w: World, an: string, p: int)
    ensures BalanceInq(w, an, p) ==
      if !Held(w, an, p) then (w, Returned(-1))
      else if an !in w.files then (w, Exited)
      else (w.(caches := w.caches[an := Cache(p, w.files[an].balance)]), Returned(w.files[an].balance))
  {
    HeldPut(w, an, p);
    assert an in w.files ==> w.files[an := w.files[an]] == w.files;
  }

  /** A logout removes just the caller's lock and resets the cache; no file is written. */
  lemma UnlockActOutcome(w: World, an: string, p: int)
    ensures UnlockAct(w, an, p) ==
      if !Held(w, an, p) then (w, false) else (World(w.files, w.locks - {an}, w.caches[an := RESET]), true)
  {
    HeldPut(w, an, p);
    assert an in w.files ==> w.files[an := w.files[an]] == w.files;
  }

  lemma HeldPut(w: World, an: string, p: int)
    ensures Held(w, an, p) ==> w.locks + {an} == w.locks && Put(w, an, SlotOf(w, an)) == w
    ensures Held(w, an, p) && an !in w.files ==> w.files - {an} == w.files
  {
    if Held(w, an, p) {
      PutThenSlot(w, an, SlotOf(w, an), an);
    }
  }
}
