/**
 The value model of one account and of one process's bank: what each call computes, as a function of
 the account files, the lock files and the caches of the calling process. The classes Account and
 Bank are proved against these functions; the transition systems are built from them.
 */
module Ledger {
  import opened Wrappers

  /** What an account file holds. */
  datatype File = File(pin: int, balance: int)

  /** The two cached fields of an account object. */
  datatype Cache = Cache(pin: int, balance: int)

  const RESET := Cache(-1, -1)

  /** Everything a call on one account object can see of that account. */
  datatype Slot = Slot(file: Option<File>, locked: bool, cache: Cache)

  /** Everything a call on one process's bank can see. The keys of `caches` are the bank's accounts. */
  datatype World = World(files: map<string, File>, locks: set<string>, caches: map<string, Cache>)

  // ---------- One account ----------

  function Load(sl: Slot): (Slot, bool) {
    if sl.locked || sl.file.None? then (sl, false)
    else (Slot(sl.file, true, Cache(sl.file.value.pin, sl.file.value.balance)), true)
  }

  /** The lock goes first, so the write that follows it is skipped: only the lock and the cache change. */
  function Save(sl: Slot): (Slot, bool) {
    if !sl.locked then (sl, false) else (Slot(sl.file, false, RESET), true)
  }

  predicate CheckCreds(own: string, sl: Slot, an: string, p: int) {
    sl.locked && own == an && sl.cache.pin == p
  }

  function ReadChanges(sl: Slot): Outcome<Slot> {
    if !sl.locked then Returned(sl)
    else if sl.file.None? then Exited
    else Returned(sl.(cache := Cache(sl.cache.pin, sl.file.value.balance)))
  }

  function SaveChanges(sl: Slot): Slot {
    if !sl.locked then sl else sl.(file := Some(File(sl.cache.pin, sl.cache.balance)))
  }

  /** Re-read the file, move the balance by `delta`, write it back: the tail of withdraw and deposit. */
  function Adjust(sl: Slot, delta: int): (Slot, Outcome<bool>) {
    match ReadChanges(sl)
    case Exited => (sl, Exited)
    case Returned(seen) =>
      (SaveChanges(seen.(cache := Cache(seen.cache.pin, seen.cache.balance + delta))), Returned(true))
  }

  /** The tests of withdraw: the amount is held against the cached balance, not the file's. */
  predicate MayWithdraw(own: string, sl: Slot, an: string, p: int, amount: int) {
    CheckCreds(own, sl, an, p) && amount <= sl.cache.balance
  }

  function Withdraw(own: string, sl: Slot, an: string, p: int, amount: int): (Slot, Outcome<bool>) {
    if MayWithdraw(own, sl, an, p, amount) then Adjust(sl, -amount) else (sl, Returned(false))
  }

  function Deposit(sl: Slot, amount: int): (Slot, Outcome<bool>) {
    if sl.locked then Adjust(sl, amount) else (sl, Returned(false))
  }

  function GetBalance(own: string, sl: Slot, an: string, p: int): (Slot, Outcome<int>) {
    if !sl.locked then (sl, Returned(-1))
    else if !CheckCreds(own, sl, an, p) then (sl, Returned(0))
    else
      match ReadChanges(sl)
      case Exited => (sl, Exited)
      case Returned(seen) => (seen, Returned(seen.cache.balance))
  }

  // ---------- One bank ----------

  function SlotOf(w: World, n: string): Slot
    requires n in w.caches
  {
    Slot(if n in w.files then Some(w.files[n]) else None, n in w.locks, w.caches[n])
  }

  function Put(w: World, n: string, sl: Slot): World {
    World(if sl.file.Some? then w.files[n := sl.file.value] else w.files - {n},
          if sl.locked then w.locks + {n} else w.locks - {n},
          w.caches[n := sl.cache])
  }

  lemma PutThenSlot(w: World, n: string, sl: Slot, m: string)
    requires m in w.caches && n in w.caches
    ensures m == n ==> SlotOf(Put(w, n, sl), m) == sl
    ensures m != n ==> SlotOf(Put(w, n, sl), m) == SlotOf(w, m)
    ensures Put(w, n, SlotOf(w, n)) == w
  {
    assert n !in w.files ==> w.files - {n} == w.files;
    assert n !in w.locks ==> w.locks - {n} == w.locks;
    assert n in w.locks ==> w.locks + {n} == w.locks;
  }

  lemma PutTwice(w: World, n: string, first: Slot, second: Slot)
    requires n in w.caches
    ensures Put(Put(w, n, first), n, second) == Put(w, n, second)
  {
    var once, twice := Put(w, n, second), Put(Put(w, n, first), n, second);
    assert once.locks == twice.locks;
    assert once.caches == twice.caches;
    assert once.files == twice.files;
  }

  predicate Lookup(w: World, an: string, p: int) {
    an in w.caches && CheckCreds(an, SlotOf(w, an), an, p)
  }

  function BankDeposit(w: World, an: string, p: int, amount: int): (World, Outcome<bool>) {
    if !Lookup(w, an, p) then (w, Returned(false))
    else
      var (sl, r) := Deposit(SlotOf(w, an), amount);
      (Put(w, an, sl), r)
  }

  function BankWithdraw(w: World, an: string, p: int, amount: int): (World, Outcome<bool>) {
    if !Lookup(w, an, p) then (w, Returned(false))
    else
      var (sl, r) := Withdraw(an, SlotOf(w, an), an, p, amount);
      (Put(w, an, sl), r)
  }

  function BalanceInq(w: World, an: string, p: int): (World, Outcome<int>) {
    if !Lookup(w, an, p) then (w, Returned(-1))
    else
      var (sl, r) := GetBalance(an, SlotOf(w, an), an, p);
      (Put(w, an, sl), r)
  }

  /** How the second half of a transfer ends. */
  datatype Settlement =
    | Credited      // the recipient has the money
    | Dropped       // the recipient was locked: nobody has it
    | Refunded      // the recipient could not be loaded, the sender has it back
    | Owed          // neither the credit nor the refund went through
    | Unsaved       // credited, but the recipient could not be released
    | Died          // the process ended inside an account call

  function Refund(w: World, an: string, amount: int): (World, Settlement)
    requires an in w.caches
  {
    var (sl, r) := Deposit(SlotOf(w, an), amount);
    (Put(w, an, sl), if r.Exited? then Died else if r.value then Refunded else Owed)
  }

  /** The credit of a loaded recipient, as it stands in `w`. */
  function Pay(w: World, an: string, t: string, amount: int): (World, Settlement)
    requires an in w.caches && t in w.caches
  {
    var (paid, r) := Deposit(SlotOf(w, t), amount);
    var w1 := Put(w, t, paid);
    if r.Exited? then (w1, Died)
    else if !r.value then Refund(Put(w1, t, Save(paid).0), an, amount)
    else
      var (freed, saved) := Save(paid);
      (Put(w1, t, freed), if saved then Credited else Unsaved)
  }

  /** The second half of a transfer: `an` has been debited, `t` is to be credited. */
  function Settle(w: World, an: string, t: string, amount: int): (World, Settlement)
    requires an in w.caches && t in w.caches
  {
    if SlotOf(w, t).locked then (w, Dropped)
    else
      var (held, loaded) := Load(SlotOf(w, t));
      var w1 := Put(w, t, held);
      if !loaded then Refund(Put(w1, t, Save(held).0), an, amount) else Pay(w1, an, t, amount)
  }

  /** Whether a transfer is refused before any account is touched. */
  predicate TransferRefused(w: World, an: string, p: int, t: string) {
    an == t || !Lookup(w, an, p) || t !in w.caches
  }

  function Transfer(w: World, an: string, p: int, t: string, amount: int): (World, Outcome<bool>) {
    if TransferRefused(w, an, p, t) then (w, Returned(false))
    else
      var (w1, r) := BankWithdraw(w, an, p, amount);
      if r != Returned(true) then (w1, r)
      else
        var (w2, end) := Settle(w1, an, t, amount);
        (w2, if end.Died? then Exited else Returned(end.Credited?))
  }

  function LockAct(w: World, an: string, p: int): (World, bool) {
    if an !in w.caches || an in w.locks then (w, false)
    else
      var (held, loaded) := Load(SlotOf(w, an));
      var w1 := Put(w, an, held);
      if !CheckCreds(an, held, an, p) then (Put(w1, an, Save(held).0), false) else (w1, loaded)
  }

  function UnlockAct(w: World, an: string, p: int): (World, bool) {
    if !Lookup(w, an, p) then (w, false) else (Put(w, an, Save(SlotOf(w, an)).0), true)
  }
}
