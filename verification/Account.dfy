/** The account files and lock files, and the account object that works on one account of them. */
module Account {
  import opened Wrappers
  import opened Text
  import L = Ledger

  // ---------- The text of an account file ----------

  /** The two tokens of an account file, read as numbers. */
  function ParseFile(text: string): L.File {
    var (pin, rest) := NextToken(text);
    L.File(Atoi(pin), Atoi(NextToken(rest).0))
  }

  function AccountStr(pin: int, balance: int): string {
    ToString(pin) + " " + ToString(balance)
  }

  /** Any two tokens on a line are read back as themselves. */
  lemma TwoTokens(a: string, b: string)
    requires IsToken(a) && IsToken(b)
    ensures ParseFile(a + " " + b + "\n") == L.File(Atoi(a), Atoi(b))
    ensures NextToken(a + " " + b + "\n").0 == a
  {
    Regroup4(a, " ", b, "\n");
    NextTokenExact(a, " " + (b + "\n"));
    NextTokenSkips(' ', b + "\n");
    NextTokenExact(b, "\n");
  }

  /** An account file read back is the account that was written. */
  lemma FileRoundTrip(pin: int, balance: int)
    ensures ParseFile(AccountStr(pin, balance) + "\n") == L.File(pin, balance)
  {
    AtoiToString(pin);
    AtoiToString(balance);
    TwoTokens(ToString(pin), ToString(balance));
  }

  /** `files` with every value replaced by its image under `f`. */
  function Image<A, B>(f: A -> B, files: map<string, A>): map<string, B> {
    map n | n in files :: f(files[n])
  }

  lemma ImageUpdate<A, B>(f: A -> B, files: map<string, A>, n: string, a: A)
    ensures Image(f, files[n := a]) == Image(f, files)[n := f(a)]
    ensures Image(f, files - {n}) == Image(f, files) - {n}
  {
  }

  /** The accounts directory, shared by all processes: the account files by name, and the lock files. */
  class Store {
    var files: map<string, string>
    var locks: set<string>

    constructor (files: map<string, string>, locks: set<string>)
      ensures this.files == files && this.locks == locks
    {
      this.files, this.locks := files, locks;
    }

    /** The accounts the files stand for. */
    function Files(): map<string, L.File>
      reads this
    {
      Image(ParseFile, files)
    }
  }

  /** One account as one process sees it: its name, and a cached pin and balance. */
  class Account {
    const name: string
    const store: Store
    var pin: int
    var balance: int

    constructor (an: string, store: Store)
      ensures name == an && this.store == store && Cached() == L.Cache(-1, -1)
    {
      name, this.store := an, store;
      pin, balance := -1, -1;
    }

    function Cached(): L.Cache
      reads this
    {
      L.Cache(pin, balance)
    }

    /** The account as the value model sees it. */
    function View(): L.Slot
      reads this, store
    {
      L.Slot(if name in store.files then Some(ParseFile(store.files[name])) else None,
             name in store.locks, Cached())
    }

    /** Only this account's file and lock may differ from `files` and `locks`. */
    ghost predicate OnlyMine(files: map<string, string>, locks: set<string>)
      reads store
    {
      && store.files == (if name in store.files then files[name := store.files[name]] else files - {name})
      && store.locks == (if name in store.locks then locks + {name} else locks - {name})
    }

    method LoadAccount() returns (r: bool)
      modifies this, store
      ensures (View(), r) == L.Load(old(View()))
      ensures OnlyMine(old(store.files), old(store.locks)) && store.files == old(store.files)
    {
      if name in store.locks {
        return false;
      }
      if name !in store.files {
        return false;
      }
      var (pinStr, rest) := NextToken(store.files[name]);
      var (balanceStr, _) := NextToken(rest);
      pin := Atoi(pinStr);
      balance := Atoi(balanceStr);
      store.locks := store.locks + {name};
      return true;
    }

    method SaveAccount() returns (r: bool)
      modifies this, store
      ensures (View(), r) == L.Save(old(View()))
      ensures OnlyMine(old(store.files), old(store.locks)) && store.files == old(store.files)
    {
      if name !in store.locks {
        return false;
      }
      store.locks := store.locks - {name};
      SaveChanges();
      ResetVars();
      return true;
    }

    method ResetVars()
      modifies this
      ensures Cached() == L.Cache(-1, -1)
    {
      balance := -1;
      pin := -1;
    }

    method CheckCreds(an: string, p: int) returns (r: bool)
      ensures r == L.CheckCreds(name, View(), an, p)
    {
      if name !in store.locks {
        return false;
      }
      if name != an {
        return false;
      }
      return pin == p;
    }

    method WriteThrough(delta: int)
      modifies this, store
      ensures View() == L.SaveChanges(old(View()).(cache := L.Cache(old(pin), old(balance) + delta)))
      ensures OnlyMine(old(store.files), old(store.locks)) && store.locks == old(store.locks)
    {
      balance := balance + delta;
      SaveChanges();
    }

    /** The tail of withdraw and deposit: refresh the balance from the file, move it, write it through. */
    method Adjust(delta: int) returns (r: Outcome<bool>)
      requires name in store.locks
      modifies this, store
      ensures (View(), r) == L.Adjust(old(View()), delta)
      ensures OnlyMine(old(store.files), old(store.locks)) && store.locks == old(store.locks)
    {
      var seen := ReadChanges();
      if seen.Exited? {
        return Exited;
      }
      ghost var sl := View();
      WriteThrough(delta);
      assert View() == L.SaveChanges(sl.(cache := L.Cache(sl.cache.pin, sl.cache.balance + delta)));
      return Returned(true);
    }

    method Withdraw(an: string, p: int, amount: int) returns (r: Outcome<bool>)
      modifies this, store
      ensures (View(), r) == L.Withdraw(name, old(View()), an, p, amount)
      ensures OnlyMine(old(store.files), old(store.locks)) && store.locks == old(store.locks)
    {
      if name !in store.locks {
        return Returned(false);
      }
      var creds := CheckCreds(an, p);
      if !creds {
        return Returned(false);
      }
      if amount > balance {
        return Returned(false);
      }
      r := Adjust(-amount);
    }

    method Deposit(amount: int) returns (r: Outcome<bool>)
      modifies this, store
      ensures (View(), r) == L.Deposit(old(View()), amount)
      ensures OnlyMine(old(store.files), old(store.locks)) && store.locks == old(store.locks)
    {
      if name !in store.locks {
        return Returned(false);
      }
      r := Adjust(amount);
    }

    method GetBalance(an: string, p: int) returns (r: Outcome<int>)
      modifies this
      ensures (View(), r) == L.GetBalance(name, old(View()), an, p)
    {
      if name !in store.locks {
        return Returned(-1);
      }
      var creds := CheckCreds(an, p);
      if !creds {
        return Returned(0);
      }
      var _ :- ReadChanges();
      return Returned(balance);
    }

    method SaveChanges()
      modifies store
      ensures View() == L.SaveChanges(old(View()))
      ensures OnlyMine(old(store.files), old(store.locks)) && store.locks == old(store.locks)
      ensures old(name !in store.locks) ==> store.files == old(store.files)
    {
      if name !in store.locks {
        return;
      }
      FileRoundTrip(pin, balance);
      store.files := store.files[name := AccountStr(pin, balance) + "\n"];
    }

    /** The result is Exited where the source calls exit(); it carries no other information. */
    method ReadChanges() returns (r: Outcome<()>)
      modifies this
      ensures r.Exited? <==> L.ReadChanges(old(View())).Exited?
      ensures View() == if r.Exited? then old(View()) else L.ReadChanges(old(View())).value
    {
      if name !in store.locks {
        return Returned(());
      }
      if name !in store.files {
        return Exited;
      }
      var (_, rest) := NextToken(store.files[name]);
      balance := Atoi(NextToken(rest).0);
      return Returned(());
    }
  }
}
