# A verified model of the ATM bank

The system is a bank server that keeps one text file per account in a directory, an ATM client, and a proxy
between them. The server forks a process for every connection; the processes and the operator's terminal share
the account files `<name>.act`, the lock files `<name>.lock` and one login counter file. Every process has its own
vector of account objects with a cached PIN and balance.

This project models that logic in Dafny and proves what it keeps and what it does not keep.

* `Ledger`, `LedgerLaws`: what each bank call computes, as a function of the files, the locks and the caller's
  caches, and what that amounts to. `Account`, `Bank`: the classes with their fields and loops, proved equal to it.
* `System`, `SystemInvariant`, `SystemLaws`, `Ownership`: any number of sessions and the operator over one shared
  store, in steps finer than a bank call. Conservation of money, no negative balance, no overflow, lock ownership,
  the permanent lock after a timeout, the login counter.
* `Moments`, `MomentLaws`: steps finer still, with the locks that stand only inside a login or a transfer.
* `Calls`, `Book`: the same system in whole bank calls, each a run of the finer steps, and its refinement of a
  plain ledger without caches, files or locks.
* `Lockout`, `Commands`, `Mac`, `Hexadecimal`, `Text`, `Terminal`: the counter file, the command and reply texts,
  the keyed messages, their digits, number and token texts, the operator's terminal.
* `Server`, `Connection`, `Client`: the two ends of a connection as functions of what they receive, and the
  imperative loops proved equal to them. `Process`: a server process is a session of `System`. `Interleaving`: the
  same with others coming in between the steps of one request.
* `Dialogue`, `Handshake`, `Relay`: the two ends joined by an honest channel, and the proxy in between. `Errands`: one
  command from the line typed to the account files and back.

## Premises

* Testing for a lock and creating it is one step, and so is reading, changing and rewriting one file. In the
  source these are separate calls (src/account.cpp:18 and :36, src/bank.cpp:98 and :102). A withdrawal is split
  between its test and its re-reading of the file (src/account.cpp:84 and :88), and a transfer once more between
  debit and credit (src/bank.cpp:92 and :96); other sessions and the operator may come in there.
* Coarser than that, two steps of `System` hold a lock only within themselves: a login (counter, lock, PIN test and,
  on a wrong PIN, unlock, src/server.cpp:231-236 and src/bank.cpp:154-163) and the second half of a transfer (test,
  lock, credit and unlock of the recipient, src/bank.cpp:96-138). `Moments` splits both where the lock comes and goes;
  conservation, solvency and lock privacy are proved there again, and the runs of `System` are its uninterrupted runs
  (`MomentLaws.CoarseRunIsFine`). The other laws are about the steps of `System`.
* A server process handles one message in one step of `Dialogue` and of `Process`; between two of its messages the
  parts of other sessions' calls may come in. In `Interleaving` they may come in between the parts of one request too.
* Account names are distinct (proved of a directory listing: `Terminal.GetAccountNames`). Login PINs and amounts
  are not negative. Typed amounts and PINs are at most 2^31-1: the patterns let more digits through, the model's `Atoi`
  is exact on them, and the source's `atoi` has no defined value there. Sums are unbounded here, and
  `SystemLaws.NoOverflow` shows when they fit a 32-bit `int`.
* Encryption gives back exactly what was sent, to the one who has the key. HMAC is an arbitrary function.
* A call of `exit()` inside an account call is the outcome `Exited`.

## Where documentation and code differ

The code is followed. docs/PROTOCOL.md:19 sends `OK.` after a login and the code `SUCCESS.`; `OK.` comes before it.
docs/PROTOCOL.md:33-34 counts login failures and the code counts attempts, which it never forgets.
docs/PROTOCOL.md:23 answers a transaction with OK and the code with the new balance alone.
docs/PROTOCOL.md:37-38 calls a failed transaction ignored, but a transfer that finds its recipient locked has
already taken the money from the sender (`LedgerLaws.FailedTransferKeepsFiles`).

Findings worth knowing: the transfer just mentioned loses money; a session that times out leaves its account
locked for good (`Ownership.OrphanForever`); after an operator's deposit to a held account a withdrawal the file
would cover can be refused (`Book.StaleRefusalHappens`); a customer has three login attempts, right or wrong, in
the lifetime of the counter file (`Ownership.AtMostThreeAttempts`); a wrong PIN tried at an account that nobody uses
can cost somebody else a transfer to it (`MomentLaws.WrongPinCostsTransfer`); bytes are printed without leading
zeros, so different digests can look alike, and `Hexadecimal.UnambiguousExactly` says which; a client whose login
failed leaves its connection open and a proxy in between waiting (`Relay.StillIsAtRest`); an operator's deposit to an
empty account file is read back as a PIN (`Terminal.RedepositedFile`); a login without a readable name is let through
uncounted and then fails (`Server.MalformedLoginFails`).

## Model

| member | source | states |
|---|---|---|
| Account.Account.LoadAccount | src/account.cpp:17-40 | returns false with nothing changed if the lock or no file is there; otherwise takes the lock and caches what the file's two tokens parse to |
| Account.Account.SaveAccount | src/account.cpp:48-57 | removes the lock and resets the cache; the account file is not written, because the lock is gone first |
| Account.Account.CheckCreds | src/account.cpp:62-74 | true exactly if the account is locked, the name is its own and the PIN is the cached one |
| Account.Account.Withdraw | src/account.cpp:75-93 | tests the cached balance, subtracts from the re-read one, writes through; touches this account's file only, no lock |
| Account.Account.Deposit | src/account.cpp:94-103 | on a locked account adds to the re-read balance and writes through; the PIN written is the cached one |
| Account.Account.GetBalance | src/account.cpp:104-115 | -1 if unlocked, 0 on bad credentials, else the file's balance, which also refreshes the cache |
| Account.Account.SaveChanges | src/account.cpp:125-139 | writes the cached pair as text, and nothing at all if the account is not locked |
| Account.Account.ReadChanges | src/account.cpp:140-156 | refreshes the cached balance from the file but not the PIN; ends the process if the file is missing |
| Account.FileRoundTrip | src/account.cpp:122-124 | every pair of PIN and balance, negative ones too, is read back from the text printed for it |
| LedgerLaws.UnlockedAccount | src/account.cpp:17-115 | an account that is not locked answers -1 or false to everything but a load, and a load needs its file |
| LedgerLaws.LockedAccount | src/account.cpp:17-115 | what each call on a locked account does to file, lock and cache, and answers, the wrong credentials and the missing file included |
| Text.AtoiToString | src/account.cpp:154 | `atoi` of a printed number is the number |
| Text.AtoiIsDecimal | src/server.cpp:284 | a string of digits, leading zeros and all, is read as the decimal number it is |
| Text.AtoiOfText | src/account.cpp:33-34 | what `atoi` makes of any text: white space, a sign, digits, and a rest that is not looked at |
| Text.TokenIsRead | src/account.cpp:32 | what one extraction takes from a stream, whatever of the six white-space characters is around it |
| Bank.Bank.constructor | src/bank.cpp:141-147 | one reset account object per name, over the one store |
| Bank.Bank.IsAnAccount | src/bank.cpp:17-24 | true exactly if some account of the vector has the name |
| Bank.Bank.LookupAccount | src/bank.cpp:25-34 | true exactly if the account is there, locked, and cached with that PIN |
| Bank.Bank.Deposit | src/bank.cpp:36-47 | the loop over the vector deposits in the named account and changes no other |
| Bank.Bank.BalanceInq | src/bank.cpp:48-59 | the loop answers for the named account, -1 if the caller does not hold it |
| Bank.Bank.Withdraw | src/bank.cpp:60-71 | the loop withdraws from the named account and changes no other |
| Bank.Bank.Transfer | src/bank.cpp:72-140 | the two loops with their compensation branches compute the debit and its settlement, in the source's order |
| Bank.Bank.LockAct | src/bank.cpp:148-176 | the loop takes the account or puts it back as it found it |
| Bank.Bank.UnlockAct | src/bank.cpp:177-197 | the loop releases the account if the caller holds it |
| LedgerLaws.WithdrawOutcome | src/bank.cpp:60-71 | goes through exactly if the caller holds the account and the cached balance covers it; the file's balance goes down by the amount and the cache follows it |
| LedgerLaws.DepositOutcome | src/bank.cpp:36-47 | goes through exactly if the caller holds the account; just that file's balance goes up |
| LedgerLaws.BalanceOutcome | src/bank.cpp:48-59 | the file's balance, not the cached one; only the cache changes |
| LedgerLaws.SettleOutcome | src/bank.cpp:96-138 | after a debit only three ends are possible, told apart by the recipient's lock and file; the "is owed" and "could not save" exits are unreachable |
| LedgerLaws.TransferOutcome | src/bank.cpp:72-140 | over every store: true exactly if the sender may be debited and the recipient is free with a file; the exact new files, locks and caches in every case |
| LedgerLaws.TransferConserves | src/bank.cpp:98-101 | a transfer keeps the money in the files if and only if it does not debit a sender and then find the recipient locked |
| LedgerLaws.FailedTransferKeepsFiles | src/bank.cpp:96-101 | over every store: a transfer that returns false leaves the files as they were, except exactly there (or where the cached PIN is not the file's, which no run reaches) |
| Calls.LossHappens | src/bank.cpp:98-101 | a run from the start with two logins in which a transfer answers false and 5 of 10 are gone |
| LedgerLaws.LockActOutcome | src/bank.cpp:148-176 | true exactly if the account exists, is free, has a file, and the PIN is the file's; then one lock more; no file is ever changed |
| LedgerLaws.UnlockActOutcome | src/bank.cpp:177-197 | removes exactly the caller's lock; no file is written at logout and none needs to be |
| SystemInvariant.StepIsEffect | src/account.cpp:75-103 | in every reachable state the calls do what plain updates of shared balances would do; the process never ends inside a call |
| SystemInvariant.RunKeepsInv | src/account.cpp:84-90 | in every run: cached at most file for the lock holder, cached PIN equal to the file's, all other caches reset, no account held twice, no balance negative |
| SystemInvariant.InitEstablishesInv | src/bank.cpp:141-147 | a server that starts, over whatever files and left-over locks, is such a state |
| SystemLaws.Conservation | src/bank.cpp:36-140 | over every interleaving: files plus amounts in flight change by session deposits, plus operator deposits, minus withdrawals, minus the amounts of transfers that found the recipient locked, and by nothing else |
| SystemLaws.NeverNegative | src/account.cpp:84-90 | no run makes a balance negative, though the test is on a stale balance and the subtraction from another |
| SystemLaws.NoOverflow | src/account.cpp:89-100 | if the initial total and what the deposits of the run bring in come to at most 2^31-1, every sum and difference of the run fits an int |
| Ownership.LockedIsPrivate | src/account.cpp:17-61 | while an account is locked nobody but a session logged in to it changes its file (the operator's deposit aside) or lock, or any other session's state |
| Ownership.TimeoutOrphans | src/server.cpp:254-258 | a session that times out leaves its account locked with nobody in it |
| Ownership.OrphanForever | src/bank.cpp:154-157 | from then on, whatever happens, nobody logs in to it, no transfer credits it, no step unlocks it |
| Ownership.SessionStable | src/bank.cpp:25-34 | through any transactions of its own and of others, lookup of a logged-in session's account stays true |
| Ownership.LogoutReleases | src/server.cpp:361-363 | a session that ends by EXIT. or end of stream removes its lock and no other |
| Ownership.PinsNeverChange | src/account.cpp:122-139 | no run adds or removes an account file or changes a numeric PIN, though the cached one is written back |
| Ownership.ResetPinIsNeverWritten | src/account.cpp:58-61 | a file holds the reset value -1 after a run only if it held it before; the PINs are all non-negative afterwards exactly if they were at the start |
| Ownership.CounterCountsAttempts | src/server.cpp:231-236 | over every run: a name's counter goes up by exactly the logins, right or wrong, that get as far as `lock_act`, and never above three |
| Ownership.AtMostThreeAttempts | src/server.cpp:231-236 | from the start at most three login attempts per name, right or wrong, ever reach `lock_act`; the next is turned away exactly if there have been three |
| Moments.FineRunKeeps | src/bank.cpp:148-176 | with the passing locks of a login and a credit in it, every run: the invariant holds, an account is locked for a moment by one process only and is then nobody's own, and what was loaded under the lock is the file's PIN and at most its balance |
| MomentLaws.FineConservation | src/bank.cpp:96-138 | conservation with those locks: money is lost exactly by withdrawals and by transfers dropped because the recipient was locked, be it for a moment |
| Moments.FineNeverNegative | src/account.cpp:84-90 | no such run makes a balance negative |
| MomentLaws.FineLockedIsPrivate | src/account.cpp:17-61 | while an account is locked, be it for a moment, only the session logged in to it or holding it (and the operator) changes its file, only such a session its lock, and no move is felt by another session |
| MomentLaws.OneHasIt | src/account.cpp:17-40 | an account is had by at most one session, as its own or for a moment, and its lock is then there |
| MomentLaws.CoarseRunIsFine | src/bank.cpp:96-176 | every run of the coarser system is the finer run in which nothing comes between the parts of a login or a credit |
| MomentLaws.HeldIsMet | src/bank.cpp:98-101 | whoever meets a passing lock has the transfer dropped or the login refused |
| MomentLaws.WrongPinCostsTransfer | src/bank.cpp:154-163 | in every state where it can happen: a wrong PIN tried at a free account while a transfer to it is between its halves makes that amount vanish |
| Calls.CallIsScript | src/bank.cpp:60-140 | a whole withdrawal or transfer is the run of its parts with nothing in between, in state and in answer, whatever other sessions are in the middle of |
| Calls.CallsAreRuns | src/bank.cpp:60-140 | every run of whole calls, by any sessions, is a run of the finer system |
| Book.CallRefines | src/bank.cpp:36-140 | a call gives the result and the balances of a plain ledger if and only if it is not a withdrawal or transfer that the file covers and the cache does not |
| Book.RunRefines | src/account.cpp:48-57 | runs without such a call give the plain ledger's replies, balances and seats; nothing is lost at logout |
| Book.UndisturbedRunRefines | src/server.cpp:405-415 | in particular all runs in which the operator never deposits to an account in use |
| Book.StaleRefusalHappens | src/account.cpp:84-86 | a run in which the operator did, and a covered withdrawal is refused |
| Lockout.LockoutFile.IsAccountUnlocked | src/gen_functions.cpp:147-204 | for every name, the empty one too: reading the list, counting up and rewriting it is one attempt on the list, and a refusal leaves the text as it was; for a name that is one token, or none, the new text reads back as the new list |
| Lockout.AttemptCounts | src/gen_functions.cpp:162-199 | one attempt is one step of a counter per name; other names keep their count, all keep their place |
| Lockout.CountsAreCalls | src/gen_functions.cpp:147-204 | after any calls from no file: each name once, in order of first call, with the smaller of its number of calls and 3 |
| Lockout.AdmittedBelowThree | src/gen_functions.cpp:166-172 | a call returns true exactly if fewer than three earlier calls were for that name |
| Lockout.EntryInFile | src/gen_functions.cpp:164-195 | an entry is written as name, blank, count and newline, and this is read back as the entry, wherever it stands |
| Lockout.ListRoundTrip | src/gen_functions.cpp:164-195 | the list of non-empty names without spaces is read back from the file it was written to |
| Commands.LineGrammar | src/client.cpp:188-227 | a typed line is taken for a command exactly if in lower case it is that command's line with a well-formed amount and name |
| Commands.LineSyntax | src/client.cpp:188-227 | which line, letter by letter, is which command, and that no other is any |
| Commands.MessageSyntax | src/server.cpp:265-342 | which message, letter by letter, is which request, and that no other is any |
| Commands.AmountSyntax | src/constants.cpp:26 | an amount is 1 to 16 digits |
| Commands.NameSyntax | src/constants.cpp:28 | a name is 1 to 64 letters, digits and underscores |
| Commands.PinSyntax | src/constants.cpp:25 | a PIN is 4 to 6 digits |
| Commands.LowerIsAscii | src/gen_functions.cpp:46-52 | lower case moves A to Z by 32 and nothing else |
| Commands.MessageGrammar | src/server.cpp:265-342 | a message is taken for a request exactly if it is the one the client writes for it |
| Commands.BranchesDisjoint | src/server.cpp:265-340 | no message fits two of the server's branches |
| Commands.CommandRoundTrip | src/client.cpp:228-329 | for every line the client accepts the server reads the same request |
| Commands.RecipientInLowerCase | src/client.cpp:188 | the recipient is in lower case when it reaches the server |
| Commands.LoginGrammar | src/server.cpp:225-229 | the login message gives back exactly the name and PIN digits it was made from |
| Server.LoginIsRead | src/server.cpp:225-229 | name of 1 to 64 word characters, colon, PIN of 4 to 6 digits: the server reads that name and that number |
| Server.NothingElseIsRead | src/server.cpp:225-229 | from no other text does it read a name |
| Server.LoginOutcome | src/server.cpp:225-245 | what comes of a login: turned away in silence after three attempts; else counted, and served exactly if the account exists, is free, has a file and that PIN, with one lock more; else a failure with files and locks as they were |
| Commands.ToLower | src/gen_functions.cpp:46-52 | every character in lower case, in place |
| Hexadecimal.RawToHex | src/gen_functions.cpp:26-34 | the loop prints the bytes one after the other without leading zeros |
| Hexadecimal.HexByteText | src/gen_functions.cpp:30 | a byte is printed in the digits 0 to 9 and a to f, the higher first, one digit below 16 |
| Hexadecimal.HexJoins | src/gen_functions.cpp:28-32 | what is printed of several bytes is what is printed of each, in order |
| Hexadecimal.HexIsNotInjective | src/gen_functions.cpp:30 | two different byte strings with the same digits |
| Hexadecimal.UnambiguousExactly | src/gen_functions.cpp:26-34 | bytes can be told by their digits from all others, as many, if and only if all have one digit, or each that has one can share it with neither neighbour |
| Hexadecimal.Twin | src/gen_functions.cpp:26-34 | all other bytes have as many others that print the same |
| Hexadecimal.EvenlyPrinted | src/gen_functions.cpp:26-34 | in particular a print of one digit a byte, or of two, is unambiguous |
| Mac.CheckMac | src/gen_functions.cpp:118-146 | the loop over the trusted keys accepts exactly if the message splits and some key's digest is its second half |
| Mac.MacAgreement | src/gen_functions.cpp:104-146 | a made message is accepted exactly if some trusted key prints the same digest; always if the maker's key is listed, wherever |
| Mac.KeysOfLines | src/gen_functions.cpp:126-129 | every key of a trust file, one to a line, is read, in order |
| Mac.FileDecides | src/gen_functions.cpp:126-145 | against a trust file of any keys: two words around a colon are accepted exactly if the second is the print of the first one's digest under some key of the file, and nothing else is accepted |
| Mac.AnyKeyOfTheFile | src/gen_functions.cpp:104-146 | a message made with a key at any position of the trust file is accepted |
| Mac.MadeMessage | src/gen_functions.cpp:114-116 | what a made message looks like, and that a trust file accepts it exactly if some key of it prints the same digest |
| Mac.DigestsAreCompared | src/gen_functions.cpp:140-143 | where the maker's digest is so, a message is accepted exactly if some trusted key has the same digest, not just the same print |
| Mac.LookAlike | src/gen_functions.cpp:140-143 | and only there: otherwise some keyed digest lets a message pass under one trusted key with another digest |
| Mac.MacFits | src/gen_functions.cpp:114-116 | it has at most 193 characters, within the 245 that section 7.2.1 of RFC 8017 leaves of 2048 bits |
| Terminal.GetAccountNames | src/gen_functions.cpp:58-78 | exactly the names of the account files, none twice |
| Terminal.AccountFileSyntax | src/gen_functions.cpp:67-71 | a file is an account's exactly if it is called by a word and ".act" |
| Terminal.RedepositedFile | src/server.cpp:401-415 | the rewritten file holds the same PIN and the increased balance if and only if the old text had a first token or nothing is deposited; an empty file is read back with the amount as its PIN |
| Terminal.StartTerminal | src/server.cpp:371-417 | the loop over the operator's lines does and shows what `TerminalRun` says, which the rows below pin; locks are neither looked at nor changed |
| Terminal.TerminalIsRun | src/server.cpp:371-436 | a whole terminal session is a run of the operator's steps of the system, one for every deposit line before "exit" |
| Terminal.OnlyDepositsChange | src/server.cpp:382-433 | a line changes the files only if it is a deposit line for an account there is, and that account's alone; it shows something only if it is a balance line |
| Terminal.BalanceLine | src/server.cpp:418-433 | a balance line changes nothing and shows nothing where there is no file |
| Terminal.BalanceIsShown | src/server.cpp:428-432 | what it shows of a file of two tokens is the second, as it stands |
| Terminal.DepositSyntax | src/constants.cpp:17 | which line is a deposit, letter by letter |
| Terminal.BalanceSyntax | src/constants.cpp:18 | which line is an inquiry, letter by letter |
| Terminal.ExitEnds | src/server.cpp:382-384 | lines after "exit" have no effect |
| Terminal.LinesInOrder | src/server.cpp:373-434 | before that each line is obeyed on what the ones before it have left |
| Terminal.LineIsOperatorStep | src/server.cpp:389-416 | a deposit line is the operator's step of the system if and only if the account's file holds anything, or is missing, or nothing is deposited |
| Server.AnswerIsTrue | src/server.cpp:282-359 | in every state: the answer says done exactly if the bank call returned true, and its balance is then the one in the file |
| Server.CallsAreEarned | src/server.cpp:152-246 | whatever arrives in whatever order: for every transaction made three messages arrived in this order: a keyed message the server trusts, the login, the request |
| Server.LogTellsAll | src/server.cpp:102-370 | whatever arrives, in every stage: files and locks at the end are those that the logged logins and transactions, made again in order, make of the ones at the start, but for a logout's lock; so nothing unlogged touches an account |
| Server.NotesFollowMessages | src/server.cpp:152-342 | the log is made of messages that arrived, in their order: each note stands for one that the server had to trust, let in or decode |
| Server.NotesAreOrdered | src/server.cpp:152-246 | no logged transaction before a login, no login before a trusted keyed message |
| Server.StrangersGetNowhere | src/server.cpp:102-246 | whatever arrives, while no message is a keyed one the server trusts: no file, lock or counter changes, nothing is logged, and nothing but the public key and the request for a keyed message is sent |
| Server.ServedAfterHandshake | src/server.cpp:117-246 | whoever is being served has sent, one right after the other, the greeting, a key, a trusted keyed message, the OK and the login served, and since then nothing that ends the connection |
| Server.Unexpected | src/server.cpp:117-281 | a wrong greeting or keyed message ends the connection, a wrong OK takes it back to the start, and an unreadable request is answered with a failure and nothing else |
| Server.WaysOut | src/server.cpp:246-363 | logout and end of stream release the account in silence, a timeout leaves it locked |
| Server.UntouchedBeforeLogin | src/server.cpp:102-246 | no file and no lock changes while nobody is let in, and the login counter does not while no keyed message is accepted |
| Server.MalformedLoginFails | src/server.cpp:225-242 | a login message that is none is not counted and fails, whatever PIN stands for its missing one, if no account has the empty name |
| Connection.Connection.ProcessConnection | src/server.cpp:102-370 | the receive loop on the real bank and counter file sends and does what the stage machine says, through all its ends |
| Connection.Connection.Take | src/server.cpp:246-258 | end of stream unlocks, the idle timeout does not, a message is handled by its stage |
| Process.InputIsCalls | src/server.cpp:246-363 | one message, end of stream or timeout makes the process do just those calls of the system |
| Process.ConnectionIsRun | src/server.cpp:102-370 | a whole connection is a run of the system, whatever steps others make between its messages, the parts of their withdrawals and transfers included |
| Process.ConnectionConserves | src/server.cpp:282-359 | so its text-level requests keep money and solvency as runs of the system do, while others are in the middle of theirs |
| Interleaving.TurnsAreRun | src/server.cpp:246-363 | a connection in which the operator and other sessions come in between the test, debit, credit and inquiry of one request is a run of the system |
| Interleaving.InterruptedConserves | src/server.cpp:282-359 | so money and solvency hold over those too |
| Interleaving.AnswersAreTrue | src/server.cpp:282-359 | an interrupted request ends after at most four steps of its own, answers done exactly if the money has moved, and then with the balance in the file at that moment |
| Interleaving.UninterruptedIsReceived | src/server.cpp:282-359 | a request that nobody interrupts ends, in state and answer, as the server's handling of the whole message says |
| Process.ReplyFits | src/server.cpp:289 | if money and deposit fit an int, the reply fits the 16 characters that are encrypted of it |
| Process.RequestsAreAnswered | src/server.cpp:282-359 | in every reachable state a request is answered with the file's balance, never negative, or a failure; inquiries and deposits never fail |
| Errands.WithdrawErrand | src/client.cpp:228-260 | "withdraw" and an amount, undisturbed, in every reachable state: exactly that much less in the file and the rest shown if the cached balance covers it, else nothing changed and a failure shown |
| Errands.DepositErrand | src/client.cpp:261-293 | the same for a deposit, which always goes through |
| Errands.BalanceErrand | src/client.cpp:327-355 | the same for an inquiry: no file changes, the file's balance is shown |
| Errands.TransferErrand | src/client.cpp:294-326 | the same for a transfer: refused, moved, lost to a locked recipient, or given back, with the files and the text shown in each case |
| Client.StartSession | src/client.cpp:92-376 | the session loop sends and shows what the client's stage machine says, which the rows below pin |
| Client.TypedLines | src/client.cpp:206-331 | for each command typed at the prompt, in any case, the very message that is sent |
| Client.TypedIsSent | src/client.cpp:188-361 | a line sends a message exactly if it asks for a command, and the server reads that command from it; any other line sends and changes nothing |
| Client.EndsOnlyIf | src/client.cpp:92-383 | when a client ends with its connection closed, when with it left open, and what it shows for a reply |
| Client.StrangersLearnNothing | src/client.cpp:94-143 | whatever arrives: while no keyed message the client trusts is among it, all that is sent is the key and the client's keyed message, in this order, or less |
| Client.PinOnlyAfterTrust | src/client.cpp:126-168 | whatever arrives: the first messages are the key, the keyed message, OK. and the login, in this order, and more than the first two only after a keyed message the client trusts |
| Dialogue.Alternates | src/client.cpp:92-181 | in every state of every dialogue at most one message is in flight and the two stages match |
| Dialogue.ShownIsTrue | src/client.cpp:228-355 | what the customer was shown is, in order, what the bank calls returned and the file balance after each; at the prompt nothing is missing |
| Dialogue.AskedIsDone | src/client.cpp:188-355 | over every dialogue: the requests the bank has answered are, in order, the commands typed, but for the last at most; at the prompt the customer has been shown an answer to each |
| Dialogue.NoDeadlock | src/server.cpp:117-246 | nobody has anything to receive only if the client is at its prompt or both have ended, a client whose login failed with its connection left open |
| Dialogue.ReceivesEnd | src/client.cpp:92-376 | and that is reached after a bounded number of receives |
| Handshake.PromptIsEarned | src/client.cpp:136-181 | a client at its prompt trusts the server, is trusted by it, and is let in under what the server reads from its login message: the name and PIN typed, if they have the form of a login |
| Handshake.HandshakeSucceeds | src/server.cpp:117-246 | two sides that trust each other get there in five rounds if the counter and the bank let them |
| Relay.ProcessConnection | src/proxy.cpp:144-168 | between any two ends that answer what they receive, for any number of turns: the loop passes each message on unchanged, in order, one for one, and stops only when the end it waits for closes |
| Relay.LockstepDetermined | src/proxy.cpp:144-168 | the two ends alone determine all that is passed on |
| Relay.RelayedIsDirect | src/proxy.cpp:144-168 | a relayed run is, for the two ends, a direct dialogue that ends in the same states |
| Relay.DirectIsRelayed | src/proxy.cpp:144-168 | every direct dialogue can happen through the proxy with the same end states |
| Relay.StillIsAtRest | src/proxy.cpp:144-168 | the proxy adds no deadlock between the ends; it is itself left waiting exactly by a client that has ended and left its connection open |
| Relay.ProceedingEnds | src/proxy.cpp:144-168 | and no endless exchange: runs of receives stay bounded |
| Relay.RelayedShownIsTrue | src/client.cpp:228-355 | through the proxy, too, the customer is shown the truth |
| Relay.LoopPassesAllOn | src/proxy.cpp:144-168 | the relay loop, given as many turns as there are requests, between ends that send what is sent in a relayed run, passes on all of it, in order |

## Left out

- Sockets, fork, partial sends and receives, SIGPIPE on a closed connection: channels carry whole messages.
- OpenSSL, key files and random bytes (src/crypto.cpp): see the premises. Failing decryption and encryption, and
  the branches that answer to it, are not modelled.
- The regular expression engine: the patterns of src/constants.cpp are written out as predicates.
- Raw buffers, missing NUL terminators (`str_to_char_ptr_safe`) and uninitialised memory.
- Races inside the creation of a lock or inside one file rewrite, between two processes rewriting the counter file,
  and between two processes handling a message at once: the source does not exclude them.
- Files that exist but cannot be opened, and directories that cannot be read.
- The client's checks before it connects (its own counter file, the card file, the size of the PIN) and its outer
  login loop: a `Client` session begins with the connection.
- Option parsing, usage texts, port checks, prompts and debug output, `macLocal.c`, the sample data.
- The client's wording: `Client.Shown` records the request, success or failure, and the balance text.
- Connection.Connection.Take: an unreadable login has an empty name, as in the source, and the PIN 0; the source reads
  that PIN from memory it has not set (src/server.cpp:228-229), and `Server.MalformedLoginFails` shows that it does not
  matter.
- `Calls`, `Book`, `Process`, `Interleaving` and the laws of `Ownership` take a login and a credit as one step each;
  their passing locks are in `Moments` only.
- Bank.Bank.constructor: takes the names as given; `Terminal.GetAccountNames` lists them from a directory.
- Bank.Bank.Transfer: its two loops are methods of their own, `Debit` and `Credit`, and the calls on one element of the vector are methods `LoadAt` to `BalanceAt`.
