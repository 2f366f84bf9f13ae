# Ruby lecture solutions: ledger, robots, camel case, binary numerals

A Dafny model of four independent pieces of a Ruby course's solutions, with the
properties they keep proved.

- `Bank.dfy` (module `Bank`): `BankAccount` (Lecture4/Solution/Task1.rb). It is a class
  `Account` with an integer `balance` and an append-only `transactions` log. Opening rejects
  a negative balance. `deposit` and `withdraw` check their amount before changing
  anything. They rescue their own errors, so a failure leaves the account as it was; the
  model reports it as `ok == false`. `transfer` pre-checks, then calls `withdraw` on the
  source and `deposit` on the target. Each method is specified by a pure function on the
  value `Ledger` (balance, log). The lemmas prove these facts about those functions:
  - the balance never goes negative;
  - the balance equals the sum of the logged amounts;
  - each successful change appends exactly one entry and keeps the earlier ones;
  - a transfer conserves the combined balance;
  - a transfer that passes its pre-checks always gets both of its steps through.
  An account may transfer to itself.
- `Robot.dfy` (module `Robot`): `BasicRobot` and `AdvancedRobot`
  (Lecture4/Solution/Task2.rb). Orientation cycles through `[north, east, south, west]`
  with Ruby's non-negative `%`. `walk` moves `step` units the way the robot faces. An
  `AdvancedRobot` adds a charge and a one-shot turbo. The subclass is modelled by
  delegation: `AdvancedRobot.body` is its `BasicRobot` part, and the overriding `Walk`
  calls `body.Walk()` where Ruby calls `super`.
- `TextUtils.dfy` (module `TextUtils`): `TextUtils.camel_case`
  (Lecture3/Solution/Task4/text_utils/lib/text_utils.rb). The loop that builds `result`
  is a method, proved equal to a pure specification. The lemmas prove:
  - the output has no whitespace;
  - it starts with the first word lowercased and capitalises each later word in order;
  - it is as long as the text without its whitespace;
  - it equals that text up to letter case.
  A blank text is where the source fails.
- `ToBin.dfy` (module `ToBin`): the recursive `toBin` (Lecture3/Solution/Task2.rb). It has
  a decoder and a round trip in both directions. For negative input the recursion never
  reaches its base case.
- `Wrappers.dfy`: the `Option` type used where the source raises.

In the code, `transfer` has no same-account check and no rollback step. Failures are
rescued and printed inside the methods, not returned to the caller as typed errors. On
success `deposit` and `withdraw` both return the `@transactions` array (the value of
`log_transaction`); after a rescued failure both return nil.

## Model

| member | source | states |
|---|---|---|
| `Bank.Opened` | Lecture4/Solution/Task1.rb:4-14 | opening fails exactly for a negative balance; otherwise the ledger is consistent, holds the opening balance, and has the single entry "Account opened" carrying it |
| `Bank.Account.constructor` | Lecture4/Solution/Task1.rb:4-14 | a new account is valid, keeps its number and owner, and its state is the opened ledger |
| `Bank.Account.Open` | Lecture4/Solution/Task1.rb:9-11 | no account is produced (null) exactly when the opening balance is negative; otherwise a fresh valid account as opened |
| `Bank.Account.Deposit` | Lecture4/Solution/Task1.rb:16-26 | succeeds exactly for a positive amount; the new state is `Deposited` of the old one, and validity is kept |
| `Bank.Account.Withdraw` | Lecture4/Solution/Task1.rb:28-41 | succeeds exactly for 0 < amount <= balance; the new state is `Withdrawn` of the old one, and validity is kept |
| `Bank.Account.GetBalance` | Lecture4/Solution/Task1.rb:43-45 | returns the balance, which is never negative |
| `Bank.Account.LogTransaction` | Lecture4/Solution/Task1.rb:77-83 | appends exactly one entry to the log and leaves the balance alone |
| `Bank.Account.Transfer` | Lecture4/Solution/Task1.rb:58-73 | succeeds exactly when amount > 0 and the source balance covers it; distinct accounts end as `Transferred`, one account as `SelfTransferred`; both stay valid |
| `Bank.SumAppend` | Lecture4/Solution/Task1.rb:77-83 | appending an entry adds its amount to the log's sum |
| `Bank.DepositKeepsConsistent` | Lecture4/Solution/Task1.rb:18-22 | deposit keeps balance >= 0 and balance == sum of the log; an accepted amount adds exactly that amount and one Deposit entry, a rejected one changes nothing |
| `Bank.WithdrawKeepsConsistent` | Lecture4/Solution/Task1.rb:30-37 | withdraw keeps balance >= 0 and balance == sum of the log; an accepted amount takes exactly that amount and logs one Withdrawal of -amount, a rejected one changes nothing |
| `Bank.OneEntryPerChange` | Lecture4/Solution/Task1.rb:21-22 | the old log is a prefix of the new one; one entry is appended exactly when the balance changed, none when it did not |
| `Bank.TransferConserves` | Lecture4/Solution/Task1.rb:60-68 | between distinct accounts a transfer keeps both consistent and the combined balance unchanged; accepted, it debits and credits exactly the amount with one entry each; rejected, it changes neither |
| `Bank.SelfTransferKeepsBalance` | Lecture4/Solution/Task1.rb:58-68 | a transfer from an account to itself keeps its balance and consistency and, when accepted, logs a Withdrawal then a Deposit |
| `Robot.IndexOf` | Lecture4/Solution/Task2.rb:3 | every orientation has a position in ORIENTATIONS, and that position holds it |
| `Robot.BasicRobot.constructor` | Lecture4/Solution/Task2.rb:4-10 | a new robot is at (x, y), faces north, has step 1 |
| `Robot.BasicRobot.TurnClockwise` | Lecture4/Solution/Task2.rb:12-15 | only the orientation changes, to the next one clockwise |
| `Robot.BasicRobot.TurnAnticlockwise` | Lecture4/Solution/Task2.rb:17-20 | only the orientation changes, to the previous one |
| `Robot.BasicRobot.Walk` | Lecture4/Solution/Task2.rb:22-33 | the new state is `Walked` of the old one |
| `Robot.ClockwiseCycle` | Lecture4/Solution/Task2.rb:12-15 | four clockwise turns restore the orientation; each turn changes it and rotates the direction a quarter turn to the right |
| `Robot.AnticlockwiseInverse` | Lecture4/Solution/Task2.rb:17-20 | anticlockwise undoes clockwise both ways; north turns to west |
| `Robot.WalkFollowsDirection` | Lecture4/Solution/Task2.rb:22-33 | walk adds step times the direction vector, so exactly one coordinate changes by ±step; orientation and step unchanged |
| `Robot.WalkTurnAroundWalk` | Lecture4/Solution/Task2.rb:12-33 | walk, two clockwise turns, walk returns to the starting position |
| `Robot.AdvancedRobot.constructor` | Lecture4/Solution/Task2.rb:43-47 | a new advanced robot is the basic robot at (x, y) with the given charge, turbo off, and valid |
| `Robot.AdvancedRobot.Turbo` | Lecture4/Solution/Task2.rb:49-54 | the new state is `Turboed` of the old one; validity is kept |
| `Robot.AdvancedRobot.Walk` | Lecture4/Solution/Task2.rb:56-65 | the new state is `AdvancedWalked` of the old one; validity and a non-negative charge are kept |
| `Robot.TurboArmsOnlyWithCharge` | Lecture4/Solution/Task2.rb:49-54 | turbo arms exactly when charge > 0 (or already armed), changes nothing without charge, never touches charge or position |
| `Robot.AdvancedWalkCost` | Lecture4/Solution/Task2.rb:56-65 | a turbo walk moves 2 units and costs exactly one charge, a plain walk moves 1 and costs nothing; afterwards turbo is off and step is 1 |
| `Robot.RunKeepsCharge` | Lecture4/Solution/Task2.rb:12-65 | over any sequence of turns, walks and turbos the invariant holds, charge never grows, and a non-negative charge stays non-negative |
| `TextUtils.Words` | Lecture3/Solution/Task4/text_utils/lib/text_utils.rb:7 | every word of the split is non-empty and free of whitespace |
| `TextUtils.WordsAtSpace` | Lecture3/Solution/Task4/text_utils/lib/text_utils.rb:7 | every whitespace character separates words: the split of a + [c] + b is the split of a followed by the split of b |
| `TextUtils.WordsOfWord` | Lecture3/Solution/Task4/text_utils/lib/text_utils.rb:7 | a non-empty text without whitespace is exactly one word, itself |
| `TextUtils.WordsCoverText` | Lecture3/Solution/Task4/text_utils/lib/text_utils.rb:7 | joining the words gives the text with its whitespace removed |
| `TextUtils.NoWordsIffBlank` | Lecture3/Solution/Task4/text_utils/lib/text_utils.rb:7 | the split is empty exactly when the text is all whitespace |
| `TextUtils.CamelWords` | Lecture3/Solution/Task4/text_utils/lib/text_utils.rb:10-14 | one piece per word: the first word lowercased, each later word capitalised, in order |
| `TextUtils.CamelCase` | Lecture3/Solution/Task4/text_utils/lib/text_utils.rb:6-16 | the loop's result equals `CamelCaseOf` of the input, None for a blank text |
| `TextUtils.CamelCaseShape` | Lecture3/Solution/Task4/text_utils/lib/text_utils.rb:7-15 | for a non-blank text the output starts with the first word lowercased, has no whitespace, is as long as the text without whitespace and equals it up to case |
| `TextUtils.SingleWord` | Lecture3/Solution/Task4/text_utils/lib/text_utils.rb:9-11 | a single word comes out lowercased |
| `TextUtils.BlankFails` | Lecture3/Solution/Task4/text_utils/lib/text_utils.rb:7-10 | camel_case fails exactly for an empty or all-whitespace text |
| `TextUtils.CaseMappingKeepsNoSpace` | Lecture3/Solution/Task4/text_utils/lib/text_utils.rb:10-13 | lowercasing or capitalising a word without whitespace gives no whitespace |
| `TextUtils.DowncaseCapitalize` | Lecture3/Solution/Task4/text_utils/lib/text_utils.rb:13 | a capitalised word lowercased is the word lowercased |
| `ToBin.ToBin` | Lecture3/Solution/Task2.rb:1-6 | the result is non-negative, zero only for zero, and its last decimal digit is n's last binary digit |
| `ToBin.ToBinShift` | Lecture3/Solution/Task2.rb:5 | dropping toBin(n)'s last decimal digit gives toBin(n / 2) |
| `ToBin.ToBinDoubling` | Lecture3/Solution/Task2.rb:5 | toBin(2k) = 10·toBin(k) and toBin(2k+1) = 10·toBin(k) + 1 |
| `ToBin.ToBinIsBinary` | Lecture3/Solution/Task2.rb:5 | every decimal digit of toBin(n) is 0 or 1 |
| `ToBin.FromBinToBin` | Lecture3/Solution/Task2.rb:1-6 | reading toBin(n)'s digits in base 2 gives n back |
| `ToBin.ToBinFromBin` | Lecture3/Solution/Task2.rb:1-6 | every numeral of 0s and 1s is toBin of its base-2 value |
| `ToBin.DemoValues` | Lecture3/Solution/Task2.rb:8-10 | toBin(7) = 111, toBin(10) = 1010, toBin(2) = 10 |
| `ToBin.NegativeNeverReachesZero` | Lecture3/Solution/Task2.rb:2-5 | from a negative n, halving with floor division stays negative however often it is repeated, so the base case is never reached |

## Left out

- `getStatement`, `get_position` and every `puts` are output. This includes the error messages printed in the `rescue` clauses and the success message of `transfer`. Failures are modelled as "state unchanged" plus an `ok` flag.
- Timestamps (`Time.now.strftime`) are a clock read and are dropped from log entries.
- The Ruby return values of `deposit`, `withdraw` and `transfer` (the log array or `nil`) are not modelled. The methods return the success flag instead.
- `BankAccount.new` with a negative balance raises `ArgumentError`. Dafny constructors cannot fail, so `Account.Open` returns null instead, and the constructor itself requires a non-negative balance.
- Aliasing of the log is not modelled. `attr_reader :transactions` and the return value of `deposit` and `withdraw` hand callers the live `@transactions` array, and a caller that appends to it or clears it breaks "balance == sum of the log" without touching `@balance`. The ledger invariants hold relative to the class's own methods.
- `Bank.Account.Transfer`: its parameters are non-null accounts, so a target without a `deposit` method (such as nil) is not modelled. In Ruby such a target passes both pre-checks, `withdraw` debits the source, and then `deposit` raises `NoMethodError`, which `rescue ArgumentError` does not catch, so the source keeps the debit with no rollback.
- Default arguments are not modelled: `initialBalance = 0` of `BankAccount.new` and `x = 0, y = 0` of both robot constructors. Callers pass 0 explicitly.
- Account numbers, owner names and robot ids are kept as opaque strings and are never validated, as in the source.
- Balances are unbounded integers. Float amounts are not modelled.
- Concurrency and locking are not modelled, because the code is sequential.
- The writers that `attr_accessor` gives the robots are not modelled. The robot invariants hold relative to the classes' own methods.
- Inheritance is modelled by delegation, so an `AdvancedRobot` is not itself a `BasicRobot`. Turning an advanced robot is `body.TurnClockwise()`, and dynamic dispatch of `walk` through a `BasicRobot` reference is not modelled.
- Ruby's `String#split(' ')` and `Array#join` are library calls. `Words` and `Concat` model them as pure functions: `Words` splits at ASCII whitespace (space, tab, newline, vertical tab, form feed, carriage return) and ignores leading and trailing whitespace.
- `downcase` and `upcase` are modelled for ASCII letters only. Unicode case mapping is not modelled.
- `ToBin.ToBin`: requires n >= 0. For negative n the Ruby recursion never reaches its base case and ends in SystemStackError (see `NegativeNeverReachesZero`), so there is no value to model.
- The demo drivers at the bottom of the Ruby files are scripts. They appear only as client checks (`Bank.Demo`, `Robot.Demo`, `ToBin.DemoValues`).
- Lecture2/Solution/Task3.rb is a script of built-in `Hash` calls and printing, and Lecture3/Solution/Task3.rb is lambdas over the clock, Unicode `upcase` and printing. Neither has logic of its own, so they are not part of this model.
