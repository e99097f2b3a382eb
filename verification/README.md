# A verified model of the x402 payer

This project models, in Dafny, the part of `x402-celestia-rpc-payer` that holds money: the
payer that signs payments and keeps its books, the client that drives it, the wire format of
the x402 headers, the configuration rules, and the two commands `init` and `fund` where they
meet the books. It proves what the comments and the documents of the program promise, for all
inputs and all interleavings, and it shows where the code does something else.

`dafny verify dfyconfig.toml` verifies everything.

## How it is built

| file | what it holds |
|---|---|
| `basics.dfy`, `decimal.dfy` | shared types; whole numbers as text |
| `base64.dfy`, `rfc4648.dfy`, `codec.dfy` | the two alphabets of sections 4 and 5 of RFC 4648, and that they are the ones of the standard; the headers and the two protocol versions |
| `config.dfy` | the configuration and the rules for an option, the fee and the budget |
| `polling.dfy` | one answer about a transaction, and the loop that waits for a block |
| `ledger.dfy` | the books (`nextSeq`, `haveSeq`, `spent`, `count`, `open`) and what each operation does to them |
| `payer.dfy`, `client.dfy` | the classes, with the fields and loops of the source, each method against a specification function |
| `system.dfy`, `invariants.dfy` | any number of concurrent calls of `Do`, one lock, and a chain, as a step system; what every step keeps |
| `neverlate.dfy`, `exact.dfy` | the money that left the wallet against the money that is counted |
| `givingback.dfy`, `intime.dfy`, `window.dfy` | when a payment may be given back; the same system with a clock, and how long the poll loop has to wait |
| `sequences.dfy`, `witnesses.dfy` | the signed sequences; runs that the comments do not expect |
| `simulation.dfy` | a call of the class is a run of the step system |
| `initrace.dfy`, `prices.dfy` | racing `init` processes; the price list, the written limit, and what a balance pays for |

What the world does is a parameter: the answers of the sidecar, the clock, cancelled contexts,
failures of the signing library, and the order of steps. Time is a clock: inside one
question its polls advance it, and `intime.dfy` has one for the whole system.
The JSON library is a record of functions with stated laws (`Codec.Lawful`); the signed bytes
and their hash are injective functions (`Payers.LawfulSigner`). `serial` in a payment tells two
payments with the same content apart, as their addresses do in Go.

## Where the code and its comments differ

- `waitForTx` says that an answer "not there" counts only after the time limit. The code keeps
  the first such answer and returns `Absent` at the limit even when every later question
  failed. `StaleAnswerIsReported` gives the answers; `AbsentIsFinal` says exactly when the
  answers behind an `Absent` rule the transaction out.
- "The budget stops early and never late" (payer/payer.go:276-278) needs more than the code
  checks when it gives a payment back. `SafeRunsAreNeverLate` and `NextReleaseExactlyWhen` give the
  exact guard at that moment: the account of the wallet is past the sequence of the payment and no
  block holds it, or another counted payment has the same bytes. The code goes by time instead:
  `NeverLateInTime` proves what that is worth, `InTimeExactlyWhen` that the time limit has to cover
  the window for a block and the age of an answer, and `CancelledIsLate` that a cancelled context
  breaks it. `EarlyAbsentIsLate` repeats the failure without limit, and
  `BudgetIsOverrunExactlyWhen` shows that it takes more than any budget that the sequences of the
  account can pay at all. `LateExactlyWhen` is the balance at any moment.
- "2 payments must not use the same sequence" (payer/payer.go:107-110). `release` makes the
  payer read the sequence of the chain again even while another payment is open, and the signed
  bytes hold no time limit, so the payer can sign the same bytes twice and count both
  (`RefusalMakesTwins`). `FreshExactlyWhen` and `NextTwinsExactlyWhen` give the exact guard: every
  payment that was not given back is below the next sequence in memory, or below the account.
  `GuardMoves` says which steps break it.
- "It never signs a sequence that the chain already holds" (payer/payer.go:276-278) needs an
  account answer that is not older than the chain, or a next sequence in memory:
  `SignsAFreeSequence` is exact, and `StaleAccountSignsInVain` gives the run.
- `makeMnemonic` says that two racing runs cannot cut the same wallet. A reader between two
  pieces of the write keeps a beginning of the mnemonic (`ReadInTheMiddle`); `OneWallet` says
  exactly when it gets all of it, and `OneWalletWhenAtomic` covers an atomic write.
- `callsFor` reads its texts without trimming them, and the payer trims: the same file can give
  0 calls and a working payer. `CallsForReadsExactlyWhen` says for which files.

## Model

| member | source | states |
|---|---|---|
| `Rfc4648.LettersAreTheTables` | x402/codec.go:11-17 | the letters are those of tables 1 and 2 of RFC 4648, in both directions |
| `Rfc4648.EncodeIsTheStandard` | x402/codec.go:11-17 | a text is the encoding of some bytes exactly when section 4 of RFC 4648 says so: groups of 24 bits as four letters, zero bits and padding signs at the end |
| `Rfc4648.DecodeIsTheStandard` | x402/codec.go:98-103 | a text without line ends decodes to some bytes exactly when it is letters and padding that hold them; the bits that no byte uses are ignored |
| `Rfc4648.LineEndsDoNotMatter` | x402/codec.go:98-103 | a line end changes nothing, wherever it stands |
| `Base64.DecodeEncode` | x402/codec.go:11-17 | each alphabet reads back the bytes that it wrote, for every byte sequence |
| `Base64.AlphabetsAgree` | x402/codec.go:98-103 | a text that both alphabets accept means the same bytes in both, for every text |
| `Base64.TriesInEitherOrder` | x402/codec.go:98-103 | the order of the two attempts never shows in the result |
| `Base64.DecodeBase64Inverts` | x402/codec.go:98-103 | the reader inverts both encodings |
| `Base64.FirstAttemptTakesStandard` | x402/codec.go:19-22 | the first attempt takes a standard text exactly when that text is its own base64url |
| `Base64.MixedTextIsRefused` | x402/codec.go:98-103 | a text that mixes the two alphabets is refused by both attempts |
| `Codec.RequiredRoundTrip` | x402/codec.go:70-95 | a written 402 answer reads back, in either alphabet, exactly when it does not claim version 1 |
| `Codec.PayloadRoundTrip` | x402/codec.go:36-64 | the same for the payment header |
| `Codec.VersionOneComesOutAsTwo` | x402/codec.go:31-95 | a message of version 1 comes out as version 2: the same options in order, or the scheme and the network in an option that is empty otherwise |
| `Codec.OtherVersionsComeOutAsTheyRead` | x402/codec.go:31-95 | a message of any other version comes out as it reads, exactly when it is readable |
| `Codec.BraceIsPlain` | x402/codec.go:66-80 | a text with an opening brace is never taken as base64, and a plain v1 answer comes out as version 2 with its options |
| `Codec.ThreeFormsOneValue` | x402/codec.go:66-80 | plain text, base64url and standard base64 of one object give one value |
| `Codec.ParseIsNormal` | x402/codec.go:66-95 | no reader sees version 1, and parsing, writing and parsing again is a normal form |
| `Config.LoadsExactlyWhen` | payer/config.go:137-207 | a file with its defaults is valid exactly when the network and the numbers and the URL that its user wrote are in order; it then pays with those numbers, and with the documented ones where there are none |
| `Config.File.Load` | payer/config.go:97-102 | filling in the fields and checking them gives that result |
| `Config.ValidFilePays` | payer/config.go:167-207 | a validated configuration has a readable fee and a limit above 0, and accepts every printed price exactly up to that limit |
| `Config.WhiteSpaceIsIgnored` | payer/config.go:274-284 | white space around a printed number changes no amount that the payer reads |
| `Config.FileRefusedExactlyWhen` | payer/config.go:167-207 | for which reason a file is refused |
| `Config.RefusedExactlyWhen` | payer/payer.go:388-416 | for which reason an option is refused |
| `Decimal.ParsePrint` | payer/payer.go:226 | the amount text in a payload reads back as the counted amount |
| `Decimal.PrintParse` | payer/payer.go:404-407 | printing a parsed number gives the text back exactly when the text was canonical |
| `Decimal.NumberShapes` | payer/payer.go:404-407 | a text reads as a number exactly when it is figures, with at most one sign in front |
| `Decimal.NumberValues` | payer/payer.go:404-407 | with a plus sign it reads the same, and with a minus sign as the negative number |
| `Decimal.PlaceByPlace` | payer/payer.go:226 | numbers are printed in decimal figures, place by place |
| `Decimal.SpacesAreTheTable` | payer/config.go:276 | white space is the 25 characters of Unicode |
| `Decimal.TrimIsExact` | payer/config.go:276 | trimming takes the white space on both sides, and nothing else |
| `Decimal.FirstFieldIsExact` | cmd/x402-celestia-rpc-payer/init.go:199-203 | the first field of a text is its first word |
| `Polling.WaitStops` | payer/payer.go:360-384 | the loop goes on exactly while nothing is found and time and context last, and stops at the first find |
| `Polling.WaitReports` | payer/payer.go:362-381 | in a block exactly when the last poll found it; absent exactly when nothing was found and some poll was answered |
| `Polling.WaitIsBounded` | payer/payer.go:360-384 | at least one poll and at most ceil(wait / interval) + 1 |
| `Polling.DefaultsAskSevenTimesAtMost` | payer/payer.go:83-90 | the default timing asks at most 7 times |
| `Polling.AbsentIsFinal` | payer/payer.go:355-381 | the answers behind an `Absent` rule the transaction out exactly when the last question was answered and the loop went on to the end of its time |
| `Polling.LiveAbsentIsFinal` | payer/payer.go:370-377 | with a context that lives through the last turn, exactly when the last question was answered; and exactly then some denial arrived when the time was over |
| `Polling.StaleAnswerIsReported` | payer/payer.go:370-377 | absent can rest on one answer that a block overtook while the later questions failed |
| `Polling.SilenceIsUnknown` | payer/payer.go:362-366 | unknown exactly when every poll failed |
| `Polling.NoReadableAnswerIsUnknown` | payer/account.go:114-146 | answers that are not a readable 200 are silence, and any readable one is not |
| `Polling.AnswersDecide` | payer/account.go:114-146 | in a block with a code exactly when the last answer is a readable 200 that says so; absent exactly when it is not, and some readable 200 denies it |
| `Ledgers.ResolveAll` | payer/payer.go:333-352 | answering the open payments one by one equals filtering, refunding and counting down by all answers at once |
| `Ledgers.UndecidedMembers` | payer/payer.go:333-339 | the payments that stay open are exactly those without an answer |
| `Payers.Payer.constructor` | payer/payer.go:138-150 | a new payer has empty books |
| `Payers.Payer.Open` | payer/payer.go:296-304 | the hashes of the open payments, in order |
| `Payers.Payer.WaitForTx` | payer/payer.go:360-384 | the loop computes the specified outcome |
| `Payers.Payer.Release` | payer/payer.go:308-318 | the whole new state of the books after a release |
| `Payers.Payer.Rollback` | payer/payer.go:261-268 | the same for a payment, and nothing for none |
| `Payers.Payer.Append` | payer/payer.go:291 | the payment goes to the end of the list, in place or in a new array |
| `Payers.Payer.Unresolved` | payer/payer.go:279-292 | a payment with a hash stays counted and open; one without goes back |
| `Payers.Payer.ResolveSlot` | payer/payer.go:333-351 | one turn in the shared array: the slot that it writes was read before, and the rest is unchanged |
| `Payers.Payer.ResolveOpen` | payer/payer.go:328-353 | filtering in place gives the order-preserving list, the exact refunds, and a cleared sequence exactly after an absent payment |
| `Payers.Payer.Sign` | payer/payer.go:198-251 | budget, account, sequence, signature and commit, with every error path |
| `Payers.Payer.Pay` | payer/payer.go:178-251 | the books and the result of a whole payment |
| `Payers.PaySucceedsExactlyWhen` | payer/payer.go:178-251 | exactly when a payment is made, and exactly when the budget, the account or the signature stops it |
| `Payers.FailedPayCommitsNothing` | payer/payer.go:178-251 | an error leaves the books as they were, or as asking the chain alone leaves them |
| `Payers.HeaderTellsTheTruth` | payer/payer.go:212-250 | the signed transaction field by field, for the chain that the network names; the header is its base64url form, and what the sidecar reads out of it is the accepted option, the recipient, the counted amount, and the transaction behind the hash |
| `Clients.FirstUsableCandidate` | payer/client.go:208-241 | the first of header, plain body and JSON-RPC data that names an option wins |
| `Clients.PickIsFirst` | payer/client.go:243-257 | the first option of the network, and none exactly when no option has it |
| `Clients.Client.PickOption` | payer/client.go:244-257 | the loop finds that option, or names every network that it saw |
| `Clients.Client.Do` | payer/client.go:74-153 | the books, the number of payments made and the result of a whole call, with or without a wallet |
| `Clients.Client.Settle` | payer/client.go:122-153 | the books after the second answer |
| `Clients.PaysExactlyWhen` | payer/client.go:74-117 | `Do` signs exactly when the first answer is a readable 402 that offers an option of the network and the payer can pay the first such option; any other answer goes back as it came |
| `Clients.PaidExactlyWhen` | payer/client.go:122-153 | for every answer: a refusal is a second 402, or a header that reads as "failed" in one of the alphabets, and nothing else; the receipt names the counted amount, and only a refusal changes the books |
| `Clients.DoDisposesOnce` | payer/client.go:67-72 | at most two requests, the second exactly after a signature, and one disposal of what was signed |
| `Clients.SignedOptionIsTheWantedOne` | payer/client.go:97-117 | a signed transaction pays the first option of the configured network, within all limits, whatever the sidecar sends |
| `Invariants.StepKeeps` | payer/client.go:108-146 | every step of every call, and of the chain, keeps the invariant |
| `Invariants.BudgetHolds` | payer/payer.go:418-434 | in every interleaving the counted money is the sum over the payments, not negative, and within a budget that is set |
| `Invariants.OneUndecidedAtMost` | payer/client.go:108-110 | at most one signed and undecided payment, exactly one disposal of every other one, at most two requests and one signature for each call |
| `Invariants.WorstCase` | payer/payer.go:237-241 | the payments that stand cost at most the limit and the fee each |
| `NeverLate.OutflowIsCounted` | payer/payer.go:270-278 | in every interleaving the money that left is at most the counted money plus what the chain took for payments that were given back |
| `NeverLate.NeverLate` | payer/payer.go:276-278 | the budget is never late if what was given back stays off the chain |
| `Exactness.BooksAreExact` | payer/payer.go:270-278 | conservation in every honest state: outflow, plus what the books count for repeated bytes, plus what they count and the chain did not take, equals the counted money plus what the chain took for payments that were given back |
| `Exactness.LateExactlyWhen` | payer/payer.go:276-278 | at any moment of any honest run, how late the books are: the last of these sums less the two others; each is above 0 exactly when there is such a payment, and nothing is pending once everything is decided |
| `GivingBack.SafeRunsAreNeverLate` | payer/payer.go:276-278 | never late, whatever blocks come later, if each payment that is given back is gone (the account is past it and no block holds it) or covered by another one |
| `GivingBack.NeverTakenExactlyWhen` | payer/payer.go:255-257 | no blocks ever take a transaction exactly when it is gone |
| `GivingBack.NextReleaseExactlyWhen` | payer/payer.go:308-318 | the guard is exact: after any run of safe releases, a release leaves every transaction counted that blocks can bring exactly when it is safe too |
| `InTime.NeverLateInTime` | payer/payer.go:355-384 | with a clock and laws on single steps: if the time limit of the loop covers the window for a block and the age of an answer, and every `Absent` comes from a last question that was answered when the time was over, the budget is never late |
| `InTime.LoopIsWait` | payer/payer.go:360-384 | the polls of that system end as the loop of the class does, with its outcome |
| `InTime.CourseIsARun` | payer/payer.go:320-353 | a course of that system is an honest run of the system without a clock |
| `Windows.InTimeExactlyWhen` | payer/payer.go:83-90 | the time limit is long enough exactly when it covers the window and the age of an answer |
| `Windows.CancelledIsLate` | payer/payer.go:375-380 | whatever the time limit, one question whose context is cancelled makes the books late |
| `Sequences.SignsAboveAll` | payer/payer.go:207-210 | a sequence is never below the reported one; exactly when it is above those of all live payments, and exactly when it is above the newest |
| `Sequences.FreshExactlyWhen` | payer/payer.go:107-110 | in every reachable state: the next sequence differs from those of all live payments, whatever account from a given number on is reported, exactly when it goes past each of them |
| `Sequences.GuardMoves` | payer/payer.go:237-238 | which steps keep, set and clear that guard, exactly |
| `Sequences.TwinsExactlyWhen` | payer/payer.go:107-110 | a call about to read its account cannot be made to sign live bytes again exactly when the next signature goes past the live payments of its terms |
| `Sequences.GuardedRunsHaveNoTwins` | payer/payer.go:107-110 | where every signature goes past them, no two live payments share their bytes, and where it goes past all live payments, none share a sequence, in every interleaving with any releases |
| `Sequences.NextTwinsExactlyWhen` | payer/payer.go:107-110 | over runs: guarded signatures never make twins, and the first unguarded one can |
| `Sequences.SignsAFreeSequence` | payer/payer.go:276-278 | some block can still take what the payer signs exactly when the reported account, or the payer's own next sequence, is not behind the chain |
| `Sequences.SequencesRise` | payer/payer.go:107-110 | in any stretch without a release the signed sequences strictly rise |
| `Sequences.ExactWithoutRelease` | payer/payer.go:270-278 | without a release the books are ahead of the outflow by what the chain did not take yet, and exact once everything is decided, with no other condition on the chain |
| `Witnesses.EarlyAbsentIsLate` | payer/payer.go:339-340 | in every setup whose budget has room for one payment: after any number of rounds of an absent answer that came too early, the books count one payment and all of them are gone |
| `Witnesses.BudgetIsOverrunExactlyWhen` | payer/payer.go:276-278 | for a budget that is set and a sidecar that asks for the limit: an honest run takes more than the budget from the wallet exactly when all sequences of the account can pay more than the budget |
| `Witnesses.StaleAccountSignsInVain` | payer/payer.go:276-278 | a stale account answer makes a new payer sign what no block will ever take |
| `Witnesses.RefusalMakesTwins` | payer/payer.go:308-309 | in every setup whose budget has room for two payments, a refusal after a lost payment makes the payer sign the same bytes twice |
| `Witnesses.SilenceNeverRefunds` | payer/payer.go:322-325 | a payment about which nobody learns anything stays open and counted in every interleaving |
| `Simulation.DoIsARun` | payer/client.go:74-153 | a call of the class is a run of its thread in the step system |
| `Simulation.Serve` | payer/client.go:39-42 | on the class: after any calls the books are those of `DoAll`; from a new payer the money that `Spent` reports is within the budget, and in a silent world no lost payment is forgotten or refunded |
| `Simulation.DoAllIsARun` | payer/client.go:39-42 | calls one after the other are a run of the step system |
| `Simulation.ClassKeepsTheBudget` | payer/payer.go:418-434 | the budget bounds that `Serve` hands on, after any calls in any world |
| `Simulation.MuteCallsKeepOpen` | payer/payer.go:322-325 | the silence that `Serve` hands on: calls in a silent world forget and refund no lost payment |
| `InitRace.OneWallet` | cmd/x402-celestia-rpc-payer/init.go:228-255 | at most one process makes the file, at most one mnemonic is generated, all processes use that one, and a reader returns it exactly when it read all of it |
| `InitRace.ReadKeeps` | cmd/x402-celestia-rpc-payer/init.go:276-284 | a process that finds the file keeps what is in it without the white space around it, and fails exactly when there is nothing else |
| `InitRace.AloneMakesIt` | cmd/x402-celestia-rpc-payer/init.go:233-255 | a process without a rival makes the file, with its own mnemonic on one line |
| `InitRace.OneWalletWhenAtomic` | cmd/x402-celestia-rpc-payer/init.go:228-255 | with an atomic write every process that succeeds returns the one mnemonic that was generated, and the file holds its line |
| `InitRace.ContentChangesOnce` | cmd/x402-celestia-rpc-payer/init.go:233-255 | with an atomic write the content of the file changes at most once, from nothing to that line |
| `InitRace.ReadInTheMiddle` | cmd/x402-celestia-rpc-payer/init.go:276-284 | a read between two pieces of the write keeps another mnemonic |
| `Prices.Costliest` | cmd/x402-celestia-rpc-payer/init.go:188-212 | the highest price and the least name that has it, or nothing exactly when no method has a price |
| `Prices.CostliestIsUnique` | cmd/x402-celestia-rpc-payer/init.go:193-194 | the order of the map cannot change the answer |
| `Prices.EveryListedPricePasses` | cmd/x402-celestia-rpc-payer/init.go:77-80 | with the limit that `init` writes, every price on the list passes the rules of the payer |
| `Prices.LimitIsExact` | cmd/x402-celestia-rpc-payer/init.go:58-80 | with the limit that `init` writes, an option passes exactly up to the highest price, or up to 20000 where no method has a price |
| `Prices.PriceIsTheFirstWord` | cmd/x402-celestia-rpc-payer/init.go:199-206 | the price of a text is its first word, if that is a number above 0 |
| `Prices.BeforeIsLexicographic` | cmd/x402-celestia-rpc-payer/init.go:193-194 | the order of the names is the one of Go's strings |
| `Prices.CallsForIsQuotient` | cmd/x402-celestia-rpc-payer/fund.go:168-172 | the number is the quotient exactly when the quotient fits 64 bits |
| `Prices.ToInt64Wraps` | cmd/x402-celestia-rpc-payer/fund.go:172 | the result is the quotient modulo 2^64, as a signed number |
| `Prices.CallsForIsZero` | cmd/x402-celestia-rpc-payer/fund.go:155-171 | without three numbers, or with a worst price that is not above 0, the number is 0 |
| `Prices.CallsForReadsExactlyWhen` | cmd/x402-celestia-rpc-payer/fund.go:155-167 | for every file that the payer reads, the number is that of its price and fee exactly when both texts are trimmed as they stand, or that number is 0 |
| `Prices.CallsForIsGreatest` | cmd/x402-celestia-rpc-payer/fund.go:155-173 | the greatest number of calls that a balance covers at the worst price |
| `Prices.CallsAreAffordable` | cmd/x402-celestia-rpc-payer/fund.go:153-173 | while the payer counts no more payments than that, it spent no more than the balance, in every interleaving |

## Left out

- HTTP transport, request building, body limits and the proxy: a reply is a value that the world chooses.
- Key derivation, addresses, signing and protobuf: the signed bytes and the hash are injective functions.
- JSON and YAML text: abstract readers and writers with laws; the layout of raw messages is kept apart as `Tidy…`.
- The account route (payer/account.go:84-103): the account is a number and a sequence, or an error.
- The lock inside `Payer` and the calls of `Spent` and `Open` by other goroutines: they only read, so the step system has no step for them; the lock of the client is modelled.
- `spent` is a big integer changed in place in the source; the model has a value, so aliasing of that integer is not captured.
- Integers below 64 bits in width: heights, status codes and counts are unbounded; sequences wrap.
- `writeConfigFile`, file modes, messages, flags, the waiting loop of `fund`, and the address of the wallet: no property of the books depends on them.
- Encoding what was decoded: Go's decoder skips line ends and ignores unused bits, so only decoding after encoding is an identity.
