# Cross-border funds transfer chaincode, modelled in Dafny

This project models the `banks` chaincode of a Hyperledger Fabric network.
The chaincode keeps three kinds of records on the ledger:

- banks, with reserves in their home currency;
- customers, with a balance in their home currency and a reference to their bank;
- forex pairs `FROM:TO`, with a conversion rate.

It offers seven operations: seeding (`initLedger`), a full listing (`queryAll`), a
point read (`query`), a cross-currency payment (`pay`), and three write-if-absent
creations (`createBank`, `createCustomer`, `createForex`).

The ledger stub becomes the class `Contract.Ledger`. Its field `state` maps keys
to records and is updated in place by the handler methods. Its constant field
`faults` lists the keys whose `PutState` the store refuses, with the error text
the store returns. Each handler method is proved against a pure function of the
old state:

- `Loader.Load` for the three batch loaders, which share one loop (`WriteRecords`);
- `Transfer.PayEffect`, built from `Transfer.PlanPay` (the reads and the two
  gates) and `Transfer.RunWrites` (the four writes in order), for `pay`;
- `Framing.Framed` for the `queryAll` text;
- `Dispatch.Route` and `Contract.Invocation` for `Invoke`.

The lemmas state the chaincode's promises about those functions.

Modules: `Wrappers` (Option), `Domain` (records, keys, decode-or-default),
`Decimal` (the reading of numeric arguments), `Loader`, `Transfer`, `Framing`,
`Dispatch`, `Contract`.

Where a description of the system and the code disagree, the model follows the code:

- `initLedger` checks no argument count. The handler takes no arguments from `Invoke`.
- `pay` with the wrong argument count answers "Incorrect number of arguments. Expecting 2",
  although it needs three. The model keeps that text.
- Value is conserved by `pay` only when its four keys are distinct. When both
  customers bank at the same bank, that bank is re-read from the ledger after its
  debit was computed in memory, so its last write overwrites the debit. Its
  reserves then end `amount * rate` higher (`Transfer.PaySharedBank`,
  `Contract.SharedBankScenario`), even at the identity rate.

Absent records read as zero values, as `json.Unmarshal` of nil bytes leaves a
zero struct. A record of another kind decodes into the fields whose JSON tags the
two types share. Bank and Customer share `name`, `country` and `currency`; Forex
shares no tag with either. The model states this exactly, so no precondition
rules it out.

## Model

| member | source | states |
|---|---|---|
| Domain.AsCustomer | chaincode/banks/banks.go:253-256 | an absent key reads as the zero Customer; a stored Customer reads as itself; a Bank or Forex reads with balance 0, empty custID and empty bank reference |
| Domain.AsBank | chaincode/banks/banks.go:286-289 | an absent key reads as the zero Bank; a stored Bank reads as itself; any other record reads with reserves 0 and an empty bankID |
| Domain.AsForex | chaincode/banks/banks.go:280-283 | only a stored Forex gives its rate; an absent key or another record gives the zero Forex (rate 0) |
| Domain.Lookup | chaincode/banks/banks.go:128 | GetState gives a record exactly when the key is present, and then the stored one |
| Domain.CustomerKey | chaincode/banks/banks.go:167 | definition, no contract of its own: name, "_", custID; what is stored under it is stated by Loader.LoadInsertsAll and Contract.CreateCustomerOnFreeKey |
| Domain.KeyOf | chaincode/banks/banks.go:127-171 | definition, no contract of its own: Pair, BankID or CustomerKey by record kind; stated through Loader.LoadSingle, Loader.LoadInsertsAll and Loader.LoadSucceedsIff |
| Domain.DuplicateMessage | chaincode/banks/banks.go:135-177 | definition, no contract of its own: the three "already exists" texts, each with the record's key; returned as stated by Loader.LoadStopsAt and Loader.LoadSingle |
| Decimal.ParseFloat | chaincode/banks/banks.go:250 | definition, no contract of its own: an optional sign, digits and an optional fraction, otherwise a parse error; stated by Decimal.ParseFormatNat, Decimal.ParseNegated and Decimal.NonNumeralsReadAsZero |
| Decimal.ParseAmount | chaincode/banks/banks.go:250 | definition, no contract of its own: the parsed value, 0 on a parse error; stated by the Decimal lemmas below |
| Decimal.ParseFormatNat | chaincode/banks/banks.go:250 | the decimal numeral of any natural number n parses back to n |
| Decimal.ParseNegated | chaincode/banks/banks.go:356 | a minus sign before a numeral negates its value |
| Decimal.ParseSignedFraction | chaincode/banks/banks.go:378 | "-12.25" reads as -12.25 |
| Decimal.NonNumeralsReadAsZero | chaincode/banks/banks.go:397 | text that is not a numeral ("", "-", ".", "abc") reads as 0, because the parse error is ignored |
| Decimal.ParseWholeNumerals | chaincode/banks/banks.go:250 | "100" and "1000" read as those amounts |
| Decimal.ParseLargeNumeral | chaincode/banks/banks.go:250 | "999999" reads as that amount |
| Loader.Load | chaincode/banks/banks.go:125-181 | definition, no contract of its own: the loader loop as a function of the batch; its properties are the Loader lemmas below, and Contract.Ledger.WriteRecords is proved equal to it |
| Loader.LoadSingle | chaincode/banks/banks.go:126-140 | a one-record batch gives the duplicate error on a taken key, the store's error on a refused key, and otherwise stores the record under its key with success |
| Loader.LoadNeverOverwrites | chaincode/banks/banks.go:125-181 | a loader never changes or removes a record already on the ledger |
| Loader.LoadAppend | chaincode/banks/banks.go:126-139 | records are processed in input order; the rest of a batch runs only if the part before it succeeded |
| Loader.LoadSucceedsIff | chaincode/banks/banks.go:144-162 | a batch succeeds exactly when every key is absent, writable and used once |
| Loader.LoadInsertsAll | chaincode/banks/banks.go:165-181 | a successful batch stores each record under its derived key, adds no other key, keeps every old record |
| Loader.LoadStopsAt | chaincode/banks/banks.go:135-138 | at the first taken key: the duplicate error, that record kept, nothing later attempted; at the first refused write: the store's error, nothing later attempted |
| Loader.LoadTwice | chaincode/banks/banks.go:129-138 | loading a successful batch again changes nothing and reports the first key as a duplicate |
| Loader.LoadSettlesFirstKey | chaincode/banks/banks.go:127-138 | after a batch its first key holds a record or is refused by the store |
| Loader.LoadIdempotent | chaincode/banks/banks.go:125-181 | re-running any batch on its own result leaves the ledger unchanged |
| Transfer.FundsMessage | chaincode/banks/banks.go:265 | definition, no contract of its own: the customer-funds refusal text; returned as stated by Transfer.CustomerGate |
| Transfer.ReservesMessage | chaincode/banks/banks.go:294 | definition, no contract of its own: the bank-reserves refusal text; returned as stated by Transfer.BankGate |
| Transfer.TransferWrites | chaincode/banks/banks.go:312-333 | definition, no contract of its own: the four puts in order, each with its failure text; stated by the PayWrites and write-refused lemmas |
| Transfer.Planned | chaincode/banks/banks.go:298-310 | definition, no contract of its own: the records as updated in memory; stated by Transfer.PlannedWrites |
| Transfer.PlanPay | chaincode/banks/banks.go:252-310 | definition, no contract of its own: the two gates, then the writes; stated by Transfer.CustomerGate, Transfer.BankGate and Transfer.PlanPayCommits |
| Transfer.RunWrites | chaincode/banks/banks.go:312-339 | definition, no contract of its own: the puts up to the first refused one; Contract.Ledger.WriteTransfer is proved equal to it |
| Transfer.PayEffect | chaincode/banks/banks.go:244-340 | definition, no contract of its own: pay as a function of the ledger; Contract.Ledger.Pay is proved equal to it and the Transfer lemmas state its effects |
| Transfer.CustomerGate | chaincode/banks/banks.go:263-267 | pay refuses with the customer-funds message exactly when the source balance is below the amount, and the ledger is unchanged |
| Transfer.BankGate | chaincode/banks/banks.go:292-296 | past the customer gate, pay refuses with the bank-reserves message exactly when the source bank's reserves are below the unconverted amount, and the ledger is unchanged |
| Transfer.GatesWriteNothing | chaincode/banks/banks.go:264-296 | a refusal by either gate writes nothing |
| Transfer.PlanPayCommits | chaincode/banks/banks.go:252-310 | with the records as read and both gates passed, pay commits the four writes: source customer and bank less the amount, destination customer and the bank it names plus amount * rate |
| Transfer.PlannedWrites | chaincode/banks/banks.go:298-310 | past both gates, the four writes go to the source customer, destination customer, source bank and destination bank keys, each carrying the record read with its balance or reserves moved by the amount or by amount * rate |
| Transfer.PayWrites | chaincode/banks/banks.go:298-333 | past both gates with no refused write, the ledger is the old one with the four writes applied in order |
| Transfer.PaySourceWriteRefused | chaincode/banks/banks.go:313-317 | a refused source-customer write ends pay with the FROM-customer message before any write |
| Transfer.PayDestinationWriteRefused | chaincode/banks/banks.go:319-323 | a refused destination-customer write ends pay with the TO-customer message after exactly the source-customer write |
| Transfer.PaySourceBankWriteRefused | chaincode/banks/banks.go:324-328 | a refused source-bank write ends pay with the FROM-bank message after exactly the two customer writes |
| Transfer.PayDestinationBankWriteRefused | chaincode/banks/banks.go:329-333 | a refused destination-bank write ends pay with the TO-bank message after exactly the first three writes |
| Transfer.PayDistinct | chaincode/banks/banks.go:298-333 | over four distinct keys: source customer and source bank each lose exactly amount, destination customer and bank each gain exactly amount * rate, nothing else changes |
| Transfer.PayMissingSource | chaincode/banks/banks.go:253-267 | an absent source customer makes any positive amount fail the customer gate |
| Transfer.PayMissingRate | chaincode/banks/banks.go:279-333 | an absent rate credits 0: the destination bank keeps its reserves whatever the aliasing, and the destination customer keeps its balance unless its key is also a bank key |
| Transfer.PayMissingDestinationBank | chaincode/banks/banks.go:305-310 | an absent destination bank is written as a zero Bank with reserves amount * rate, whichever of the other keys coincide |
| Transfer.PaySelf | chaincode/banks/banks.go:313-323 | paying oneself leaves the customer at old + amount * rate: the debit is lost |
| Transfer.PaySharedBank | chaincode/banks/banks.go:306-333 | with one bank behind both customers (a self-payment included), the bank ends at old + amount * rate: the debit is lost; over distinct customer and bank keys the source customer keeps its debit |
| Transfer.PayIdentityRateConserves | chaincode/banks/banks.go:299-310 | over four distinct keys at rate 1 the two balances and two reserves sum to what they did before |
| Framing.Member | chaincode/banks/banks.go:213-221 | definition, no contract of its own: the key in quotes and the record text as one array member; stated by Framing.FramedSingle |
| Framing.Piece | chaincode/banks/banks.go:209-221 | definition, no contract of its own: a member, after "\n," unless it is the first; stated by Framing.MembersStep |
| Framing.Members | chaincode/banks/banks.go:204-223 | definition, no contract of its own: the members in scan order; stated by Framing.MembersStep, Framing.MembersPrefix and Framing.MemberInPlace |
| Framing.Framed | chaincode/banks/banks.go:199-224 | definition, no contract of its own: "[", the members, "\n]"; Framing.FrameResults is proved equal to it |
| Framing.MembersStep | chaincode/banks/banks.go:209-222 | one more result appends its member, preceded by "\n," unless it is the first |
| Framing.MembersPrefix | chaincode/banks/banks.go:204-223 | the text for the first results of a scan is a prefix of the text for the whole scan: later results only append |
| Framing.MemberInPlace | chaincode/banks/banks.go:204-223 | member i sits after the members of the results before it and before those after it |
| Framing.FramedSingle | chaincode/banks/banks.go:201-224 | a single result is framed as "[", its member, "\n]", with no separator |
| Framing.FrameResults | chaincode/banks/banks.go:199-224 | the loop builds "[", the members, "\n]"; no results give "[\n]" |
| Dispatch.Handler | chaincode/banks/banks.go:68-82 | definition, no contract of its own: the seven names with the argument count each handler checks (186, 235, 246, 353, 375, 393), initLedger with none; stated through Dispatch.Route and Dispatch.RoutedNames |
| Dispatch.Message | chaincode/banks/banks.go:84-394 | definition, no contract of its own: the invalid-name text (84) and each handler's argument-count text (187, 236, 247, 354, 376, 394); returned as stated by Contract.UnknownFunctionRefused and Contract.WrongArgCountRefused |
| Dispatch.Route | chaincode/banks/banks.go:63-85 | a call is routed exactly when its name is initLedger, or one of the six others with its handler's argument count, and then to the handler of that name; an unknown name gets the invalid-name refusal, a wrong count the argument-count refusal |
| Dispatch.RouteReachesEveryHandler | chaincode/banks/banks.go:68-82 | every handler is reached by its own name with the argument count it demands |
| Dispatch.RoutedNames | chaincode/banks/banks.go:68-84 | exactly seven names escape the invalid-function refusal |
| Dispatch.RouteDecodes | chaincode/banks/banks.go:235-399 | each routed request takes its fields from the argument positions its handler uses: the key of query, (from, to, amount) of pay, the five, six and two fields of the create handlers |
| Contract.InitLedgerEffect | chaincode/banks/banks.go:88-121 | definition, no contract of its own: the forex, customer and bank loads over the seed records of lines 89-115 (the constants SeedBanks, SeedCustomers, SeedForex), results ignored; stated by Contract.InitLedgerIdempotent and Contract.InitLedgerSucceeds |
| Contract.Execute | chaincode/banks/banks.go:68-82 | definition, no contract of its own: each routed request run by its handler; stated by the Contract lemmas below |
| Contract.Invocation | chaincode/banks/banks.go:63-85 | definition, no contract of its own: routing, then the handler; Contract.Ledger.Invoke is proved equal to it |
| Contract.Ledger.GetState | chaincode/banks/banks.go:239 | the record under a key, or none when absent |
| Contract.Ledger.PutState | chaincode/banks/banks.go:131-134 | stores the record unless the store refuses the key, then returns its error and changes nothing |
| Contract.Ledger.WriteRecords | chaincode/banks/banks.go:126-140 | the shared loader loop leaves the ledger and the response of Load |
| Contract.Ledger.WriteForexToLedger | chaincode/banks/banks.go:125-141 | Load over forex records keyed by Pair |
| Contract.Ledger.WriteBankToLedger | chaincode/banks/banks.go:144-162 | Load over bank records keyed by BankID |
| Contract.Ledger.WriteCustomerToLedger | chaincode/banks/banks.go:165-181 | Load over customer records keyed by Name + "_" + CustID |
| Contract.Ledger.InitLedger | chaincode/banks/banks.go:88-122 | runs the forex, customer and bank loaders in that order on the seed records and always succeeds |
| Contract.Ledger.QueryAll | chaincode/banks/banks.go:184-229 | answers the framed text of the scanned results |
| Contract.Ledger.Query | chaincode/banks/banks.go:233-241 | answers the stored record, nil when the key is absent |
| Contract.Ledger.Pay | chaincode/banks/banks.go:244-340 | leaves the ledger and the response of PayEffect |
| Contract.Ledger.Settle | chaincode/banks/banks.go:298-333 | debits and credits the records in memory, re-reads the destination bank, and leaves the ledger and response of RunWrites over those four writes |
| Contract.Ledger.WriteTransfer | chaincode/banks/banks.go:312-339 | the four puts in order, stopping at the first refused one with its message: the ledger and response of RunWrites |
| Contract.Ledger.CreateBank | chaincode/banks/banks.go:351-361 | a one-bank load whose result is ignored; always succeeds |
| Contract.Ledger.CreateCustomer | chaincode/banks/banks.go:373-384 | a one-customer load whose result is ignored; always succeeds |
| Contract.Ledger.CreateForex | chaincode/banks/banks.go:391-403 | a one-pair load whose result is ignored; always succeeds |
| Contract.Ledger.Invoke | chaincode/banks/banks.go:63-85 | leaves the ledger and the response of Invocation |
| Contract.UnknownFunctionRefused | chaincode/banks/banks.go:84 | any other name answers "Invalid Smart Contract function name." and changes nothing |
| Contract.WrongArgCountRefused | chaincode/banks/banks.go:186-395 | a wrong argument count for any of the six checking handlers (lines 186-188, 235-237, 246-248, 353-355, 375-377, 393-395) is refused with that handler's message before the ledger is touched |
| Contract.InitLedgerSucceeds | chaincode/banks/banks.go:117-121 | initLedger reports success whatever its loaders met |
| Contract.CreateOnTakenKey | chaincode/banks/banks.go:359-360 | creating a record whose key is taken reports success and leaves the ledger exactly as it was |
| Contract.CreateBankOnFreeKey | chaincode/banks/banks.go:351-361 | createBank on a free, writable bankID stores the bank of its five arguments, reserves parsed, and succeeds |
| Contract.CreateCustomerOnFreeKey | chaincode/banks/banks.go:373-384 | createCustomer on a free, writable name + "_" + custID stores the customer of its six arguments, balance parsed, and succeeds |
| Contract.CreateForexOnFreeKey | chaincode/banks/banks.go:391-403 | createForex on a free, writable pair stores the pair with its rate parsed, and succeeds |
| Contract.CreateAlwaysSucceeds | chaincode/banks/banks.go:381-383 | the create handlers report success whatever the loader met |
| Contract.InitLedgerIdempotent | chaincode/banks/banks.go:89-121 | running initLedger again changes nothing |
| Contract.InvokePay | chaincode/banks/banks.go:246-250 | Invoke("pay", [from, to, amount]) is the payment with the amount as parsed |
| Contract.CrossCurrencyScenario | chaincode/banks/banks.go:244-340 | Invoke("pay") with the text "1000" from US_John_Doe_123 to UK_Alice_456 at 0.75: balances 9000 and 10750, reserves 999000 and 1000750 |
| Contract.CrossCurrencyPayment | chaincode/banks/banks.go:298-333 | the same payment at the parsed amount 1000: the four records after the writes |
| Contract.InsufficientFundsScenario | chaincode/banks/banks.go:246-267 | Invoke("pay") with the text "999999" from US_John_Doe_123 is refused naming US_John_Doe / 123 and changes nothing |
| Contract.InsufficientFundsPayment | chaincode/banks/banks.go:263-267 | the same payment at the parsed amount 999999: the customer-funds refusal naming US_John_Doe / 123, ledger unchanged |
| Contract.SharedBankScenario | chaincode/banks/banks.go:244-340 | Invoke("pay") with the text "100" between two US_Bank customers at rate 1: balances 9900 and 10100, US_Bank reserves 1000100 |
| Contract.SharedBankPayment | chaincode/banks/banks.go:298-333 | the same payment at the parsed amount 100: the two balances and the shared bank after the writes |

## Left out

- Fabric plumbing is not modelled: `shim.Start`, `main`, `Init` and the `sc.Response` wrapper (a response is `Success(body)` or `Error(message)`). The `fmt` logging is left out too.
- JSON encoding is not modelled: the ledger stores records as datatypes, not bytes. Only which fields survive a decode into another record type is kept.
- The range scan of `queryAll` is given to `QueryAll` and `Invoke` as a parameter: a sequence of (key, record text) pairs. The `GetStateByRange`, `HasNext`, `Next` and `Close` calls and their errors are not modelled, and neither is the key order of the scan.
- `float64` is modelled as `real`, with no rounding, so 1000 * 0.75 is exact.
- Decimal.ParseFloat: only plain decimal numerals are read: a sign, digits and an optional fraction. Exponent, hexadecimal, `inf`/`nan` and underscore forms, which Go's `strconv.ParseFloat` accepts, read as a parse error and so as 0. Out-of-range values are not modelled.
- Response payloads `Nil` and `Stored(None)` are one response to a caller, `shim.Success(nil)`, from the writing handlers and from `query` on an absent key. The model tells the two apart, which a caller cannot.
- `GetState` errors are ignored by the source and cannot occur in the model.
- Store write failures are a fixed map from key to error text (`faults`). The model does not cover a store that fails a key only sometimes.
- Transaction atomicity is not modelled. When a later `PutState` of `pay` or of a loader fails, the model still shows the writes issued before it. The platform discards the whole write set of a failed call.
- Loader.Load: reads see the earlier writes of the same call, which Fabric's `GetState` does not. So a batch that repeats a key reports a duplicate in the model, while on Fabric it would write both records. The seed batches repeat no key.
- Concurrent invocations and their isolation are not modelled. Isolation comes from the platform's commit protocol.
- Transfer.PayDistinct states exact effects only for four distinct keys. The named aliasing cases (one customer, or one bank) have lemmas of their own. A customer key equal to a bank key is covered by `Transfer.PayWrites` and the write-refused lemmas, which hold for any four keys, but not by an exact-delta lemma.
