/**
 * The chaincode's handlers over the world state. The ledger stub becomes a
 * class whose `state` field the handlers update in place; `faults` stands for
 * the store refusing a PutState, with the error text it returns.
 */
module Contract {
  import opened Wrappers
  import opened Domain
  import opened Loader
  import opened Transfer
  import opened Framing
  import opened Dispatch
  import opened Decimal

  /** The records initLedger seeds. */
  const SeedBanks: seq<Bank> := [
    Bank("US_Bank", "US_Bank", "USA", "USD", 1000000.0),
    Bank("UK_Bank", "UK_Bank", "UK ", "GBP", 1000000.0),
    Bank("Japan_Bank", "Japan_Bank", "JAPAN", "JPY", 10000000.0)
  ]

  const SeedCustomers: seq<Customer> := [
    Customer("US_John_Doe", "123", "US", "USD", 10000.0, "US_Bank"),
    Customer("US_Alice", "456", "US", "USD", 10000.0, "US_Bank"),
    Customer("UK_John_Doe", "123", "UK", "GBP", 10000.0, "UK_Bank"),
    Customer("UK_Alice", "456", "UK", "GBP", 10000.0, "UK_Bank"),
    Customer("JPY_John_Doe", "123", "Japan", "JPY", 1000000.0, "Japan_Bank"),
    Customer("JPY_Alice", "456", "Japan", "JPY", 1000000.0, "Japan_Bank")
  ]

  const SeedForex: seq<Forex> := [
    Forex("USD:GBP", 0.75),
    Forex("USD:JPY", 115.0),
    Forex("GBP:USD", 1.35),
    Forex("GBP:JPY", 155.0),
    Forex("JPY:USD", 0.0088),
    Forex("JPY:GBP", 0.0065),
    Forex("USD:USD", 1.0),
    Forex("GBP:GBP", 1.0),
    Forex("JPY:JPY", 1.0)
  ]

  function ForexRecords(fs: seq<Forex>): (vs: seq<Value>)
    ensures |vs| == |fs| && forall i :: 0 <= i < |fs| ==> vs[i] == ForexV(fs[i])
  {
    seq(|fs|, i requires 0 <= i < |fs| => ForexV(fs[i]))
  }

  function BankRecords(bs: seq<Bank>): (vs: seq<Value>)
    ensures |vs| == |bs| && forall i :: 0 <= i < |bs| ==> vs[i] == BankV(bs[i])
  {
    seq(|bs|, i requires 0 <= i < |bs| => BankV(bs[i]))
  }

  function CustomerRecords(cs: seq<Customer>): (vs: seq<Value>)
    ensures |vs| == |cs| && forall i :: 0 <= i < |cs| ==> vs[i] == CustomerV(cs[i])
  {
    seq(|cs|, i requires 0 <= i < |cs| => CustomerV(cs[i]))
  }

  /** initLedger: forex, then customers, then banks, whatever each load returns. */
  function InitLedgerEffect(m: State, faults: map<string, string>): State
  {
    var m1 := Load(m, faults, ForexRecords(SeedForex)).0;
    var m2 := Load(m1, faults, CustomerRecords(SeedCustomers)).0;
    Load(m2, faults, BankRecords(SeedBanks)).0
  }

  /** The record a create request stores, its numeric field as ParseFloat reads it. */
  function Created(q: Request): Value
    requires q.CreateBank? || q.CreateCustomer? || q.CreateForex?
  {
    match q
    case CreateBank(n, id, co, cu, t) => BankV(Bank(n, id, co, cu, ParseAmount(t)))
    case CreateCustomer(n, id, co, cu, t, b) => CustomerV(Customer(n, id, co, cu, ParseAmount(t), b))
    case CreateForex(p, t) => ForexV(Forex(p, ParseAmount(t)))
  }

  /** The ledger and response after a routed request; `scan` is what the range scan yields. */
  function Execute(m: State, faults: map<string, string>, q: Request, scan: seq<(string, string)>): (State, Response)
  {
    match q
    case InitLedger => (InitLedgerEffect(m, faults), Success(Nil))
    case QueryAll => (m, Success(Listing(Framed(scan))))
    case Query(key) => (m, Success(Stored(Lookup(m, key))))
    case Pay(fromKey, toKey, amountText) => PayEffect(m, faults, fromKey, toKey, ParseAmount(amountText))
    case CreateBank(_, _, _, _, _) => (Load(m, faults, [Created(q)]).0, Success(Nil))
    case CreateCustomer(_, _, _, _, _, _) => (Load(m, faults, [Created(q)]).0, Success(Nil))
    case CreateForex(_, _) => (Load(m, faults, [Created(q)]).0, Success(Nil))
  }

  /** The ledger and response after Invoke(name, args). */
  function Invocation(m: State, faults: map<string, string>, name: string, args: seq<string>,
                      scan: seq<(string, string)>): (State, Response)
  {
    match Route(name, args)
    case Refused(e) => (m, Error(Message(e)))
    case Routed(q) => Execute(m, faults, q, scan)
  }

  class Ledger {
    var state: State
    const faults: map<string, string>

    constructor (initial: State, faults: map<string, string>)
      ensures state == initial && this.faults == faults
    {
      state := initial;
      this.faults := faults;
    }

    /** GetState: the record under `key`, or None (nil bytes) when absent. */
    function GetState(key: string): (v: Option<Value>)
      reads this
      ensures v.Some? <==> key in state
      ensures v.Some? ==> v.value == state[key]
    {
      Lookup(state, key)
    }

    /** PutState: stores the record, unless the store refuses this key. */
    method PutState(key: string, value: Value) returns (err: Option<string>)
      modifies this
      ensures key in faults ==> err == Some(faults[key]) && state == old(state)
      ensures key !in faults ==> err == None && state == old(state)[key := value]
    {
      if key in faults {
        err := Some(faults[key]);
      } else {
        state := state[key := value];
        err := None;
      }
    }

    /** The loop the three loaders share: write each record whose key is absent, in order; stop at the first taken key or refused write. */
    method WriteRecords(records: seq<Value>) returns (r: Response)
      modifies this
      ensures (state, r) == Load(old(state), faults, records)
    {
      var i := 0;
      while i < |records|
        invariant 0 <= i <= |records|
        invariant Load(old(state), faults, records) == Load(state, faults, records[i..])
      {
        assert records[i..][0] == records[i] && records[i..][1..] == records[i + 1..];
        var key := KeyOf(records[i]);
        var chk := GetState(key);
        if chk == None {
          var err := PutState(key, records[i]);
          if err.Some? {
            return Error(err.value);
          }
        } else {
          return Error(DuplicateMessage(records[i]));
        }
        i := i + 1;
      }
      return Success(Nil);
    }

    method WriteForexToLedger(forex: seq<Forex>) returns (r: Response)
      modifies this
      ensures (state, r) == Load(old(state), faults, ForexRecords(forex))
    {
      r := WriteRecords(ForexRecords(forex));
    }

    method WriteBankToLedger(banks: seq<Bank>) returns (r: Response)
      modifies this
      ensures (state, r) == Load(old(state), faults, BankRecords(banks))
    {
      r := WriteRecords(BankRecords(banks));
    }

    method WriteCustomerToLedger(customers: seq<Customer>) returns (r: Response)
      modifies this
      ensures (state, r) == Load(old(state), faults, CustomerRecords(customers))
    {
      r := WriteRecords(CustomerRecords(customers));
    }

    /** initLedger: runs the three loaders, ignores what they return, and succeeds. */
    method InitLedger() returns (r: Response)
      modifies this
      ensures r == Success(Nil)
      ensures state == InitLedgerEffect(old(state), faults)
    {
      var _ := WriteForexToLedger(SeedForex);
      var _ := WriteCustomerToLedger(SeedCustomers);
      var _ := WriteBankToLedger(SeedBanks);
      return Success(Nil);
    }

    /** queryAll: frames what the range scan yields; the ledger is only read. */
    method QueryAll(scan: seq<(string, string)>) returns (r: Response)
      ensures r == Success(Listing(Framed(scan)))
    {
      var text := FrameResults(scan);
      return Success(Listing(text));
    }

    /** query: the raw record under a key, nil when absent. */
    method Query(key: string) returns (r: Response)
      ensures r == Success(Stored(Lookup(state, key)))
      ensures r.body.record.Some? <==> key in state
    {
      return Success(Stored(GetState(key)));
    }

    /** pay: read, check, update in memory, re-read the destination bank, write four records. */
    method Pay(fromKey: string, toKey: string, amount: real) returns (r: Response)
      modifies this
      ensures (state, r) == PayEffect(old(state), faults, fromKey, toKey, amount)
    {
      var fromCustomer := AsCustomer(GetState(fromKey));
      var fromBalance := fromCustomer.balance;
      if fromBalance < amount {
        return Error(FundsMessage(fromCustomer));
      }
      var toCustomer := AsCustomer(GetState(toKey));
      var toBalance := toCustomer.balance;
      var exchangeRate := AsForex(GetState(fromCustomer.currency + ":" + toCustomer.currency)).rate;
      var fromBank := fromCustomer.customerBankID;
      var fromCustomerBank := AsBank(GetState(fromBank));
      var fromBankReserves := fromCustomerBank.reserves;
      if fromBankReserves < amount {
        return Error(ReservesMessage(fromCustomerBank));
      }
      PlanPayCommits(state, fromKey, toKey, amount, fromCustomer, toCustomer, fromCustomerBank,
                     BankAt(state, toCustomer.customerBankID), exchangeRate);
      r := Settle(fromKey, toKey, fromCustomer, toCustomer, fromCustomerBank, amount, exchangeRate);
    }

    /**
     * The second half of pay, past both gates: debit and credit the records in
     * memory, read the destination bank, then write all four.
     */
    method Settle(fromKey: string, toKey: string, fromCustomer: Customer, toCustomer: Customer,
                  fromCustomerBank: Bank, amount: real, exchangeRate: real) returns (r: Response)
      modifies this
      ensures
        var toCustomerBank := BankAt(old(state), toCustomer.customerBankID);
        (state, r) == RunWrites(old(state), faults,
          TransferWrites(fromKey, toKey, fromCustomer.customerBankID, toCustomer.customerBankID,
                       fromCustomer.(balance := fromCustomer.balance - amount),
                       toCustomer.(balance := toCustomer.balance + Converted(amount, exchangeRate)),
                       fromCustomerBank.(reserves := fromCustomerBank.reserves - amount),
                       toCustomerBank.(reserves := toCustomerBank.reserves + Converted(amount, exchangeRate))))
    {
      var fromBank := fromCustomer.customerBankID;
      var fromCustomer := fromCustomer.(balance := fromCustomer.balance - amount);
      var fromCustomerBank := fromCustomerBank.(reserves := fromCustomerBank.reserves - amount);
      var toCustomer := toCustomer.(balance := toCustomer.balance + amount * exchangeRate);
      var toBank := toCustomer.customerBankID;
      var toCustomerBank := AsBank(GetState(toBank));
      toCustomerBank := toCustomerBank.(reserves := toCustomerBank.reserves + amount * exchangeRate);
      r := WriteTransfer(fromKey, toKey, fromBank, toBank, fromCustomer, toCustomer, fromCustomerBank, toCustomerBank);
    }

    /** The write phase of pay: four puts in order, stopping at the first that fails. */
    method WriteTransfer(fromKey: string, toKey: string, fromBankKey: string, toBankKey: string,
                         fromCustomer: Customer, toCustomer: Customer, fromBank: Bank, toBank: Bank)
      returns (r: Response)
      modifies this
      ensures (state, r) == RunWrites(old(state), faults,
                                      TransferWrites(fromKey, toKey, fromBankKey, toBankKey, fromCustomer, toCustomer, fromBank, toBank))
    {
      var err := PutState(fromKey, CustomerV(fromCustomer));
      if err.Some? {
        return Error("Error writing updates to FROM customer account " + fromCustomer.name);
      }
      err := PutState(toKey, CustomerV(toCustomer));
      if err.Some? {
        return Error("Error writing updates to TO customer account " + toCustomer.name);
      }
      err := PutState(fromBankKey, BankV(fromBank));
      if err.Some? {
        return Error("Error writing updates to FROM Bank account " + fromBank.name);
      }
      err := PutState(toBankKey, BankV(toBank));
      if err.Some? {
        return Error("Error writing updates to TO Bank account " + toBank.name);
      }
      return Success(Nil);
    }

    /** createBank, createCustomer, createForex: a one-record load whose result is ignored. */
    method CreateBank(bank: Bank) returns (r: Response)
      modifies this
      ensures r == Success(Nil) && state == Load(old(state), faults, [BankV(bank)]).0
    {
      var _ := WriteBankToLedger([bank]);
      assert BankRecords([bank]) == [BankV(bank)];
      return Success(Nil);
    }

    method CreateCustomer(customer: Customer) returns (r: Response)
      modifies this
      ensures r == Success(Nil) && state == Load(old(state), faults, [CustomerV(customer)]).0
    {
      var _ := WriteCustomerToLedger([customer]);
      assert CustomerRecords([customer]) == [CustomerV(customer)];
      return Success(Nil);
    }

    method CreateForex(forex: Forex) returns (r: Response)
      modifies this
      ensures r == Success(Nil) && state == Load(old(state), faults, [ForexV(forex)]).0
    {
      var _ := WriteForexToLedger([forex]);
      assert ForexRecords([forex]) == [ForexV(forex)];
      return Success(Nil);
    }

    /** Invoke: route by name, check the argument count, run the handler. */
    method Invoke(name: string, args: seq<string>, scan: seq<(string, string)>) returns (r: Response)
      modifies this
      ensures (state, r) == Invocation(old(state), faults, name, args, scan)
    {
      match Route(name, args)
      case Refused(e) =>
        r := Error(Message(e));
      case Routed(q) =>
        match q
        case InitLedger => r := InitLedger();
        case QueryAll => r := QueryAll(scan);
        case Query(key) => r := Query(key);
        case Pay(fromKey, toKey, amountText) => r := Pay(fromKey, toKey, ParseAmount(amountText));
        case CreateBank(_, _, _, _, _) => r := CreateBank(Created(q).bank);
        case CreateCustomer(_, _, _, _, _, _) => r := CreateCustomer(Created(q).customer);
        case CreateForex(_, _) => r := CreateForex(Created(q).forex);
    }
  }

  /** Names outside the seven are refused, and the ledger is unchanged. */
  lemma UnknownFunctionRefused(m: State, faults: map<string, string>, name: string, args: seq<string>,
                               scan: seq<(string, string)>)
    requires name !in {"initLedger", "queryAll", "query", "pay", "createBank", "createCustomer", "createForex"}
    ensures Invocation(m, faults, name, args, scan) == (m, Error("Invalid Smart Contract function name."))
  {
  }

  /** A handler given the wrong number of arguments refuses before touching the ledger. */
  lemma WrongArgCountRefused(m: State, faults: map<string, string>, name: string, args: seq<string>,
                             scan: seq<(string, string)>)
    requires Rejects(name, |args|)
    ensures Invocation(m, faults, name, args, scan) == (m, Error(Message(WrongArgCount(name))))
  {
  }

  /** initLedger checks no argument count and always reports success. */
  lemma InitLedgerSucceeds(m: State, faults: map<string, string>, args: seq<string>, scan: seq<(string, string)>)
    ensures Invocation(m, faults, "initLedger", args, scan) == (InitLedgerEffect(m, faults), Success(Nil))
  {
  }

  /**
   * The create handlers ignore what the loader returns: with the right count
   * they always succeed, and when the record's key is already taken the ledger
   * is left exactly as it was.
   */
  lemma CreateOnTakenKey(m: State, faults: map<string, string>, name: string, args: seq<string>,
                         scan: seq<(string, string)>)
    requires name in {"createBank", "createCustomer", "createForex"} && Accepts(name, |args|)
    requires (name == "createBank" ==> args[1] in m)
    requires (name == "createCustomer" ==> args[0] + "_" + args[1] in m)
    requires (name == "createForex" ==> args[0] in m)
    ensures Invocation(m, faults, name, args, scan) == (m, Success(Nil))
  {
  }

  /** createBank on a free, writable bankID stores the bank of its five arguments, reserves parsed. */
  lemma CreateBankOnFreeKey(m: State, faults: map<string, string>, args: seq<string>, scan: seq<(string, string)>)
    requires |args| == 5 && args[1] !in m && args[1] !in faults
    ensures Invocation(m, faults, "createBank", args, scan)
            == (m[args[1] := BankV(Bank(args[0], args[1], args[2], args[3], ParseAmount(args[4])))], Success(Nil))
  {
    assert Route("createBank", args) == Routed(CreateBank(args[0], args[1], args[2], args[3], args[4]));
    LoadSingle(m, faults, BankV(Bank(args[0], args[1], args[2], args[3], ParseAmount(args[4]))));
  }

  /** createCustomer on a free, writable name + "_" + custID stores the customer of its six arguments, balance parsed. */
  lemma CreateCustomerOnFreeKey(m: State, faults: map<string, string>, args: seq<string>, scan: seq<(string, string)>)
    requires |args| == 6 && args[0] + "_" + args[1] !in m && args[0] + "_" + args[1] !in faults
    ensures Invocation(m, faults, "createCustomer", args, scan)
            == (m[args[0] + "_" + args[1] := CustomerV(Customer(args[0], args[1], args[2], args[3], ParseAmount(args[4]), args[5]))],
                Success(Nil))
  {
    assert Route("createCustomer", args) == Routed(CreateCustomer(args[0], args[1], args[2], args[3], args[4], args[5]));
    LoadSingle(m, faults, CustomerV(Customer(args[0], args[1], args[2], args[3], ParseAmount(args[4]), args[5])));
  }

  /** createForex on a free, writable pair stores the pair with its rate parsed. */
  lemma CreateForexOnFreeKey(m: State, faults: map<string, string>, args: seq<string>, scan: seq<(string, string)>)
    requires |args| == 2 && args[0] !in m && args[0] !in faults
    ensures Invocation(m, faults, "createForex", args, scan) == (m[args[0] := ForexV(Forex(args[0], ParseAmount(args[1])))], Success(Nil))
  {
    assert Route("createForex", args) == Routed(CreateForex(args[0], args[1]));
    LoadSingle(m, faults, ForexV(Forex(args[0], ParseAmount(args[1]))));
  }

  /** With the right count the create handlers report success whatever the loader met. */
  lemma CreateAlwaysSucceeds(m: State, faults: map<string, string>, name: string, args: seq<string>,
                             scan: seq<(string, string)>)
    requires name in {"createBank", "createCustomer", "createForex"} && Accepts(name, |args|)
    ensures Invocation(m, faults, name, args, scan).1 == Success(Nil)
  {
  }

  /** Running initLedger a second time changes nothing: every batch stops at its first, already settled, record. */
  lemma InitLedgerIdempotent(m: State, faults: map<string, string>)
    ensures InitLedgerEffect(InitLedgerEffect(m, faults), faults) == InitLedgerEffect(m, faults)
  {
    var fs, cs, bs := ForexRecords(SeedForex), CustomerRecords(SeedCustomers), BankRecords(SeedBanks);
    var m1 := Load(m, faults, fs).0;
    var m2 := Load(m1, faults, cs).0;
    var m3 := Load(m2, faults, bs).0;
    LoadSettlesFirstKey(m, faults, fs);
    LoadSettlesFirstKey(m1, faults, cs);
    LoadSettlesFirstKey(m2, faults, bs);
    LoadNeverOverwrites(m1, faults, cs);
    LoadNeverOverwrites(m2, faults, bs);
    assert Load(m3, faults, fs).0 == m3;
    assert Load(m3, faults, cs).0 == m3;
    assert Load(m3, faults, bs).0 == m3;
  }

  /** Two banks, two customers and the USD:GBP rate, as a ledger after seeding would hold them. */
  const TransferLedger: State := map[
    "US_Bank" := BankV(Bank("US_Bank", "US_Bank", "USA", "USD", 1000000.0)),
    "UK_Bank" := BankV(Bank("UK_Bank", "UK_Bank", "UK ", "GBP", 1000000.0)),
    "US_John_Doe_123" := CustomerV(Customer("US_John_Doe", "123", "US", "USD", 10000.0, "US_Bank")),
    "UK_Alice_456" := CustomerV(Customer("UK_Alice", "456", "UK", "GBP", 10000.0, "UK_Bank")),
    "USD:GBP" := ForexV(Forex("USD:GBP", 0.75))
  ]

  /** Invoke("pay", [from, to, amount]) is the payment with the amount as ParseFloat reads it. */
  lemma InvokePay(m: State, faults: map<string, string>, args: seq<string>, scan: seq<(string, string)>)
    requires |args| == 3
    ensures Invocation(m, faults, "pay", args, scan) == PayEffect(m, faults, args[0], args[1], ParseAmount(args[2]))
  {
  }

  /** Invoke("pay", [US_John_Doe_123, UK_Alice_456, "1000"]) at 0.75 USD:GBP. */
  lemma CrossCurrencyScenario(scan: seq<(string, string)>)
    ensures var (m', r) := Invocation(TransferLedger, map[], "pay", ["US_John_Doe_123", "UK_Alice_456", "1000"], scan);
            && r == Success(Nil)
            && Balance(m', "US_John_Doe_123") == 9000.0
            && Reserves(m', "US_Bank") == 999000.0
            && Balance(m', "UK_Alice_456") == 10750.0
            && Reserves(m', "UK_Bank") == 1000750.0
  {
    ParseWholeNumerals();
    InvokePay(TransferLedger, map[], ["US_John_Doe_123", "UK_Alice_456", "1000"], scan);
    CrossCurrencyPayment();
  }

  /** The payment of that scenario, with the amount as parsed. */
  lemma CrossCurrencyPayment()
    ensures var (m', r) := PayEffect(TransferLedger, map[], "US_John_Doe_123", "UK_Alice_456", 1000.0);
            && r == Success(Nil)
            && Balance(m', "US_John_Doe_123") == 9000.0
            && Reserves(m', "US_Bank") == 999000.0
            && Balance(m', "UK_Alice_456") == 10750.0
            && Reserves(m', "UK_Bank") == 1000750.0
  {
    TransferLedgerReads();
    PayDistinct(TransferLedger, map[], "US_John_Doe_123", "UK_Alice_456", 1000.0);
  }

  /** What pay reads from TransferLedger for the cross-currency payment. */
  lemma TransferLedgerReads()
    ensures Balance(TransferLedger, "US_John_Doe_123") == 10000.0 && Balance(TransferLedger, "UK_Alice_456") == 10000.0
    ensures FromBankKey(TransferLedger, "US_John_Doe_123") == "US_Bank"
    ensures ToBankKey(TransferLedger, "UK_Alice_456") == "UK_Bank"
    ensures Reserves(TransferLedger, "US_Bank") == 1000000.0 && Reserves(TransferLedger, "UK_Bank") == 1000000.0
    ensures RateBetween(TransferLedger, "US_John_Doe_123", "UK_Alice_456") == 0.75
    ensures Distinct4("US_John_Doe_123", "UK_Alice_456", "US_Bank", "UK_Bank")
  {
    var m := TransferLedger;
    assert CustomerAt(m, "US_John_Doe_123") == Customer("US_John_Doe", "123", "US", "USD", 10000.0, "US_Bank");
    assert CustomerAt(m, "UK_Alice_456") == Customer("UK_Alice", "456", "UK", "GBP", 10000.0, "UK_Bank");
    assert "USD" + ":" + "GBP" == "USD:GBP";
  }

  /**
   * Invoke("pay", [US_John_Doe_123, UK_Alice_456, "999999"]) is refused by the
   * customer gate, naming the customer on file, and changes nothing.
   */
  lemma InsufficientFundsScenario(scan: seq<(string, string)>)
    ensures var c := CustomerAt(TransferLedger, "US_John_Doe_123");
            && c.name == "US_John_Doe" && c.custID == "123"
            && Invocation(TransferLedger, map[], "pay", ["US_John_Doe_123", "UK_Alice_456", "999999"], scan)
               == (TransferLedger, Error(FundsMessage(c)))
  {
    ParseLargeNumeral();
    InvokePay(TransferLedger, map[], ["US_John_Doe_123", "UK_Alice_456", "999999"], scan);
    InsufficientFundsPayment();
  }

  /** The payment of that scenario, with the amount as parsed. */
  lemma InsufficientFundsPayment()
    ensures var c := CustomerAt(TransferLedger, "US_John_Doe_123");
            && c.name == "US_John_Doe" && c.custID == "123"
            && PayEffect(TransferLedger, map[], "US_John_Doe_123", "UK_Alice_456", 999999.0)
               == (TransferLedger, Error(FundsMessage(c)))
  {
    assert CustomerAt(TransferLedger, "US_John_Doe_123") == Customer("US_John_Doe", "123", "US", "USD", 10000.0, "US_Bank");
    CustomerGate(TransferLedger, map[], "US_John_Doe_123", "UK_Alice_456", 999999.0);
  }

  /** Two customers of US_Bank and the identity rate. */
  const DomesticLedger: State := map[
    "US_Bank" := BankV(Bank("US_Bank", "US_Bank", "USA", "USD", 1000000.0)),
    "US_John_Doe_123" := CustomerV(Customer("US_John_Doe", "123", "US", "USD", 10000.0, "US_Bank")),
    "US_Alice_456" := CustomerV(Customer("US_Alice", "456", "US", "USD", 10000.0, "US_Bank")),
    "USD:USD" := ForexV(Forex("USD:USD", 1.0))
  ]

  /**
   * pay(US_John_Doe_123, US_Alice_456, "100") between customers of one bank:
   * the balances move by 100, but the bank's debit is overwritten by its
   * credit, so its reserves end 100 higher.
   */
  lemma SharedBankScenario(scan: seq<(string, string)>)
    ensures var (m', r) := Invocation(DomesticLedger, map[], "pay", ["US_John_Doe_123", "US_Alice_456", "100"], scan);
            && r == Success(Nil)
            && Balance(m', "US_John_Doe_123") == 9900.0
            && Balance(m', "US_Alice_456") == 10100.0
            && Reserves(m', "US_Bank") == 1000100.0
  {
    ParseWholeNumerals();
    InvokePay(DomesticLedger, map[], ["US_John_Doe_123", "US_Alice_456", "100"], scan);
    SharedBankPayment();
  }

  /** The payment of that scenario, with the amount as parsed. */
  lemma SharedBankPayment()
    ensures var (m', r) := PayEffect(DomesticLedger, map[], "US_John_Doe_123", "US_Alice_456", 100.0);
            && r == Success(Nil)
            && Balance(m', "US_John_Doe_123") == 9900.0
            && Balance(m', "US_Alice_456") == 10100.0
            && Reserves(m', "US_Bank") == 1000100.0
  {
    var m := DomesticLedger;
    assert CustomerAt(m, "US_John_Doe_123") == Customer("US_John_Doe", "123", "US", "USD", 10000.0, "US_Bank");
    assert CustomerAt(m, "US_Alice_456") == Customer("US_Alice", "456", "US", "USD", 10000.0, "US_Bank");
    assert RateBetween(m, "US_John_Doe_123", "US_Alice_456") == 1.0 by { assert "USD" + ":" + "USD" == "USD:USD"; }
    PayWrites(m, map[], "US_John_Doe_123", "US_Alice_456", 100.0);
  }
}
