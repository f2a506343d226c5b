/**
 * The transfer engine `pay`: what it decides from the ledger as it reads it
 * (PlanPay), and the ledger after its four writes run in order (PayEffect).
 * Every read happens before the first write, so the writes are last-write-wins
 * when two of the four keys coincide.
 */
module Transfer {
  import opened Wrappers
  import opened Domain

  /** Which solvency check refused a payment. */
  datatype Gate = CustomerFunds | BankReserves

  /** One PutState of a payment, with the message pay returns if the store refuses it. */
  datatype Put = Put(key: string, value: Value, failure: string)

  /** The four PutState calls of a payment, in the order pay issues them. */
  datatype Writes = Writes(first: Put, second: Put, third: Put, fourth: Put)

  /** A refusal by one of the two gates, or the writes to issue. */
  datatype Plan = Refuse(gate: Gate, message: string) | Commit(writes: Writes)

  function FundsMessage(c: Customer): string
  {
    "Insufficent funds in customer: " + c.name + " Customer ID: " + c.custID
  }

  function ReservesMessage(b: Bank): string
  {
    "Insufficent funds in bank reserves: " + b.name + " Bank ID: " + b.bankID
  }

  /** The ledger key of the exchange rate from one customer's currency to another's. */
  function RateKey(from: Customer, to: Customer): string
  {
    from.currency + ":" + to.currency
  }

  /** The rate pay applies between the customers stored under two keys. */
  function RateBetween(m: State, fromKey: string, toKey: string): real
  {
    ForexAt(m, RateKey(CustomerAt(m, fromKey), CustomerAt(m, toKey))).rate
  }

  function Balance(m: State, k: string): real { CustomerAt(m, k).balance }
  function Reserves(m: State, k: string): real { BankAt(m, k).reserves }

  /** The keys of the source and destination banks, as the customers on file name them. */
  function FromBankKey(m: State, fromKey: string): string { CustomerAt(m, fromKey).customerBankID }
  function ToBankKey(m: State, toKey: string): string { CustomerAt(m, toKey).customerBankID }

  /**
   * The four writes of a payment, from the records as updated in memory: source
   * customer, destination customer, source bank, destination bank; each fails
   * with a message naming the record it carries.
   */
  function TransferWrites(fromKey: string, toKey: string, fromBankKey: string, toBankKey: string,
                          fromCustomer: Customer, toCustomer: Customer, fromBank: Bank, toBank: Bank): Writes
  {
    Writes(Put(fromKey, CustomerV(fromCustomer), "Error writing updates to FROM customer account " + fromCustomer.name),
           Put(toKey, CustomerV(toCustomer), "Error writing updates to TO customer account " + toCustomer.name),
           Put(fromBankKey, BankV(fromBank), "Error writing updates to FROM Bank account " + fromBank.name),
           Put(toBankKey, BankV(toBank), "Error writing updates to TO Bank account " + toBank.name))
  }

  /** The credit a payment of `amount` makes at `rate` (float64 multiplication, here on reals). */
  function Converted(amount: real, rate: real): real
  {
    amount * rate
  }

  /** The writes pay issues once past both gates, from the records as it reads them. */
  function Planned(m: State, fromKey: string, toKey: string, amount: real): Writes
  {
    var from, to := CustomerAt(m, fromKey), CustomerAt(m, toKey);
    var fromBank, toBank := BankAt(m, from.customerBankID), BankAt(m, to.customerBankID);
    var credit := Converted(amount, RateBetween(m, fromKey, toKey));
    TransferWrites(fromKey, toKey, from.customerBankID, to.customerBankID,
                   from.(balance := from.balance - amount), to.(balance := to.balance + credit),
                   fromBank.(reserves := fromBank.reserves - amount), toBank.(reserves := toBank.reserves + credit))
  }

  /**
   * What pay decides from the ledger as it reads it: the customer gate on the
   * source balance, then the bank gate on the source bank's reserves, both
   * against the unconverted amount.
   */
  function PlanPay(m: State, fromKey: string, toKey: string, amount: real): Plan
  {
    if Balance(m, fromKey) < amount then Refuse(CustomerFunds, FundsMessage(CustomerAt(m, fromKey)))
    else if Reserves(m, FromBankKey(m, fromKey)) < amount then
      Refuse(BankReserves, ReservesMessage(BankAt(m, FromBankKey(m, fromKey))))
    else Commit(Planned(m, fromKey, toKey, amount))
  }

  /**
   * Issues the four writes in order; the first one the store refuses ends the
   * run with its message, and the writes before it stay applied.
   */
  function RunWrites(m: State, faults: map<string, string>, w: Writes): (State, Response)
  {
    if w.first.key in faults then (m, Error(w.first.failure))
    else
      var m1 := m[w.first.key := w.first.value];
      if w.second.key in faults then (m1, Error(w.second.failure))
      else
        var m2 := m1[w.second.key := w.second.value];
        if w.third.key in faults then (m2, Error(w.third.failure))
        else
          var m3 := m2[w.third.key := w.third.value];
          if w.fourth.key in faults then (m3, Error(w.fourth.failure))
          else (m3[w.fourth.key := w.fourth.value], Success(Nil))
  }

  /** The ledger after `pay(fromKey, toKey, amount)` and its response. */
  function PayEffect(m: State, faults: map<string, string>, fromKey: string, toKey: string, amount: real): (State, Response)
  {
    match PlanPay(m, fromKey, toKey, amount)
    case Refuse(_, message) => (m, Error(message))
    case Commit(w) => RunWrites(m, faults, w)
  }

  /** The four keys a payment writes are pairwise distinct. */
  predicate Distinct4(a: string, b: string, c: string, d: string)
  {
    a != b && a != c && a != d && b != c && b != d && c != d
  }

  /**
   * Past both gates, pay commits exactly four writes: the source customer and
   * bank debited by the amount, the destination customer and bank (the one the
   * destination customer names) credited by the amount times the rate on file.
   */
  lemma PlanPayCommits(m: State, fromKey: string, toKey: string, amount: real,
                       from: Customer, to: Customer, fromBank: Bank, toBank: Bank, rate: real)
    requires from == CustomerAt(m, fromKey) && to == CustomerAt(m, toKey)
    requires fromBank == BankAt(m, from.customerBankID) && toBank == BankAt(m, to.customerBankID)
    requires rate == ForexAt(m, RateKey(from, to)).rate
    requires amount <= from.balance && amount <= fromBank.reserves
    ensures PlanPay(m, fromKey, toKey, amount)
         == Commit(TransferWrites(fromKey, toKey, from.customerBankID, to.customerBankID,
                                  from.(balance := from.balance - amount), to.(balance := to.balance + Converted(amount, rate)),
                                  fromBank.(reserves := fromBank.reserves - amount), toBank.(reserves := toBank.reserves + Converted(amount, rate))))
  {
    assert rate == RateBetween(m, fromKey, toKey);
  }

  /** The customer gate: pay refuses with the funds message exactly when the balance on file is below the amount, and writes nothing. */
  lemma CustomerGate(m: State, faults: map<string, string>, fromKey: string, toKey: string, amount: real)
    ensures (PlanPay(m, fromKey, toKey, amount).Refuse? && PlanPay(m, fromKey, toKey, amount).gate == CustomerFunds)
            <==> Balance(m, fromKey) < amount
    ensures Balance(m, fromKey) < amount ==>
              PayEffect(m, faults, fromKey, toKey, amount) == (m, Error(FundsMessage(CustomerAt(m, fromKey))))
  {
  }

  /**
   * The bank gate: past the customer gate, pay refuses with the reserves message
   * exactly when the source bank's reserves are below the unconverted amount, and
   * writes nothing.
   */
  lemma BankGate(m: State, faults: map<string, string>, fromKey: string, toKey: string, amount: real)
    ensures (PlanPay(m, fromKey, toKey, amount).Refuse? && PlanPay(m, fromKey, toKey, amount).gate == BankReserves)
            <==> Balance(m, fromKey) >= amount && Reserves(m, FromBankKey(m, fromKey)) < amount
    ensures Balance(m, fromKey) >= amount && Reserves(m, FromBankKey(m, fromKey)) < amount ==>
              PayEffect(m, faults, fromKey, toKey, amount) == (m, Error(ReservesMessage(BankAt(m, FromBankKey(m, fromKey)))))
  {
  }

  /** A refusal by either gate leaves the ledger as it was. */
  lemma GatesWriteNothing(m: State, faults: map<string, string>, fromKey: string, toKey: string, amount: real)
    requires Balance(m, fromKey) < amount || Reserves(m, FromBankKey(m, fromKey)) < amount
    ensures PayEffect(m, faults, fromKey, toKey, amount).0 == m
    ensures PayEffect(m, faults, fromKey, toKey, amount).1.Error?
  {
  }

  /**
   * Past both gates, pay commits the writes of Planned; the source customer and
   * bank debited by the amount, the destination pair credited by amount * rate.
   */
  lemma PlannedWrites(m: State, fromKey: string, toKey: string, amount: real)
    requires Balance(m, fromKey) >= amount && Reserves(m, FromBankKey(m, fromKey)) >= amount
    ensures PlanPay(m, fromKey, toKey, amount) == Commit(Planned(m, fromKey, toKey, amount))
    ensures var w, credit := Planned(m, fromKey, toKey, amount), amount * RateBetween(m, fromKey, toKey);
            var fromBankKey, toBankKey := FromBankKey(m, fromKey), ToBankKey(m, toKey);
            && w.first.key == fromKey && w.second.key == toKey
            && w.third.key == fromBankKey && w.fourth.key == toBankKey
            && w.first.value == CustomerV(CustomerAt(m, fromKey).(balance := Balance(m, fromKey) - amount))
            && w.second.value == CustomerV(CustomerAt(m, toKey).(balance := Balance(m, toKey) + credit))
            && w.third.value == BankV(BankAt(m, fromBankKey).(reserves := Reserves(m, fromBankKey) - amount))
            && w.fourth.value == BankV(BankAt(m, toBankKey).(reserves := Reserves(m, toBankKey) + credit))
  {
  }

  /**
   * Past both gates, with no write refused, the ledger is the old one with the
   * four records written in order: source customer, destination customer,
   * source bank, destination bank, each computed from the ledger as first read.
   */
  lemma PayWrites(m: State, faults: map<string, string>, fromKey: string, toKey: string, amount: real)
    requires Balance(m, fromKey) >= amount && Reserves(m, FromBankKey(m, fromKey)) >= amount
    requires fromKey !in faults && toKey !in faults
    requires FromBankKey(m, fromKey) !in faults && ToBankKey(m, toKey) !in faults
    ensures var w := Planned(m, fromKey, toKey, amount);
            PayEffect(m, faults, fromKey, toKey, amount)
            == (m[fromKey := w.first.value][toKey := w.second.value]
                 [FromBankKey(m, fromKey) := w.third.value][ToBankKey(m, toKey) := w.fourth.value], Success(Nil))
  {
    PlannedWrites(m, fromKey, toKey, amount);
  }

  /**
   * Past both gates, a store that refuses the source customer's write ends the
   * payment there with the FROM-customer message, before any other write.
   */
  lemma PaySourceWriteRefused(m: State, faults: map<string, string>, fromKey: string, toKey: string, amount: real)
    requires Balance(m, fromKey) >= amount && Reserves(m, FromBankKey(m, fromKey)) >= amount
    requires fromKey in faults
    ensures PayEffect(m, faults, fromKey, toKey, amount)
            == (m, Error("Error writing updates to FROM customer account " + CustomerAt(m, fromKey).name))
  {
    PlannedWrites(m, fromKey, toKey, amount);
  }

  /**
   * Past both gates, a store that refuses the destination customer's write ends
   * the payment with the TO-customer message; only the source customer's write
   * has landed.
   */
  lemma PayDestinationWriteRefused(m: State, faults: map<string, string>, fromKey: string, toKey: string, amount: real)
    requires Balance(m, fromKey) >= amount && Reserves(m, FromBankKey(m, fromKey)) >= amount
    requires fromKey !in faults && toKey in faults
    ensures PayEffect(m, faults, fromKey, toKey, amount)
            == (m[fromKey := CustomerV(CustomerAt(m, fromKey).(balance := Balance(m, fromKey) - amount))],
                Error("Error writing updates to TO customer account " + CustomerAt(m, toKey).name))
  {
    PlannedWrites(m, fromKey, toKey, amount);
  }

  /**
   * Past both gates, with the two customer writes accepted and the source bank's
   * refused: the response names that bank and the ledger holds exactly the two
   * customer writes (which the platform then discards with the failed call).
   */
  lemma PaySourceBankWriteRefused(m: State, faults: map<string, string>, fromKey: string, toKey: string, amount: real)
    requires Balance(m, fromKey) >= amount && Reserves(m, FromBankKey(m, fromKey)) >= amount
    requires fromKey !in faults && toKey !in faults && FromBankKey(m, fromKey) in faults
    ensures var w := Planned(m, fromKey, toKey, amount);
            PayEffect(m, faults, fromKey, toKey, amount)
            == (m[fromKey := w.first.value][toKey := w.second.value],
                Error("Error writing updates to FROM Bank account " + BankAt(m, FromBankKey(m, fromKey)).name))
  {
    PlannedWrites(m, fromKey, toKey, amount);
  }

  /**
   * Past both gates, with the first three writes accepted and the destination
   * bank's refused: the response names that bank, and the destination bank is
   * the only one of the four records not written.
   */
  lemma PayDestinationBankWriteRefused(m: State, faults: map<string, string>, fromKey: string, toKey: string, amount: real)
    requires Balance(m, fromKey) >= amount && Reserves(m, FromBankKey(m, fromKey)) >= amount
    requires fromKey !in faults && toKey !in faults && FromBankKey(m, fromKey) !in faults
    requires ToBankKey(m, toKey) in faults
    ensures var w := Planned(m, fromKey, toKey, amount);
            PayEffect(m, faults, fromKey, toKey, amount)
            == (m[fromKey := w.first.value][toKey := w.second.value][FromBankKey(m, fromKey) := w.third.value],
                Error("Error writing updates to TO Bank account " + BankAt(m, ToBankKey(m, toKey)).name))
  {
    PlannedWrites(m, fromKey, toKey, amount);
  }

  /**
   * A payment that passes both gates over four distinct keys, none refused by the
   * store: the source customer and the source bank each lose exactly `amount`, the
   * destination customer and the destination bank each gain exactly `amount * rate`,
   * no other field of the four records changes, and no other key changes.
   */
  lemma PayDistinct(m: State, faults: map<string, string>, fromKey: string, toKey: string, amount: real)
    requires Balance(m, fromKey) >= amount && Reserves(m, FromBankKey(m, fromKey)) >= amount
    requires Distinct4(fromKey, toKey, FromBankKey(m, fromKey), ToBankKey(m, toKey))
    requires fromKey !in faults && toKey !in faults
    requires FromBankKey(m, fromKey) !in faults && ToBankKey(m, toKey) !in faults
    ensures var (m', r) := PayEffect(m, faults, fromKey, toKey, amount);
            var credit := amount * RateBetween(m, fromKey, toKey);
            var fromBankKey, toBankKey := FromBankKey(m, fromKey), ToBankKey(m, toKey);
            && r == Success(Nil)
            && Lookup(m', fromKey) == Some(CustomerV(CustomerAt(m, fromKey).(balance := Balance(m, fromKey) - amount)))
            && Lookup(m', toKey) == Some(CustomerV(CustomerAt(m, toKey).(balance := Balance(m, toKey) + credit)))
            && Lookup(m', fromBankKey) == Some(BankV(BankAt(m, fromBankKey).(reserves := Reserves(m, fromBankKey) - amount)))
            && Lookup(m', toBankKey) == Some(BankV(BankAt(m, toBankKey).(reserves := Reserves(m, toBankKey) + credit)))
            && m'.Keys == m.Keys + {fromKey, toKey, fromBankKey, toBankKey}
            && (forall k :: k in m && k != fromKey && k != toKey && k != fromBankKey && k != toBankKey ==> m'[k] == m[k])
  {
    PayWrites(m, faults, fromKey, toKey, amount);
    PlannedWrites(m, fromKey, toKey, amount);
  }

  /** An absent source customer reads as balance 0, so any positive amount is refused by the customer gate. */
  lemma PayMissingSource(m: State, faults: map<string, string>, fromKey: string, toKey: string, amount: real)
    requires fromKey !in m && amount > 0.0
    ensures PayEffect(m, faults, fromKey, toKey, amount) == (m, Error(FundsMessage(ZeroCustomer)))
  {
  }

  /**
   * An absent rate reads as 0: both destination credits are 0. The destination
   * bank's write comes last, so it keeps its reserves whatever the aliasing; the
   * destination customer does unless a bank write lands on its key.
   */
  lemma PayMissingRate(m: State, faults: map<string, string>, fromKey: string, toKey: string, amount: real)
    requires RateKey(CustomerAt(m, fromKey), CustomerAt(m, toKey)) !in m
    requires Balance(m, fromKey) >= amount && Reserves(m, FromBankKey(m, fromKey)) >= amount
    requires fromKey !in faults && toKey !in faults
    requires FromBankKey(m, fromKey) !in faults && ToBankKey(m, toKey) !in faults
    ensures var m' := PayEffect(m, faults, fromKey, toKey, amount).0;
            Lookup(m', ToBankKey(m, toKey)) == Some(BankV(BankAt(m, ToBankKey(m, toKey))))
    ensures toKey != FromBankKey(m, fromKey) && toKey != ToBankKey(m, toKey) ==>
              Lookup(PayEffect(m, faults, fromKey, toKey, amount).0, toKey) == Some(CustomerV(CustomerAt(m, toKey)))
  {
    PayWrites(m, faults, fromKey, toKey, amount);
    PlannedWrites(m, fromKey, toKey, amount);
  }

  /** An absent destination bank reads as the zero Bank and is written with reserves `amount * rate`. */
  lemma PayMissingDestinationBank(m: State, faults: map<string, string>, fromKey: string, toKey: string, amount: real)
    requires ToBankKey(m, toKey) !in m
    requires Balance(m, fromKey) >= amount && Reserves(m, FromBankKey(m, fromKey)) >= amount
    requires fromKey !in faults && toKey !in faults
    requires FromBankKey(m, fromKey) !in faults && ToBankKey(m, toKey) !in faults
    ensures Lookup(PayEffect(m, faults, fromKey, toKey, amount).0, ToBankKey(m, toKey))
            == Some(BankV(ZeroBank.(reserves := amount * RateBetween(m, fromKey, toKey))))
  {
    PayWrites(m, faults, fromKey, toKey, amount);
    PlannedWrites(m, fromKey, toKey, amount);
  }

  /**
   * Paying oneself: the destination write comes last and was computed from the
   * balance read before the debit, so the customer ends at old + amount * rate.
   */
  lemma PaySelf(m: State, faults: map<string, string>, key: string, amount: real)
    requires Balance(m, key) >= amount && Reserves(m, FromBankKey(m, key)) >= amount
    requires key != FromBankKey(m, key) && key !in faults && FromBankKey(m, key) !in faults
    ensures var m' := PayEffect(m, faults, key, key, amount).0;
            Lookup(m', key) == Some(CustomerV(CustomerAt(m, key).(balance := Balance(m, key) + amount * RateBetween(m, key, key))))
  {
    PayWrites(m, faults, key, key, amount);
    PlannedWrites(m, key, key, amount);
  }

  /**
   * Two customers of one bank: the destination bank is re-read from the ledger,
   * so its write overwrites the debit and the bank ends at old + amount * rate,
   * also when a customer pays itself. The source customer keeps its debit when
   * no later write lands on its key.
   */
  lemma PaySharedBank(m: State, faults: map<string, string>, fromKey: string, toKey: string, amount: real)
    requires FromBankKey(m, fromKey) == ToBankKey(m, toKey)
    requires Balance(m, fromKey) >= amount && Reserves(m, FromBankKey(m, fromKey)) >= amount
    requires fromKey !in faults && toKey !in faults && FromBankKey(m, fromKey) !in faults
    ensures var m', bankKey := PayEffect(m, faults, fromKey, toKey, amount).0, FromBankKey(m, fromKey);
            Lookup(m', bankKey) == Some(BankV(BankAt(m, bankKey).(reserves := Reserves(m, bankKey) + amount * RateBetween(m, fromKey, toKey))))
    ensures fromKey != toKey && fromKey != FromBankKey(m, fromKey) && toKey != FromBankKey(m, fromKey) ==>
              Lookup(PayEffect(m, faults, fromKey, toKey, amount).0, fromKey)
              == Some(CustomerV(CustomerAt(m, fromKey).(balance := Balance(m, fromKey) - amount)))
  {
    PayWrites(m, faults, fromKey, toKey, amount);
    PlannedWrites(m, fromKey, toKey, amount);
  }

  /**
   * Over four distinct keys at rate 1, the sum of the two balances and the two
   * reserves is the same after the payment as before.
   */
  lemma PayIdentityRateConserves(m: State, faults: map<string, string>, fromKey: string, toKey: string, amount: real)
    requires RateBetween(m, fromKey, toKey) == 1.0
    requires Balance(m, fromKey) >= amount && Reserves(m, FromBankKey(m, fromKey)) >= amount
    requires Distinct4(fromKey, toKey, FromBankKey(m, fromKey), ToBankKey(m, toKey))
    requires fromKey !in faults && toKey !in faults
    requires FromBankKey(m, fromKey) !in faults && ToBankKey(m, toKey) !in faults
    ensures var m' := PayEffect(m, faults, fromKey, toKey, amount).0;
            Balance(m', fromKey) + Balance(m', toKey) + Reserves(m', FromBankKey(m, fromKey)) + Reserves(m', ToBankKey(m, toKey))
            == Balance(m, fromKey) + Balance(m, toKey) + Reserves(m, FromBankKey(m, fromKey)) + Reserves(m, ToBankKey(m, toKey))
  {
    PayDistinct(m, faults, fromKey, toKey, amount);
  }
}
