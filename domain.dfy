/**
 * The three record types the chaincode persists, the key under which each is
 * stored, and the "decode or default" reading of a ledger entry that mirrors
 * json.Unmarshal into a zero-valued Go struct.
 */
module Domain {
  import opened Wrappers

  /** A bank; `reserves` is its liquidity in its home currency. */
  datatype Bank = Bank(name: string, bankID: string, country: string, currency: string, reserves: real)

  /** A customer; `customerBankID` refers to a Bank by its key. */
  datatype Customer = Customer(name: string, custID: string, country: string, currency: string,
                               balance: real, customerBankID: string)

  /** A one-directional exchange rate for the pair "FROM:TO". */
  datatype Forex = Forex(pair: string, rate: real)

  /** What the ledger holds under a key: one record of one of the three kinds. */
  datatype Value = BankV(bank: Bank) | CustomerV(customer: Customer) | ForexV(forex: Forex)

  /** The world state: keys to records. */
  type State = map<string, Value>

  /** The response of a chaincode call: a payload, or a message. */
  datatype Response = Success(body: Body) | Error(message: string)

  /**
   * Success payloads: nothing, the bytes stored under a key (nil when absent), or a JSON text.
   * Nil and Stored(None) are both `shim.Success(nil)` on the wire; the model keeps
   * them apart so that a lemma can say which handler answered.
   */
  datatype Body = Nil | Stored(record: Option<Value>) | Listing(text: string)

  const ZeroBank := Bank("", "", "", "", 0.0)
  const ZeroCustomer := Customer("", "", "", "", 0.0, "")
  const ZeroForex := Forex("", 0.0)

  /** The key a customer is stored under. */
  function CustomerKey(c: Customer): string
  {
    c.name + "_" + c.custID
  }

  /** The key a loader stores a record under: Pair, BankID, or Name + "_" + CustID. */
  function KeyOf(v: Value): string
  {
    match v
    case ForexV(f) => f.pair
    case BankV(b) => b.bankID
    case CustomerV(c) => CustomerKey(c)
  }

  /** The message a loader returns when the record's key is already taken. */
  function DuplicateMessage(v: Value): string
  {
    match v
    case ForexV(_) => " Forex Pair with key:" + KeyOf(v) + " already exists.. skipping ......."
    case BankV(_) => " Forex Bank with key:" + KeyOf(v) + " already exists.. skipping ......."
    case CustomerV(_) => " Forex Customer with key:" + KeyOf(v) + " already exists.. skipping ......."
  }

  /**
   * Reading an entry as a Customer. An absent key decodes to the zero Customer.
   * A Bank's JSON fills exactly the fields whose tags the two types share
   * (name, country, currency); a Forex's JSON shares no tag with a Customer.
   */
  function AsCustomer(v: Option<Value>): (c: Customer)
    ensures v == None ==> c == ZeroCustomer
    ensures (v.Some? && v.value.CustomerV?) ==> c == v.value.customer
    ensures (v.Some? && !v.value.CustomerV?) ==> c.balance == 0.0 && c.custID == "" && c.customerBankID == ""
  {
    match v
    case None => ZeroCustomer
    case Some(CustomerV(c)) => c
    case Some(BankV(b)) => Customer(b.name, "", b.country, b.currency, 0.0, "")
    case Some(ForexV(_)) => ZeroCustomer
  }

  /** Reading an entry as a Bank, with the same rules as AsCustomer. */
  function AsBank(v: Option<Value>): (b: Bank)
    ensures v == None ==> b == ZeroBank
    ensures (v.Some? && v.value.BankV?) ==> b == v.value.bank
    ensures (v.Some? && !v.value.BankV?) ==> b.reserves == 0.0 && b.bankID == ""
  {
    match v
    case None => ZeroBank
    case Some(BankV(b)) => b
    case Some(CustomerV(c)) => Bank(c.name, "", c.country, c.currency, 0.0)
    case Some(ForexV(_)) => ZeroBank
  }

  /** Reading an entry as a Forex: only a stored Forex gives a non-zero rate. */
  function AsForex(v: Option<Value>): (f: Forex)
    ensures (v.Some? && v.value.ForexV?) ==> f == v.value.forex
    ensures !(v.Some? && v.value.ForexV?) ==> f == ZeroForex
  {
    match v
    case Some(ForexV(f)) => f
    case _ => ZeroForex
  }

  /** GetState: the entry under `k`, or None when the key is absent. */
  function Lookup(m: State, k: string): (r: Option<Value>)
    ensures r.Some? <==> k in m
    ensures r.Some? ==> r.value == m[k]
  {
    if k in m then Some(m[k]) else None
  }

  function CustomerAt(m: State, k: string): Customer { AsCustomer(Lookup(m, k)) }
  function BankAt(m: State, k: string): Bank { AsBank(Lookup(m, k)) }
  function ForexAt(m: State, k: string): Forex { AsForex(Lookup(m, k)) }
}
