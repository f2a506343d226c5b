/**
 * Invoke's routing: the function name selects a handler, and each handler
 * checks its argument count before anything else. The handlers parse their
 * numeric argument themselves, so a routed request carries its texts.
 */
module Dispatch {
  import opened Wrappers
  import opened Domain

  /** A routed call, with its arguments by position. */
  datatype Request =
    | InitLedger
    | QueryAll
    | Query(key: string)
    | Pay(fromKey: string, toKey: string, amountText: string)
    | CreateBank(name: string, bankID: string, country: string, currency: string, reservesText: string)
    | CreateCustomer(name: string, custID: string, country: string, currency: string, balanceText: string,
                     customerBankID: string)
    | CreateForex(pair: string, rateText: string)

  /** Why a call is refused before any handler touches the ledger. */
  datatype RouteError = UnknownFunction | WrongArgCount(handler: string)

  datatype Routing = Routed(request: Request) | Refused(error: RouteError)

  /** The argument check a handler makes before anything else. */
  datatype ArgCheck = AnyCount | Exactly(count: nat)

  /**
   * The handler table, in the order Invoke tests the names: initLedger checks
   * no count, the others an exact one; any other name has no handler.
   */
  function Handler(name: string): Option<ArgCheck>
  {
    if name == "initLedger" then Some(AnyCount)
    else if name == "queryAll" then Some(Exactly(1))
    else if name == "query" then Some(Exactly(1))
    else if name == "pay" then Some(Exactly(3))
    else if name == "createBank" then Some(Exactly(5))
    else if name == "createCustomer" then Some(Exactly(6))
    else if name == "createForex" then Some(Exactly(2))
    else None
  }

  /** The handler for `name` accepts `n` arguments. */
  predicate Accepts(name: string, n: nat)
  {
    Handler(name) == Some(AnyCount) || Handler(name) == Some(Exactly(n))
  }

  /** The handler for `name` demands a count other than `n`. */
  predicate Rejects(name: string, n: nat)
  {
    Handler(name).Some? && Handler(name).value.Exactly? && Handler(name).value.count != n
  }

  function NameOf(r: Request): string
  {
    match r
    case InitLedger => "initLedger"
    case QueryAll => "queryAll"
    case Query(_) => "query"
    case Pay(_, _, _) => "pay"
    case CreateBank(_, _, _, _, _) => "createBank"
    case CreateCustomer(_, _, _, _, _, _) => "createCustomer"
    case CreateForex(_, _) => "createForex"
  }

  /** The error text of each refusal, as the handlers word it. */
  function Message(e: RouteError): string
  {
    match e
    case UnknownFunction => "Invalid Smart Contract function name."
    case WrongArgCount(f) =>
      if f == "queryAll" then "Incorrect number of arguments for querying all assets. Expecting 1"
      else if f == "createBank" then "Incorrect number of arguments for creating a bank. Expecting 5"
      else if f == "createCustomer" then "Incorrect number of arguments for creating a customer. Expecting 6"
      else if f == "createForex" then "Incorrect number of arguments for creating a forex pair. Expecting 2"
      else if f == "pay" then "Incorrect number of arguments. Expecting 2"
      else "Incorrect number of arguments. Expecting 1"
  }

  function Route(name: string, args: seq<string>): (r: Routing)
    ensures r.Routed? <==> Accepts(name, |args|)
    ensures r.Routed? ==> NameOf(r.request) == name
    ensures Handler(name) == None ==> r == Refused(UnknownFunction)
    ensures Rejects(name, |args|) ==> r == Refused(WrongArgCount(name))
  {
    if name == "initLedger" then Routed(InitLedger)
    else if name == "queryAll" then
      if |args| != 1 then Refused(WrongArgCount(name)) else Routed(QueryAll)
    else if name == "query" then
      if |args| != 1 then Refused(WrongArgCount(name)) else Routed(Query(args[0]))
    else if name == "pay" then
      if |args| != 3 then Refused(WrongArgCount(name)) else Routed(Pay(args[0], args[1], args[2]))
    else if name == "createBank" then
      if |args| != 5 then Refused(WrongArgCount(name))
      else Routed(CreateBank(args[0], args[1], args[2], args[3], args[4]))
    else if name == "createCustomer" then
      if |args| != 6 then Refused(WrongArgCount(name))
      else Routed(CreateCustomer(args[0], args[1], args[2], args[3], args[4], args[5]))
    else if name == "createForex" then
      if |args| != 2 then Refused(WrongArgCount(name)) else Routed(CreateForex(args[0], args[1]))
    else Refused(UnknownFunction)
  }

  /**
   * Every request kind is reached by its own name with the argument count its
   * handler demands; no other name is routed at all.
   */
  lemma RouteReachesEveryHandler(r: Request, args: seq<string>)
    requires Accepts(NameOf(r), |args|)
    ensures Route(NameOf(r), args).Routed?
    ensures Route(NameOf(r), args).request.InitLedger? == r.InitLedger?
    ensures Route(NameOf(r), args).request.QueryAll? == r.QueryAll?
    ensures Route(NameOf(r), args).request.Query? == r.Query?
    ensures Route(NameOf(r), args).request.Pay? == r.Pay?
    ensures Route(NameOf(r), args).request.CreateBank? == r.CreateBank?
    ensures Route(NameOf(r), args).request.CreateCustomer? == r.CreateCustomer?
    ensures Route(NameOf(r), args).request.CreateForex? == r.CreateForex?
  {
  }

  /** Exactly seven names have a handler; every other name is refused as unknown. */
  lemma RoutedNames(name: string, args: seq<string>)
    ensures Route(name, args) != Refused(UnknownFunction) <==>
              name in {"initLedger", "queryAll", "query", "pay", "createBank", "createCustomer", "createForex"}
    ensures Handler(name).Some? <==> Route(name, args) != Refused(UnknownFunction)
  {
  }

  /**
   * The arguments by position: pay takes (from, to, amount); createBank (name,
   * bankID, country, currency, reserves); createCustomer (name, custID, country,
   * currency, balance, bankID); createForex (pair, rate).
   */
  lemma RouteDecodes(name: string, args: seq<string>)
    requires Route(name, args).Routed?
    ensures var q := Route(name, args).request;
            && (q.Query? ==> q.key == args[0])
            && (q.Pay? ==> [q.fromKey, q.toKey, q.amountText] == args)
            && (q.CreateBank? ==> [q.name, q.bankID, q.country, q.currency, q.reservesText] == args)
            && (q.CreateCustomer? ==> [q.name, q.custID, q.country, q.currency, q.balanceText, q.customerBankID] == args)
            && (q.CreateForex? ==> [q.pair, q.rateText] == args)
  {
  }
}
