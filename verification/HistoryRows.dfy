/** Rows of the historical store and the checks a row must pass on its own. Times are seconds in one zone, dates are day
    numbers, money is in units of 0.0001. Fields that no rule reads are folded into `body`. */
module HistoryRows {
  import opened Basics

  type Time = int
  type Day = int

  const DAY_SECONDS := 86400

  function DayOf(t: Time): Day { t / DAY_SECONDS }

  datatype Session = Session(date: Day, openAt: Time, closeAt: Time, status: string, body: string)

  datatype Bar = Bar(symbol: string, timeframe: string, timestamp: Time, end: Time, open: int, high: int, low: int,
                     close: int, volume: int, version: string, availableAt: Time, body: string)

  datatype Contract = Contract(underlying: string, expiry: Day, strike: int, optionType: string, contractId: string,
                               providerId: string, lotSize: Option<int>, expiryClass: string, firstSeen: Time,
                               lastSeen: Time, version: string, listingStatus: string, sourceId: string)

  datatype Quote = Quote(contractId: string, timestamp: Time, bid: Option<int>, ask: Option<int>, volume: Option<int>,
                         openInterest: Option<int>, iv: Option<int>, delta: Option<int>, version: string,
                         availableAt: Time, body: string)

  datatype Error =
    | DatasetImmutable
    | UnsupportedUnderlying(symbol: string)
    | SessionStatus(status: string)
    | NegativeVolume
    | InvalidOhlc
    | FutureTimestamp
    | UnsupportedOptionType(kind: string)
    | InvalidStrike
    | InvalidLotSize
    | ContractWindow
    | NegativeBid
    | NegativeAsk
    | CrossedQuote
    | NegativeOpenInterest
    | DuplicateSession
    | DuplicateBar
    | DuplicateContract
    | IdentityCollision
    | DuplicateQuote
    | UnknownContract
    | WrongVersion
    | UnknownMappingPolicy(policy: string)
    | SlotTolerance
    | UnknownWarning
    | UnknownQualification(state: string)

  predicate IsLower(c: char) { 'a' <= c <= 'z' }

  function Upper(s: string): string {
    if s == "" then ""
    else [if IsLower(s[0]) then ((s[0] as int) - 32) as char else s[0]] + Upper(s[1..])
  }

  /** Capitals stay as they are. */
  lemma {:induction false} UpperFixed(s: string)
    requires forall i :: 0 <= i < |s| ==> !IsLower(s[i])
    ensures Upper(s) == s
  {
    if s != "" {
      UpperFixed(s[1..]);
    }
  }

  lemma {:induction false} UpperTwice(s: string)
    ensures Upper(Upper(s)) == Upper(s)
  {
    if s != "" {
      UpperTwice(s[1..]);
    }
  }

  const FORBIDDEN_UNDERLYINGS := {
    "RELIANCE", "TCS", "HDFCBANK", "INFY", "ICICIBANK", "SBIN", "BHARTIARTL", "ITC", "LT", "HINDUNILVR",
    "FUT", "FUTURES"
  }

  /** Single stocks and futures are refused everywhere. */
  predicate Forbidden(symbol: string) {
    var name := Upper(symbol);
    || name in FORBIDDEN_UNDERLYINGS
    || "FUT" <= name
    || (|name| >= 3 && name[|name| - 3..] == "FUT")
  }

  predicate IsOpen(session: Session) { session.status == "OPEN" }

  function SessionFault(session: Session): Option<Error> {
    if session.status != "OPEN" && session.status != "CLOSED" then Some(SessionStatus(session.status)) else None
  }

  function Max(a: int, b: int): int { if a < b then b else a }

  function Min(a: int, b: int): int { if a < b then a else b }

  function BarFault(bar: Bar): Option<Error> {
    if Forbidden(bar.symbol) then Some(UnsupportedUnderlying(bar.symbol))
    else if bar.volume < 0 then Some(NegativeVolume)
    else if Min(Min(bar.open, bar.high), Min(bar.low, bar.close)) <= 0 then Some(InvalidOhlc)
    else if bar.high < Max(bar.open, bar.close) || bar.low > Min(bar.open, bar.close) || bar.high < bar.low then
      Some(InvalidOhlc)
    else if bar.timestamp > bar.availableAt then Some(FutureTimestamp)
    else if bar.end < bar.timestamp then Some(InvalidOhlc)
    else None
  }

  function ContractFault(contract: Contract): Option<Error> {
    if Forbidden(contract.underlying) then Some(UnsupportedUnderlying(contract.underlying))
    else if contract.optionType != "CE" && contract.optionType != "PE" then
      Some(UnsupportedOptionType(contract.optionType))
    else if contract.strike <= 0 then Some(InvalidStrike)
    else if contract.lotSize.Some? && contract.lotSize.value < 1 then Some(InvalidLotSize)
    else if contract.firstSeen > contract.lastSeen then Some(ContractWindow)
    else None
  }

  predicate Negative(x: Option<int>) { x.Some? && x.value < 0 }

  function QuoteFault(quote: Quote): Option<Error> {
    if quote.timestamp > quote.availableAt then Some(FutureTimestamp)
    else if Negative(quote.bid) then Some(NegativeBid)
    else if Negative(quote.ask) then Some(NegativeAsk)
    else if quote.bid.Some? && quote.ask.Some? && quote.bid.value > quote.ask.value then Some(CrossedQuote)
    else if Negative(quote.volume) then Some(NegativeVolume)
    else if Negative(quote.openInterest) then Some(NegativeOpenInterest)
    else None
  }

  // The keys that must be unique.

  datatype BarKey = BarKey(symbol: string, timeframe: string, timestamp: Time)

  datatype Identity = Identity(underlying: string, expiry: Day, strike: int, optionType: string)

  datatype QuoteKey = QuoteKey(contractId: string, timestamp: Time)

  function SessionKeyOf(session: Session): Day { session.date }

  function BarKeyOf(bar: Bar): BarKey { BarKey(bar.symbol, bar.timeframe, bar.timestamp) }

  function ContractKeyOf(contract: Contract): string { contract.contractId }

  function IdentityOf(contract: Contract): Identity {
    Identity(contract.underlying, contract.expiry, contract.strike, contract.optionType)
  }

  function QuoteKeyOf(quote: Quote): QuoteKey { QuoteKey(quote.contractId, quote.timestamp) }

  ghost predicate UniqueBy<T, K>(xs: seq<T>, key: T -> K) {
    forall i, j :: 0 <= i < j < |xs| ==> key(xs[i]) != key(xs[j])
  }

  predicate Taken<T(==), K(==)>(xs: seq<T>, key: T -> K, k: K) {
    exists x <- xs :: key(x) == k
  }

  lemma UniqueGrows<T, K>(xs: seq<T>, key: T -> K, x: T)
    requires UniqueBy(xs, key) && !Taken(xs, key, key(x))
    ensures UniqueBy(xs + [x], key)
  {
  }

  /** Uniqueness does not depend on the order of the rows. */
  lemma UniquePermutation<T, K>(xs: seq<T>, ys: seq<T>, key: T -> K)
    requires UniqueBy(xs, key) && multiset(xs) == multiset(ys)
    ensures UniqueBy(ys, key)
  {
    forall i, j | 0 <= i < j < |ys|
      ensures key(ys[i]) != key(ys[j])
    {
      UniquePair(xs, ys, key, i, j);
    }
  }

  lemma UniquePair<T, K>(xs: seq<T>, ys: seq<T>, key: T -> K, i: nat, j: nat)
    requires UniqueBy(xs, key) && multiset(xs) == multiset(ys) && i < j < |ys|
    ensures key(ys[i]) != key(ys[j])
  {
    OnceEach(xs, ys[i]);
    if ys[i] == ys[j] {
      Twice(ys, i, j);
      assert false;
    } else {
      assert ys[i] in multiset(ys) && ys[j] in multiset(ys);
      var a := Occurrence(ys[i], xs);
      var b := Occurrence(ys[j], xs);
      assert a != b;
    }
  }
}
