/**
 * Currency conversion (pkg/currency/service.go). The key/value store is a
 * map from currency to its exchange rate against the euro, plus the set of
 * keys whose lookup fails. Amounts are reals; Go's float64 division by a
 * zero rate, which gives an infinity or NaN, is the `NonFinite` amount.
 */
module CurrencyService {
  import opened Wrappers

  const Eur := "EUR"
  const Usd := "USD"

  const MsgGettingRate := "CurrencyService: error getting exchange rate"
  const MsgParsingRate := "CurrencyService: error parsing exchange rate"
  const MsgConvertingToEur := "CurrencyService: error converting to eur"

  datatype KvStore = KvStore(entries: map<string, real>, failing: set<string>)

  /** A failed store access on `key`, and errors.WithMessage wrapped around an error. */
  datatype Error = StoreError(key: string) | WithMessage(cause: Error, message: string)

  /** The error a failed rate lookup of `key` surfaces as, once ToEur or ToCurrency has wrapped it. */
  function RateError(key: string): Error
  {
    WithMessage(WithMessage(StoreError(key), MsgGettingRate), MsgParsingRate)
  }

  datatype Amount = Finite(value: real) | NonFinite

  /** float64 division: a zero divisor gives an infinity or NaN. */
  function Divide(value: real, rate: real): (r: Amount)
    ensures r.Finite? <==> rate != 0.0
    ensures r.Finite? ==> r.value * rate == value
  {
    if rate == 0.0 then NonFinite else Finite(value / rate)
  }

  /** float64 multiplication of a possibly non-finite amount. */
  function Multiply(a: Amount, rate: real): (r: Amount)
    ensures r.Finite? <==> a.Finite?
    ensures r.Finite? ==> r.value == a.value * rate
  {
    match a
    case NonFinite => NonFinite
    case Finite(v) => Finite(v * rate)
  }

  /** HasCurrency: the euro without asking the store; any other currency by store.Contains. */
  function HasCurrency(store: KvStore, currency: string): (r: Result<bool, Error>)
    ensures currency == Eur ==> r == Success(true)
    ensures currency != Eur ==> (r.Failure? <==> currency in store.failing)
    ensures currency != Eur && r.Success? ==> (r.value <==> currency in store.entries)
  {
    if currency == Eur then Success(true)
    else if currency in store.failing then Failure(StoreError(currency))
    else Success(currency in store.entries)
  }

  /** The answer for the euro does not depend on the store at all. */
  lemma HasCurrencyEurIgnoresStore(a: KvStore, b: KvStore)
    ensures HasCurrency(a, Eur) == HasCurrency(b, Eur)
  {
  }

  /**
   * getExchangeRate: a failed lookup is an error; a missing key is a rate of
   * 0 with no error, because wrapping a nil error gives nil.
   */
  function GetExchangeRate(store: KvStore, key: string): (r: Result<real, Error>)
    ensures r.Failure? <==> key in store.failing
    ensures r.Failure? ==> r.error == WithMessage(StoreError(key), MsgGettingRate)
    ensures r.Success? ==> r.value == (if key in store.entries then store.entries[key] else 0.0)
  {
    if key in store.failing then Failure(WithMessage(StoreError(key), MsgGettingRate))
    else if key !in store.entries then Success(0.0)
    else Success(store.entries[key])
  }

  /** ToEur: the value itself for euros, otherwise the value divided by the rate of `from`. */
  function ToEur(store: KvStore, value: real, from: string): (r: Result<Amount, Error>)
    ensures from == Eur ==> r == Success(Finite(value))
    ensures from != Eur ==> (r.Failure? <==> from in store.failing)
    ensures r.Failure? ==> r.error == RateError(from)
    ensures from != Eur && r.Success? ==> r.value == Divide(value, GetExchangeRate(store, from).value)
  {
    if from == Eur then Success(Finite(value))
    else
      var rate := GetExchangeRate(store, from);
      if rate.Failure? then Failure(WithMessage(rate.error, MsgParsingRate))
      else Success(Divide(value, rate.value))
  }

  /**
   * ToCurrency: the value itself when both currencies agree; otherwise the
   * rate of `to` is looked up first, then the value is converted to euros and
   * multiplied by that rate.
   */
  function ToCurrency(store: KvStore, to: string, value: real, from: string): (r: Result<Amount, Error>)
    ensures from == to ==> r == Success(Finite(value))
    ensures from != to && to in store.failing ==> r == Failure(RateError(to))
    ensures from != to && to !in store.failing ==> (r.Failure? <==> ToEur(store, value, from).Failure?)
    ensures from != to && to !in store.failing && r.Failure? ==> r.error == WithMessage(RateError(from), MsgConvertingToEur)
    ensures from != to && r.Success? ==> r.value == Multiply(ToEur(store, value, from).value, GetExchangeRate(store, to).value)
  {
    if from == to then Success(Finite(value))
    else
      var rate := GetExchangeRate(store, to);
      if rate.Failure? then Failure(WithMessage(rate.error, MsgParsingRate))
      else
        var eur := ToEur(store, value, from);
        if eur.Failure? then Failure(WithMessage(eur.error, MsgConvertingToEur))
        else Success(Multiply(eur.value, rate.value))
  }

  /** ToUsd: the value itself for dollars, otherwise a conversion into dollars. */
  function ToUsd(store: KvStore, value: real, from: string): (r: Result<Amount, Error>)
    ensures from == Usd ==> r == Success(Finite(value))
    ensures from != Usd ==> r == ToCurrency(store, Usd, value, from)
  {
    if from == Usd then Success(Finite(value)) else ToCurrency(store, Usd, value, from)
  }

  /** When both rates fail to load, the error is the target currency's, not the source's. */
  lemma TargetRateErrorFirst(store: KvStore, to: string, value: real, from: string)
    requires from != to && from != Eur && to in store.failing && from in store.failing
    ensures ToEur(store, value, from) == Failure(RateError(from))
    ensures ToCurrency(store, to, value, from) == Failure(RateError(to))
  {
  }

  /** Converting there and back with stored, non-zero rates gives the original value. */
  lemma ToCurrencyRoundTrip(store: KvStore, a: string, b: string, value: real)
    requires a != b && a != Eur && b != Eur
    requires a in store.entries && b in store.entries && a !in store.failing && b !in store.failing
    requires store.entries[a] != 0.0 && store.entries[b] != 0.0
    ensures ToCurrency(store, b, value, a).Success? && ToCurrency(store, b, value, a).value.Finite?
    ensures ToCurrency(store, a, ToCurrency(store, b, value, a).value.value, b) == Success(Finite(value))
  {
    var ra, rb := store.entries[a], store.entries[b];
    var there := value / ra * rb;
    assert GetExchangeRate(store, a) == Success(ra) && GetExchangeRate(store, b) == Success(rb);
    assert Divide(value, ra) == Finite(value / ra) && Multiply(Finite(value / ra), rb) == Finite(there);
    assert ToEur(store, value, a) == Success(Finite(value / ra));
    assert ToCurrency(store, b, value, a) == Success(Finite(there));
    assert there / rb == value / ra;
    assert Divide(there, rb) == Finite(value / ra);
    assert ToEur(store, there, b) == Success(Finite(value / ra));
    assert value / ra * ra == value;
    assert Multiply(Finite(value / ra), ra) == Finite(value);
  }

  /**
   * A currency missing from the store converts silently: out of it to a
   * non-finite amount, into it to zero.
   */
  lemma MissingCurrencyConvertsSilently(store: KvStore, missing: string, value: real)
    requires missing != Eur && missing !in store.entries && missing !in store.failing
    ensures ToEur(store, value, missing) == Success(NonFinite)
    ensures ToCurrency(store, missing, value, Eur) == Success(Finite(0.0))
  {
  }

  /** Converting into euros through ToCurrency reads a rate for "EUR", so without one it gives zero. */
  lemma ToCurrencyIntoEurNeedsStoredRate(store: KvStore, value: real, from: string)
    requires from != Eur && Eur !in store.entries && Eur !in store.failing
    requires from in store.entries && from !in store.failing && store.entries[from] != 0.0
    ensures ToCurrency(store, Eur, value, from) == Success(Finite(0.0))
    ensures ToEur(store, value, from) == Success(Finite(value / store.entries[from]))
  {
  }
}
