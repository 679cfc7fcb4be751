/** The currency-rate bot of lab4/lab4.py without its Telegram transport:
    the global rate table and one chat's conversation, driven by the
    message handlers as transitions of a finite-state machine. */
module CurrencyBot {
  import opened Results
  import opened CurrencyCode

  /** The FSM states of CurrencyStates; `Idle` is the cleared state. */
  datatype Step = Idle | Name | Rate | Currency | Amount

  /** The keys the handlers use in the conversation's stored data. */
  const CurrencyNameKey: string := "currency_name"
  const ConvertCurrencyKey: string := "convert_currency"

  /** The converted sum `amount * rate`; positive when both factors are. */
  function InRoubles(amount: real, rate: real): (r: real)
    ensures amount > 0.0 && rate > 0.0 ==> r > 0.0
  {
    amount * rate
  }

  class Bot {
    /** currency_rates: currency code to its rate in roubles. */
    var rates: map<string, real>
    /** The conversation's FSM state. */
    var state: Step
    /** The conversation's stored data (update_data / get_data). */
    var data: map<string, string>

    /** What every handler keeps true: stored rates are positive and keyed by
        codes, and each state holds the data its handler will read. */
    ghost predicate Valid()
      reads this
    {
      && (forall k :: k in rates ==> IsCode(k) && rates[k] > 0.0)
      && (state == Rate ==> CurrencyNameKey in data && IsCode(data[CurrencyNameKey]))
      && (state == Amount ==> ConvertCurrencyKey in data && data[ConvertCurrencyKey] in rates)
    }

    /** Start-up: no saved rates and no conversation in progress. */
    constructor ()
      ensures Valid()
      ensures rates == map[] && state == Idle && data == map[]
    {
      rates := map[];
      state := Idle;
      data := map[];
    }

    /** cmd_save_currency: enters the `name` state from any state. */
    method SaveCurrency()
      requires Valid()
      modifies this
      ensures Valid()
      ensures state == Name
      ensures rates == old(rates) && data == old(data)
    {
      state := Name;
    }

    /** process_currency_name: a normalised name of three letters is
        remembered and the bot asks for its rate; anything else is refused
        and the bot keeps waiting for a name. */
    method ProcessCurrencyName(text: string) returns (accepted: bool)
      requires Valid() && state == Name
      modifies this
      ensures Valid()
      ensures accepted <==> IsCode(Normalize(text))
      ensures rates == old(rates)
      ensures accepted ==> state == Rate && data == old(data)[CurrencyNameKey := Normalize(text)]
      ensures !accepted ==> state == Name && data == old(data)
    {
      var name := Normalize(text);
      if !Acceptable(text) {
        return false;
      }
      AcceptedIsUpperCode(text);
      data := data[CurrencyNameKey := name];
      state := Rate;
      return true;
    }

    /** process_currency_rate: `rate` is the parsed message, None when it is
        not a number. A positive rate is stored under the remembered name,
        replacing any earlier one, and the conversation is cleared; a missing
        or non-positive rate changes nothing. */
    method ProcessCurrencyRate(rate: Option<real>) returns (saved: bool)
      requires Valid() && state == Rate
      modifies this
      ensures Valid()
      ensures saved <==> rate.Some? && rate.value > 0.0
      ensures saved ==> rates == old(rates)[old(data)[CurrencyNameKey] := rate.value]
      ensures saved ==> state == Idle && data == map[]
      ensures !saved ==> rates == old(rates) && state == Rate && data == old(data)
    {
      if rate.None? || rate.value <= 0.0 {
        return false;
      }
      var name := data[CurrencyNameKey];
      rates := rates[name := rate.value];
      state := Idle;
      data := map[];
      return true;
    }

    /** cmd_convert: refused while no rate is saved, in which case the state
        is left as it was; otherwise the bot asks for a currency. It is reached
        from no state and from `currency` and `amount`: in `name` and `rate`
        the state's own handler is registered first and receives the text. */
    method Convert() returns (started: bool)
      requires Valid() && state != Name && state != Rate
      modifies this
      ensures Valid()
      ensures started <==> |old(rates)| > 0
      ensures rates == old(rates) && data == old(data)
      ensures started ==> state == Currency
      ensures !started ==> state == old(state)
    {
      if rates == map[] {
        return false;
      }
      state := Currency;
      return true;
    }

    /** process_convert_currency: a normalised name with a saved rate is
        remembered and the bot asks for an amount; an unknown one keeps the
        bot waiting for a currency. */
    method ProcessConvertCurrency(text: string) returns (found: bool)
      requires Valid() && state == Currency
      modifies this
      ensures Valid()
      ensures found <==> Normalize(text) in old(rates)
      ensures rates == old(rates)
      ensures found ==> state == Amount && data == old(data)[ConvertCurrencyKey := Normalize(text)]
      ensures !found ==> state == Currency && data == old(data)
    {
      var name := Normalize(text);
      if name !in rates {
        return false;
      }
      data := data[ConvertCurrencyKey := name];
      state := Amount;
      return true;
    }

    /** process_convert_amount: a positive amount is converted at the
        remembered currency's rate and the conversation is cleared; a missing
        or non-positive amount keeps the bot waiting. The rate table is only
        read. */
    method ProcessConvertAmount(amount: Option<real>) returns (result: Option<real>)
      requires Valid() && state == Amount
      modifies this
      ensures Valid()
      ensures rates == old(rates)
      ensures result.Some? <==> amount.Some? && amount.value > 0.0
      ensures result.Some? ==>
                && result.value == InRoubles(amount.value, old(rates)[old(data)[ConvertCurrencyKey]])
                && result.value > 0.0
                && state == Idle && data == map[]
      ensures result.None? ==> state == Amount && data == old(data)
    {
      if amount.None? || amount.value <= 0.0 {
        return None;
      }
      var name := data[ConvertCurrencyKey];
      var rate := rates[name];
      state := Idle;
      data := map[];
      return Some(InRoubles(amount.value, rate));
    }
  }

  /** A rate saved under one spelling of a code converts an amount typed
      against any other spelling that normalises to the same code. */
  method SaveThenConvert(nameText: string, rate: real, lookupText: string, amount: real)
    returns (result: Option<real>)
    requires IsCode(Normalize(nameText)) && rate > 0.0 && amount > 0.0
    requires Normalize(lookupText) == Normalize(nameText)
    ensures result == Some(InRoubles(amount, rate))
  {
    var code := Normalize(nameText);
    var bot := new Bot();
    bot.SaveCurrency();
    var accepted := bot.ProcessCurrencyName(nameText);
    assert bot.data[CurrencyNameKey] == code;
    var saved := bot.ProcessCurrencyRate(Some(rate));
    assert bot.rates == map[code := rate];
    var started := bot.Convert();
    var found := bot.ProcessConvertCurrency(lookupText);
    assert found && bot.data[ConvertCurrencyKey] == code;
    result := bot.ProcessConvertAmount(Some(amount));
  }

  /** Saving a second rate for the same code replaces the first one. */
  method SaveTwice(nameText: string, first: real, second: real) returns (stored: real)
    requires IsCode(Normalize(nameText)) && first > 0.0 && second > 0.0
    ensures stored == second
  {
    var bot := new Bot();
    bot.SaveCurrency();
    var accepted := bot.ProcessCurrencyName(nameText);
    var saved := bot.ProcessCurrencyRate(Some(first));
    bot.SaveCurrency();
    accepted := bot.ProcessCurrencyName(nameText);
    saved := bot.ProcessCurrencyRate(Some(second));
    stored := bot.rates[Normalize(nameText)];
  }

  /** /convert before any rate is saved is refused and leaves the bot idle. */
  method ConvertWithoutRates() returns (started: bool, step: Step)
    ensures !started && step == Idle
  {
    var bot := new Bot();
    started := bot.Convert();
    step := bot.state;
  }
}
