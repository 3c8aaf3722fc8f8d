/**
 * The coin balance. One integer is persisted under the key `coins`; the coin
 * configuration (shop prices per rarity, roulette rewards per tier, the
 * initial balance) is fetched once and cached. The fetch is an input: the
 * parsed configuration, or None when it fails.
 */
module CoinService {
  import opened Wrappers

  datatype CoinsConfig = CoinsConfig(
    rarityPrices: map<string, int>,
    coinRewards: map<string, int>,
    initialCoins: Option<int>)

  /** The two errors the service throws. */
  datatype CoinError = ConfigUnavailable | InitialCoinsMissing

  /** `table[key] || 0`. */
  function TableValue(table: map<string, int>, key: string): (v: int)
    ensures key in table ==> v == table[key]
    ensures key !in table ==> v == 0
  {
    if key in table then table[key] else 0
  }

  /** loadCoinsConfig: the cached configuration, else the fetched one; a failed fetch is an error and caches nothing. */
  function LoadedConfig(cache: Option<CoinsConfig>, fetched: Option<CoinsConfig>): (r: Result<CoinsConfig, CoinError>)
    ensures cache.Some? ==> r == Ok(cache.value)
    ensures cache.None? ==> (r.Ok? <==> fetched.Some?)
    ensures cache.None? && fetched.Some? ==> r == Ok(fetched.value)
    ensures r.Err? ==> r.error == ConfigUnavailable
  {
    if cache.Some? then Ok(cache.value)
    else if fetched.Some? then Ok(fetched.value)
    else Err(ConfigUnavailable)
  }

  /** getCoins on a stored value and a loaded configuration: the stored balance, else the initial one. */
  function Balance(stored: Option<int>, cfg: CoinsConfig): (r: Result<int, CoinError>)
    ensures stored.Some? ==> r == Ok(stored.value)
    ensures stored.None? ==> (r.Ok? <==> cfg.initialCoins.Some?)
    ensures stored.None? && cfg.initialCoins.Some? ==> r == Ok(cfg.initialCoins.value)
  {
    if stored.Some? then Ok(stored.value)
    else if cfg.initialCoins.Some? then Ok(cfg.initialCoins.value)
    else Err(InitialCoinsMissing)
  }

  /** spendCoins on a balance: whether it succeeds and the balance afterwards. */
  function Spent(balance: int, amount: int): (r: (bool, int))
    ensures r.0 <==> 0 < amount <= balance
    ensures r.0 ==> r.1 == balance - amount && r.1 >= 0
    ensures !r.0 ==> r.1 == balance
  {
    if amount <= 0 || balance < amount then (false, balance) else (true, balance - amount)
  }

  /** addCoins on a balance: a non-positive amount is ignored. */
  function Credited(balance: int, amount: int): (r: int)
    ensures amount <= 0 ==> r == balance
    ensures amount > 0 ==> r == balance + amount && r > balance
  {
    if amount <= 0 then balance else balance + amount
  }

  /** setCoins: Math.max(0, amount). */
  function Clamp(amount: int): (r: int)
    ensures r >= 0
    ensures amount >= 0 ==> r == amount
    ensures amount < 0 ==> r == 0
  {
    if amount < 0 then 0 else amount
  }

  /** A refund of a successful spend gives back the balance before it. */
  lemma RefundRestores(balance: int, amount: int)
    requires Spent(balance, amount).0
    ensures Credited(Spent(balance, amount).1, amount) == balance
  {
  }

  /** Spending nothing never succeeds: a free card cannot be paid for. */
  lemma SpendZeroFails(balance: int)
    ensures !Spent(balance, 0).0 && Spent(balance, 0).1 == balance
  {
  }

  /** Clamping twice is clamping once. */
  lemma ClampIdempotent(amount: int)
    ensures Clamp(Clamp(amount)) == Clamp(amount)
  {
  }

  /** The coin service state. */
  class CoinLedger {
    /** The persisted balance (key `coins`); None when absent. */
    var stored: Option<int>
    /** The cached configuration (module variable `coinsConfig`). */
    var config: Option<CoinsConfig>

    constructor (stored0: Option<int>)
      ensures stored == stored0 && config == None
    {
      stored := stored0;
      config := None;
    }

    /** loadCoinsConfig. */
    method LoadConfig(fetched: Option<CoinsConfig>) returns (r: Result<CoinsConfig, CoinError>)
      modifies this
      ensures r == LoadedConfig(old(config), fetched)
      ensures config == (if r.Ok? then Some(r.value) else None)
      ensures stored == old(stored)
    {
      if config.Some? {
        return Ok(config.value);
      }
      if fetched.None? {
        return Err(ConfigUnavailable);
      }
      config := fetched;
      r := Ok(fetched.value);
    }

    /** getCoins: the first access with nothing stored stores and returns the initial balance. */
    method GetCoins(fetched: Option<CoinsConfig>) returns (r: Result<int, CoinError>)
      modifies this
      ensures var c := LoadedConfig(old(config), fetched);
              && (c.Err? ==> r == Err(ConfigUnavailable))
              && (c.Ok? ==> r == Balance(old(stored), c.value))
      ensures r.Ok? ==> stored == Some(r.value)
      ensures r.Err? ==> stored == old(stored)
      ensures old(stored).Some? && r.Ok? ==> r.value == old(stored).value
      ensures var c := LoadedConfig(old(config), fetched); config == (if c.Ok? then Some(c.value) else None)
    {
      var c := LoadConfig(fetched);
      if c.Err? {
        return Err(c.error);
      }
      if stored.None? {
        if c.value.initialCoins.None? {
          return Err(InitialCoinsMissing);
        }
        stored := c.value.initialCoins;
        return Ok(c.value.initialCoins.value);
      }
      r := Ok(stored.value);
    }

    /** addCoins: None for a non-positive amount, else the new total. */
    method AddCoins(amount: int, fetched: Option<CoinsConfig>) returns (r: Result<Option<int>, CoinError>)
      modifies this
      ensures amount <= 0 ==> r == Ok(None) && stored == old(stored) && config == old(config)
      ensures amount > 0 ==> var c := LoadedConfig(old(config), fetched);
              && (c.Err? ==> r == Err(ConfigUnavailable) && stored == old(stored))
              && (c.Ok? && Balance(old(stored), c.value).Err? ==> r == Err(InitialCoinsMissing) && stored == old(stored))
              && (c.Ok? && Balance(old(stored), c.value).Ok? ==>
                    var b := Balance(old(stored), c.value).value;
                    r == Ok(Some(Credited(b, amount))) && stored == Some(b + amount))
      ensures amount > 0 ==> var c := LoadedConfig(old(config), fetched); config == (if c.Ok? then Some(c.value) else None)
    {
      if amount <= 0 {
        return Ok(None);
      }
      var current := GetCoins(fetched);
      if current.Err? {
        return Err(current.error);
      }
      var total := current.value + amount;
      stored := Some(total);
      r := Ok(Some(total));
    }

    /** spendCoins: false for a non-positive amount or too small a balance, else the balance drops by amount. */
    method SpendCoins(amount: int, fetched: Option<CoinsConfig>) returns (r: Result<bool, CoinError>)
      modifies this
      ensures amount <= 0 ==> r == Ok(false) && stored == old(stored) && config == old(config)
      ensures amount > 0 ==> var c := LoadedConfig(old(config), fetched);
              && (c.Err? ==> r == Err(ConfigUnavailable) && stored == old(stored))
              && (c.Ok? && Balance(old(stored), c.value).Err? ==> r == Err(InitialCoinsMissing) && stored == old(stored))
              && (c.Ok? && Balance(old(stored), c.value).Ok? ==>
                    var b := Balance(old(stored), c.value).value;
                    r == Ok(Spent(b, amount).0) && stored == Some(Spent(b, amount).1))
      ensures amount > 0 ==> var c := LoadedConfig(old(config), fetched); config == (if c.Ok? then Some(c.value) else None)
    {
      if amount <= 0 {
        return Ok(false);
      }
      var current := GetCoins(fetched);
      if current.Err? {
        return Err(current.error);
      }
      if current.value < amount {
        return Ok(false);
      }
      stored := Some(current.value - amount);
      r := Ok(true);
    }

    /** setCoins: stores and returns the amount clamped at zero. */
    method SetCoins(amount: int) returns (r: int)
      modifies this
      ensures r == Clamp(amount) && stored == Some(r)
      ensures config == old(config)
    {
      r := if amount < 0 then 0 else amount;
      stored := Some(r);
    }

    /** getCardPrice. */
    method GetCardPrice(rarity: string, fetched: Option<CoinsConfig>) returns (r: Result<int, CoinError>)
      modifies this
      ensures var c := LoadedConfig(old(config), fetched);
              r == (if c.Ok? then Ok(TableValue(c.value.rarityPrices, rarity)) else Err(ConfigUnavailable))
      ensures stored == old(stored)
      ensures var c := LoadedConfig(old(config), fetched); config == (if c.Ok? then Some(c.value) else None)
    {
      var c := LoadConfig(fetched);
      if c.Err? {
        return Err(c.error);
      }
      r := Ok(TableValue(c.value.rarityPrices, rarity));
    }

    /** getCoinReward. */
    method GetCoinReward(tier: string, fetched: Option<CoinsConfig>) returns (r: Result<int, CoinError>)
      modifies this
      ensures var c := LoadedConfig(old(config), fetched);
              r == (if c.Ok? then Ok(TableValue(c.value.coinRewards, tier)) else Err(ConfigUnavailable))
      ensures stored == old(stored)
      ensures var c := LoadedConfig(old(config), fetched); config == (if c.Ok? then Some(c.value) else None)
    {
      var c := LoadConfig(fetched);
      if c.Err? {
        return Err(c.error);
      }
      r := Ok(TableValue(c.value.coinRewards, tier));
    }

    /** canAffordCard: the balance is at least the price. */
    method CanAffordCard(rarity: string, fetched: Option<CoinsConfig>) returns (r: Result<bool, CoinError>)
      modifies this
      ensures var c := LoadedConfig(old(config), fetched);
              && (c.Err? ==> r == Err(ConfigUnavailable))
              && (c.Ok? && Balance(old(stored), c.value).Err? ==> r == Err(InitialCoinsMissing))
              && (c.Ok? && Balance(old(stored), c.value).Ok? ==>
                    r == Ok(Balance(old(stored), c.value).value >= TableValue(c.value.rarityPrices, rarity)))
      ensures var c := LoadedConfig(old(config), fetched);
              && (c.Ok? && Balance(old(stored), c.value).Ok? ==> stored == Some(Balance(old(stored), c.value).value))
              && (c.Err? || Balance(old(stored), c.value).Err? ==> stored == old(stored))
      ensures var c := LoadedConfig(old(config), fetched); config == (if c.Ok? then Some(c.value) else None)
    {
      var coins := GetCoins(fetched);
      if coins.Err? {
        return Err(coins.error);
      }
      var price := GetCardPrice(rarity, fetched);
      var p := if price.Ok? then price.value else 0;
      r := Ok(coins.value >= p);
    }

    /** getConfig. */
    method GetConfig(fetched: Option<CoinsConfig>) returns (r: Result<CoinsConfig, CoinError>)
      modifies this
      ensures r == LoadedConfig(old(config), fetched)
      ensures config == (if r.Ok? then Some(r.value) else None)
      ensures stored == old(stored)
    {
      r := LoadConfig(fetched);
    }

    /** clearCoins: forgets the balance and the cached configuration. */
    method ClearCoins()
      modifies this
      ensures stored == None && config == None
    {
      stored := None;
      config := None;
    }
  }
}
