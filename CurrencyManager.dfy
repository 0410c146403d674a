/**
 * The two balances of the economy: the currency earned in the current run
 * (session) and the persistent total that the shop spends from. The total is
 * written to the prefs store under "TotalCurrency" whenever it changes.
 */
module CurrencyManager {
  import opened PlayerPrefs

  const TotalCurrencyKey: string := "TotalCurrency"

  class CurrencyManager {
    const startingCurrency: int
    const prefs: Prefs
    var sessionCurrency: int
    var totalCurrency: int
    /** Every amount announced by OnCurrencySpent. */
    var spent: seq<int>
    /** Every session balance announced by OnSessionCurrencyChanged. */
    var sessionChanges: seq<int>
    /** Every total announced by OnTotalCurrencyChanged. */
    var totalChanges: seq<int>

    /** The stored total always matches the in-memory total. */
    ghost predicate Valid()
      reads this, prefs
    {
      prefs.GetInt(TotalCurrencyKey, 0) == totalCurrency
    }

    /**
     * Awake loads the total from the store (0 when absent); Start sets the
     * session to the starting amount and announces both balances.
     */
    constructor (startingCurrency: int, prefs: Prefs)
      ensures Valid()
      ensures this.startingCurrency == startingCurrency && this.prefs == prefs
      ensures totalCurrency == prefs.GetInt(TotalCurrencyKey, 0) && sessionCurrency == startingCurrency
      ensures spent == [] && sessionChanges == [sessionCurrency] && totalChanges == [totalCurrency]
    {
      this.startingCurrency := startingCurrency;
      this.prefs := prefs;
      totalCurrency := prefs.GetInt(TotalCurrencyKey, 0);
      sessionCurrency := startingCurrency;
      spent := [];
      sessionChanges := [sessionCurrency];
      totalChanges := [totalCurrency];
    }

    /** Writes the total to the store. */
    method SaveCurrency()
      modifies prefs
      ensures Valid()
      ensures prefs.ints == old(prefs.ints)[TotalCurrencyKey := totalCurrency] && prefs.floats == old(prefs.floats)
    {
      prefs.SetInt(TotalCurrencyKey, totalCurrency);
    }

    /** Adds a positive amount to the session balance only and announces it; other amounts are ignored. */
    method AddCurrency(amount: int)
      modifies this`sessionCurrency, this`sessionChanges
      ensures sessionCurrency == old(sessionCurrency) + if amount > 0 then amount else 0
      ensures sessionChanges == old(sessionChanges) + if amount > 0 then [sessionCurrency] else []
    {
      if amount <= 0 {
        return;
      }
      sessionCurrency := sessionCurrency + amount;
      sessionChanges := sessionChanges + [sessionCurrency];
    }

    /** A cost is affordable exactly when paying it leaves the total non-negative. */
    function CanAfford(cost: int): (b: bool)
      reads this
      ensures b <==> totalCurrency - cost >= 0
    {
      totalCurrency >= cost
    }

    /**
     * Spends from the total: succeeds exactly for a positive amount the total
     * covers, and then lowers the total by that amount, announces the new
     * total and the amount spent, and stores the total; a refused spend
     * changes nothing. The session balance is never touched.
     */
    method SpendCurrency(amount: int) returns (ok: bool)
      requires Valid()
      modifies this`totalCurrency, this`spent, this`totalChanges, prefs
      ensures Valid()
      ensures ok <==> amount > 0 && old(totalCurrency) >= amount
      ensures ok ==> totalCurrency == old(totalCurrency) - amount && spent == old(spent) + [amount] &&
                     totalChanges == old(totalChanges) + [totalCurrency] &&
                     prefs.ints == old(prefs.ints)[TotalCurrencyKey := totalCurrency]
      ensures !ok ==> totalCurrency == old(totalCurrency) && spent == old(spent) && totalChanges == old(totalChanges) &&
                      prefs.ints == old(prefs.ints)
      ensures prefs.floats == old(prefs.floats)
      ensures old(totalCurrency) >= 0 ==> totalCurrency >= 0
    {
      if amount <= 0 {
        return false;
      }
      if !CanAfford(amount) {
        return false;
      }
      totalCurrency := totalCurrency - amount;
      totalChanges := totalChanges + [totalCurrency];
      spent := spent + [amount];
      SaveCurrency();
      ok := true;
    }

    /**
     * Banks the session into the total, announces and stores it; the session
     * is not cleared, so banking twice counts it twice.
     */
    method EndSession()
      modifies this`totalCurrency, this`totalChanges, prefs
      ensures Valid()
      ensures totalCurrency == old(totalCurrency) + sessionCurrency
      ensures totalChanges == old(totalChanges) + [totalCurrency]
      ensures prefs.ints == old(prefs.ints)[TotalCurrencyKey := totalCurrency] && prefs.floats == old(prefs.floats)
    {
      totalCurrency := totalCurrency + sessionCurrency;
      totalChanges := totalChanges + [totalCurrency];
      SaveCurrency();
    }

    /** Clears the session balance only, and announces it. */
    method ResetSession()
      modifies this`sessionCurrency, this`sessionChanges
      ensures sessionCurrency == 0
      ensures sessionChanges == old(sessionChanges) + [0]
    {
      sessionCurrency := 0;
      sessionChanges := sessionChanges + [sessionCurrency];
    }

    /** Adds any amount, even a negative one, straight to the total, announces and stores it. */
    method AddTotalCurrency(amount: int)
      modifies this`totalCurrency, this`totalChanges, prefs
      ensures Valid()
      ensures totalCurrency == old(totalCurrency) + amount
      ensures totalChanges == old(totalChanges) + [totalCurrency]
      ensures prefs.ints == old(prefs.ints)[TotalCurrencyKey := totalCurrency] && prefs.floats == old(prefs.floats)
    {
      totalCurrency := totalCurrency + amount;
      totalChanges := totalChanges + [totalCurrency];
      SaveCurrency();
    }

    /** Clears both balances, announces both zeros and stores the zero total. */
    method ResetAllCurrency()
      modifies this`sessionCurrency, this`totalCurrency, this`sessionChanges, this`totalChanges, prefs
      ensures Valid()
      ensures sessionCurrency == 0 && totalCurrency == 0
      ensures sessionChanges == old(sessionChanges) + [0] && totalChanges == old(totalChanges) + [0]
      ensures prefs.ints == old(prefs.ints)[TotalCurrencyKey := 0] && prefs.floats == old(prefs.floats)
    {
      sessionCurrency := 0;
      totalCurrency := 0;
      sessionChanges := sessionChanges + [sessionCurrency];
      totalChanges := totalChanges + [totalCurrency];
      SaveCurrency();
    }
  }
}
