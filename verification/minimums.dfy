/**
 * The per-currency minimum charge table and its case-insensitive lookup
 * with a default of 50 smallest units.
 */
module Minimums {
  import opened Text

  /** Minimum chargeable amount, in the currency's smallest unit, keyed by lower-case code. */
  const MinimumAmounts: map<string, nat> := map[
    "usd" := 50, "eur" := 50, "gbp" := 30, "cad" := 50,
    "aud" := 50, "jpy" := 50, "mxn" := 10, "brl" := 50,
    "ars" := 50, "clp" := 50, "cop" := 2000, "pen" := 200
  ]

  /** Used when the table has no (truthy) entry for the currency. */
  const DefaultMinimum: nat := 50

  /**
   * `getMinimumAmount`: the table entry for the lower-cased code; a missing
   * entry, or an entry equal to 0 (falsy), falls back to the default.
   */
  function GetMinimumAmount(currency: string): (r: nat)
    ensures Lower(currency) !in MinimumAmounts ==> r == DefaultMinimum
    ensures 10 <= r <= 2000
  {
    var key := Lower(currency);
    if key in MinimumAmounts && MinimumAmounts[key] != 0 then MinimumAmounts[key] else DefaultMinimum
  }

  /** No table entry is falsy, so the `|| 50` fallback never overrides a listed currency. */
  lemma ListedCurrencyWins(currency: string)
    requires Lower(currency) in MinimumAmounts
    ensures GetMinimumAmount(currency) == MinimumAmounts[Lower(currency)]
    ensures GetMinimumAmount(currency) > 0
  {
  }

  /** Two spellings that agree after lower-casing have the same minimum. */
  lemma {:induction false} CaseInsensitive(currency: string)
    ensures GetMinimumAmount(Upper(currency)) == GetMinimumAmount(currency)
    ensures GetMinimumAmount(Lower(currency)) == GetMinimumAmount(currency)
  {
    LowerOfUpper(currency);
    LowerIdempotent(currency);
  }

  /** A lower-case code is its own lookup key. */
  lemma LowerCaseKey(code: string)
    requires forall i :: 0 <= i < |code| ==> 'a' <= code[i] <= 'z'
    ensures Lower(code) == code
  {
  }

  /** Every listed currency gets its own entry through the lookup. */
  lemma TableEntries(code: string)
    requires code in MinimumAmounts
    ensures GetMinimumAmount(code) == MinimumAmounts[code]
  {
    assert code in {"usd", "eur", "gbp", "cad", "aud", "jpy", "mxn", "brl", "ars", "clp", "cop", "pen"};
    assert forall i :: 0 <= i < |code| ==> 'a' <= code[i] <= 'z';
    LowerCaseKey(code);
  }

  /** The entries as listed: usd 50, gbp 30, mxn 10, cop 2000, pen 200. */
  lemma TableExamples()
    ensures GetMinimumAmount("usd") == 50
    ensures GetMinimumAmount("gbp") == 30
    ensures GetMinimumAmount("mxn") == 10
    ensures GetMinimumAmount("cop") == 2000
    ensures GetMinimumAmount("pen") == 200
  {
    TableEntries("usd");
    TableEntries("gbp");
    TableEntries("mxn");
    TableEntries("cop");
    TableEntries("pen");
  }

  /** A currency outside the table, such as `chf`, gets the default. */
  lemma UnlistedDefault()
    ensures GetMinimumAmount("chf") == 50
    ensures GetMinimumAmount("") == 50
  {
    assert Lower("chf") == "chf";
  }
}
