/** The token record and the compiled-in token catalog of the swap widget
    (src/components/SwapWidget.tsx, lines 10-22). */
module Tokens {
  import opened Wrappers

  /** A catalog entry. `balance` is an optional, human-formatted decimal
      string ("1,250.00"); it is displayed, and copied by the "max" shortcut,
      but never parsed as a number. */
  datatype Token = Token(symbol: string, name: string, icon: string, balance: Option<string>)

  /** JavaScript truthiness of an optional string: both `undefined` and the
      empty string are falsy, every other string is truthy. */
  predicate Truthy(s: Option<string>): (r: bool)
    ensures s == None ==> !r
    ensures s == Some("") ==> !r
    ensures s.Some? && |s.value| > 0 ==> r
  {
    s.Some? && s.value != ""
  }

  /** The catalog, in display order. A token's identity is its symbol: no
      two entries share one, and every entry carries a non-empty balance. */
  function Catalog(): (c: seq<Token>)
    ensures |c| == 4
    ensures forall i, j :: 0 <= i < j < |c| ==> c[i].symbol != c[j].symbol
    ensures forall t :: t in c ==> Truthy(t.balance)
  {
    [ Token("ETH", "Ethereum", "\U{27E0}", Some("2.5432")),
      Token("DEXT", "DexTools", "\U{1F527}", Some("1,250.00")),
      Token("USDT", "Tether USD", "\U{20AE}", Some("500.25")),
      Token("USDC", "USD Coin", "\U{2299}", Some("750.80")) ]
  }

  /** The two entries the widget starts with. */
  lemma CatalogDefaults()
    ensures Catalog()[0].symbol == "ETH" && Catalog()[0].balance == Some("2.5432")
    ensures Catalog()[1].symbol == "DEXT" && Catalog()[1].balance == Some("1,250.00")
  {
  }
}
