/** The fixed table of assets the form can disperse. */
module Tokens {
  import opened Wrappers

  /** An asset: its symbol, its ERC-20 contract address ("" for the chain's native asset) and its decimals. */
  datatype Token = Token(symbol: string, address: string, decimals: nat)

  const TokenList: seq<Token> := [
    Token("GHO", "", 18),
    Token("WGHO", "0x6bDc36E20D267Ff0dd6097799f82e78907105e2F", 18),
    Token("BONSAI", "0xB0588f9A9cADe7CD5f194a5fe77AcD6A58250f82", 18),
    Token("WETH", "0xE5ecd226b3032910CEaa43ba92EE8232f8237553", 18),
    Token("USDC", "0x88F08E304EC4f90D644Cec3Fb69b8aD414acf884", 6)
  ]

  /** The `TokenSymbol` type: the symbols that occur in the table. */
  predicate IsTokenSymbol(symbol: string)
  {
    exists i :: 0 <= i < |TokenList| && TokenList[i].symbol == symbol
  }

  /** `tokens.find((t) => t.symbol === symbol)`: the first token with that symbol, if any. */
  function Find(tokens: seq<Token>, symbol: string): (r: Option<Token>)
    ensures r.Some? ==> r.value in tokens && r.value.symbol == symbol
    ensures r.None? ==> forall i :: 0 <= i < |tokens| ==> tokens[i].symbol != symbol
  {
    if tokens == [] then None
    else if tokens[0].symbol == symbol then Some(tokens[0])
    else Find(tokens[1..], symbol)
  }

  /** No two rows of the table share a symbol. */
  lemma SymbolsUnique()
    ensures forall i, j :: 0 <= i < j < |TokenList| ==> TokenList[i].symbol != TokenList[j].symbol
  {
  }

  /**
   * `tokenList.find(...)!`: for a `TokenSymbol` the lookup never fails, and,
   * the symbols being unique, it yields the one row with that symbol.
   */
  function SelectedToken(symbol: string): (t: Token)
    requires IsTokenSymbol(symbol)
    ensures t.symbol == symbol
    ensures forall i :: 0 <= i < |TokenList| && TokenList[i].symbol == symbol ==> t == TokenList[i]
  {
    SymbolsUnique();
    var r := Find(TokenList, symbol);
    r.value
  }

  /** GHO, and only GHO, is the native asset (the one with an empty address). */
  lemma OnlyGhoIsNative(t: Token)
    requires t in TokenList
    ensures t.address == "" <==> t.symbol == "GHO"
  {
  }
}
