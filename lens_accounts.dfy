/**
 * Recipient classification against the Lens directory: a literal address is
 * used as it is, anything else is looked up as a Lens username; and the
 * mapping of a bulk account lookup to display records.
 */
module LensAccounts {
  import opened Wrappers

  /** The namespace every username lookup is made in. */
  const LensNamespace: string := "0x1aA55B9042f08f45825dC4b651B64c9F98Af4615"

  predicate IsHexDigit(c: char)
  {
    '0' <= c <= '9' || 'a' <= c <= 'f' || 'A' <= c <= 'F'
  }

  /** The language of `/^0x[a-fA-F0-9]{40}$/`: a lower-case "0x" and exactly forty hex digits of either case. */
  predicate IsAddressLiteral(s: string)
  {
    |s| == 42 && s[0] == '0' && s[1] == 'x' && forall i :: 2 <= i < 42 ==> IsHexDigit(s[i])
  }

  /** The regular expression run left to right: `[a-fA-F0-9]{n}$` against `s`. */
  function MatchHexRun(s: string, n: nat): bool
  {
    if n == 0 then s == []
    else s != [] && IsHexDigit(s[0]) && MatchHexRun(s[1..], n - 1)
  }

  lemma {:induction false} MatchHexRunSpec(s: string, n: nat)
    ensures MatchHexRun(s, n) <==> |s| == n && forall i :: 0 <= i < |s| ==> IsHexDigit(s[i])
  {
    if n > 0 && s != [] {
      MatchHexRunSpec(s[1..], n - 1);
      if |s| == n && (forall i :: 0 <= i < |s| ==> IsHexDigit(s[i])) {
        assert forall i :: 0 <= i < |s[1..]| ==> s[1..][i] == s[i + 1];
      }
      if MatchHexRun(s, n) {
        forall i | 0 <= i < |s| ensures IsHexDigit(s[i]) {
          if i > 0 { assert s[i] == s[1..][i - 1]; }
        }
      }
    }
  }

  /** `/^0x[a-fA-F0-9]{40}$/.test(s)`: the matcher accepts exactly the address literals. */
  function TestAddressPattern(s: string): (b: bool)
    ensures b <==> IsAddressLiteral(s)
  {
    if |s| >= 2 then
      MatchHexRunSpec(s[2..], 40);
      assert IsAddressLiteral(s) ==> forall i :: 0 <= i < |s[2..]| ==> IsHexDigit(s[2..][i]) by {
        if IsAddressLiteral(s) {
          forall i | 0 <= i < |s[2..]| ensures IsHexDigit(s[2..][i]) {
            assert s[2..][i] == s[i + 2];
          }
        }
      }
      assert (s[0] == '0' && s[1] == 'x' && MatchHexRun(s[2..], 40)) ==> IsAddressLiteral(s) by {
        if s[0] == '0' && s[1] == 'x' && MatchHexRun(s[2..], 40) {
          forall i | 2 <= i < 42 ensures IsHexDigit(s[i]) {
            assert s[i] == s[2..][i - 2];
          }
        }
      }
      s[0] == '0' && s[1] == 'x' && MatchHexRun(s[2..], 40)
    else false
  }

  /** The prefix must be a lower-case "0x" and the digit count exactly forty. */
  lemma NearMissesAreNotAddresses(digits: string)
    requires forall i :: 0 <= i < |digits| ==> IsHexDigit(digits[i])
    ensures !IsAddressLiteral("0X" + digits)
    ensures |digits| != 40 ==> !IsAddressLiteral("0x" + digits)
    ensures |digits| == 40 ==> IsAddressLiteral("0x" + digits)
  {
    var s := "0x" + digits;
    if |digits| == 40 {
      forall i | 2 <= i < 42 ensures IsHexDigit(s[i]) {
        assert s[i] == digits[i - 2];
      }
    }
  }

  // ---------------------------------------------------------------------------
  // The directory, as seen through the Lens client
  // ---------------------------------------------------------------------------

  /** `{ username: { localName, namespace } }` */
  datatype UsernameQuery = UsernameQuery(localName: string, namespace: string)

  datatype Username = Username(localName: string)
  datatype AccountMetadata = AccountMetadata(picture: Option<string>)
  datatype Account = Account(address: string, username: Option<Username>, metadata: Option<AccountMetadata>)

  /** The client's error value, as it travels unchanged through `throw result.error`. */
  datatype ClientError = ClientError(message: string)

  /** A client result: `result.isErr()` with `result.error`, or a value. */
  datatype ClientResult<+T> = Err(error: ClientError) | Ok(value: T)

  /** `fetchAccount(client, request)`: the account, None when the directory has none. */
  type AccountFetcher = UsernameQuery -> ClientResult<Option<Account>>

  /** `fetchAccountsBulk(client, { addresses })` */
  type BulkFetcher = seq<string> -> ClientResult<seq<Account>>

  /** What an async function settles to: a value, or the exception it throws. */
  datatype Exception = Rethrown(error: ClientError) | UsernameNotFound
  datatype Settled<+T> = Returned(value: T) | Threw(exception: Exception)

  /** A resolution together with the directory lookups it made. */
  datatype Resolution = Resolution(outcome: Settled<string>, lookups: seq<UsernameQuery>)

  /**
   * `resolveRecipient(recipient)`. An address literal comes back verbatim,
   * with no lookup. Anything else is looked up once, as a username with
   * `localName` the input verbatim in the Lens namespace: a client error is
   * rethrown unchanged, no account is "Username not found", and otherwise the
   * account's address is returned.
   */
  function ResolveRecipient(recipient: string, fetchAccount: AccountFetcher): (r: Resolution)
    ensures IsAddressLiteral(recipient) ==> r == Resolution(Returned(recipient), [])
    ensures !IsAddressLiteral(recipient) ==> r.lookups == [UsernameQuery(recipient, LensNamespace)]
    ensures !IsAddressLiteral(recipient) ==>
              match fetchAccount(UsernameQuery(recipient, LensNamespace))
              case Err(e) => r.outcome == Threw(Rethrown(e))
              case Ok(None) => r.outcome == Threw(UsernameNotFound)
              case Ok(Some(account)) => r.outcome == Returned(account.address)
  {
    if TestAddressPattern(recipient) then Resolution(Returned(recipient), [])
    else
      var query := UsernameQuery(recipient, LensNamespace);
      var result := fetchAccount(query);
      var outcome :=
        if result.Err? then Threw(Rethrown(result.error))
        else if result.value.None? then Threw(UsernameNotFound)
        else Returned(result.value.value.address);
      Resolution(outcome, [query])
  }

  /**
   * The input comes back unchanged exactly when it is an address literal, or
   * when the directory maps that very name to an account whose address is
   * the name itself; no lookup is made exactly for address literals.
   */
  lemma ResolveReturnsInputOnlyForLiterals(recipient: string, fetchAccount: AccountFetcher)
    ensures ResolveRecipient(recipient, fetchAccount).lookups == [] <==> IsAddressLiteral(recipient)
    ensures ResolveRecipient(recipient, fetchAccount).outcome == Returned(recipient) <==>
              IsAddressLiteral(recipient) || NameOwnsItself(recipient, fetchAccount)
  {
  }

  /** The directory holds an account under the username `name` whose address is `name` itself. */
  predicate NameOwnsItself(name: string, fetchAccount: AccountFetcher)
  {
    var result := fetchAccount(UsernameQuery(name, LensNamespace));
    result.Ok? && result.value.Some? && result.value.value.address == name
  }

  /** A literal's resolution does not depend on the directory at all. */
  lemma LiteralIgnoresDirectory(recipient: string, f: AccountFetcher, g: AccountFetcher)
    requires IsAddressLiteral(recipient)
    ensures ResolveRecipient(recipient, f) == ResolveRecipient(recipient, g)
  {
  }

  // ---------------------------------------------------------------------------
  // Bulk lookup
  // ---------------------------------------------------------------------------

  /** `LensAccountInfo`: null fields are None. */
  datatype LensAccountInfo = LensAccountInfo(address: string, username: Option<string>, picture: Option<string>)

  /** The record for one account: `username?.localName ?? null`, `metadata?.picture ?? null`. */
  function AccountInfo(account: Account): (info: LensAccountInfo)
    ensures info.address == account.address
    ensures info.username.Some? <==> account.username.Some?
    ensures account.username.Some? ==> info.username.value == account.username.value.localName
    ensures info.picture.Some? <==> account.metadata.Some? && account.metadata.value.picture.Some?
    ensures info.picture.Some? ==> info.picture.value == account.metadata.value.picture.value
  {
    LensAccountInfo(
      account.address,
      if account.username.Some? then Some(account.username.value.localName) else None,
      if account.metadata.Some? then account.metadata.value.picture else None)
  }

  /**
   * `mapAddressesToAccounts(addresses)`: one bulk lookup of the addresses; a
   * client error is rethrown, otherwise one record per returned account, in
   * the order returned. (`evmAddress` is a type brand and passes each
   * address through.)
   */
  function MapAddressesToAccounts(addresses: seq<string>, fetchBulk: BulkFetcher): (r: Settled<seq<LensAccountInfo>>)
    ensures fetchBulk(addresses).Err? ==> r == Threw(Rethrown(fetchBulk(addresses).error))
    ensures fetchBulk(addresses).Ok? ==>
              r.Returned? && |r.value| == |fetchBulk(addresses).value| &&
              forall i :: 0 <= i < |r.value| ==> r.value[i] == AccountInfo(fetchBulk(addresses).value[i])
  {
    var result := fetchBulk(addresses);
    if result.Err? then Threw(Rethrown(result.error))
    else Returned(seq(|result.value|, i requires 0 <= i < |result.value| => AccountInfo(result.value[i])))
  }
}
