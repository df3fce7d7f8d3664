# senddottoken, modelled in Dafny

send.token is a web front end for dispersing a chain's native asset (GHO on
Lens) or an ERC-20 token to many recipients in one transaction through a
Multisender contract. This project models its core and proves properties of
the model:

- **The dispersal form** (`MultiSenderForm`, with `JsString` and `Tokens`).
  The user types free-text "recipient, amount" lines. The form splits them on
  line feeds, trims them and drops blank lines. It accepts a line when the
  text before its first comma and the text after it (up to any second comma)
  are both non-empty. It shows a summary (count and total) and, on submit,
  runs a fixed chain of guards. Then it either shows an error, lets an
  exception escape, or reaches the send step with one `disperseEther` /
  `disperseToken` call. The two collecting loops (`summary` and
  `handleSubmit`) are methods with loop invariants, proved against
  specification functions. The component's `loading` / `status` / `error`
  state is the class `SubmitForm`.
- **Recipient classification** (`LensAccounts`). A literal address
  (`/^0x[a-fA-F0-9]{40}$/`) is returned unchanged. Anything else is looked up
  as a Lens username in a fixed namespace. The bulk account lookup is mapped
  to display records.
- **The Multisender contract as its tests observe it** (`Multisender`,
  `MultisenderScenarios`). `disperseEther` and `disperseToken` are modelled
  as methods of a class holding ether balances, against a `TestToken` class
  with balances, allowances and failure switches. Each test is a method
  whose `ensures` state that test's expectations. Three of them also state a
  consequence for the ledger that the test does not check: the sender's
  change in `TransfersSpecifiedAmounts`, the owner's unchanged holding in
  `RevertsWhenTransferFails`, and the unchanged ledger in
  `RevertsOnValueMismatch`.
- **The small components**:
  - `Toast`: the truncated notice;
  - `ThemeSwitch`: the three-way auto/light/dark control, with its storage
    and document-class effects;
  - `ThemeToggle`: the two-state dark/light button.

Abstract parameters:
- viem's `parseUnits` is the function-typed parameter `Parser`, which returns
  None where it would throw.
- The Lens client calls `fetchAccount` and `fetchAccountsBulk` are
  parameters too.
- Wallet state, balances and the result of the awaited send are inputs;
  `SendResult` stands for the send's result.
- Browser state (`localStorage`, the document element's `dark` class and the
  system colour preference) is held in plain fields.

The contract's Solidity source is not modelled. The model encodes only what
its tests observe, plus the ledger bookkeeping those observations need.

The repository keeps the token table twice, at
`src/components/MultiSenderForm.tsx:36-58` and `src/constants/tokens.ts:1-23`.
Both copies are identical, and `Tokens.TokenList` models them.

## Model

| member | source | states |
|---|---|---|
| JsString.JoinSplit | src/components/MultiSenderForm.tsx:137-138 | `split` loses nothing: joining the pieces with the separator gives the input back |
| JsString.SplitAtFirst | src/components/MultiSenderForm.tsx:142 | the first piece of `split(",")` is the text before the first comma, and the other pieces are the pieces of the text after it |
| JsString.TrimIsSlice | src/components/MultiSenderForm.tsx:139 | `trim` only removes trimmable characters, and only from the two ends: the result is a contiguous slice of the input, and what lies before and after it is all white space or line terminators |
| JsString.Split | src/components/MultiSenderForm.tsx:137-138 | `split` with a one-character separator always gives at least one piece, and no piece contains the separator |
| JsString.Trim | src/components/MultiSenderForm.tsx:139 | a trimmed string neither starts nor ends with a trimmable character |
| JsString.TrimEmptyIffBlank | src/components/MultiSenderForm.tsx:139-140 | a line trims to the empty string exactly when it is blank, so `filter(Boolean)` drops exactly the blank lines |
| JsString.TrimIdempotent | src/components/MultiSenderForm.tsx:139-144 | trimming an already trimmed field changes nothing |
| Tokens.SymbolsUnique | src/constants/tokens.ts:1-23 | no two rows of the token table share a symbol |
| Tokens.SelectedToken | src/components/MultiSenderForm.tsx:78 | for a `TokenSymbol`, `find(...)!` never fails and yields the only row with that symbol |
| Tokens.OnlyGhoIsNative | src/components/MultiSenderForm.tsx:36-58 | in the table, GHO and only GHO has the empty address, so only GHO goes down the native path |
| MultiSenderForm.TrimmedNonBlankLast | src/components/MultiSenderForm.tsx:137-140 | a blank piece contributes no line; any other piece contributes its trimmed text, in order |
| MultiSenderForm.Lines | src/components/MultiSenderForm.tsx:137-140 | every line handed to the entry parser is non-empty and already trimmed |
| MultiSenderForm.ParseLine | src/components/MultiSenderForm.tsx:142-144 | both fields of an accepted line are trimmed: trimming them again changes nothing |
| MultiSenderForm.FirstIndex | src/components/MultiSenderForm.tsx:142 | the result is the position of the first occurrence, or None exactly when the character does not occur |
| MultiSenderForm.ParseLineByCommas | src/components/MultiSenderForm.tsx:142-143 | a line is accepted exactly when the text before its first comma and the text between the first and second comma (or the end) are non-empty; anything after a second comma is ignored |
| MultiSenderForm.EntriesOfAppend | src/components/MultiSenderForm.tsx:137-149 | entries are gathered line by line: the entries of a concatenation are the concatenation of the entries |
| MultiSenderForm.EntriesOfRejected | src/components/MultiSenderForm.tsx:143 | lines that are all rejected give no entries |
| MultiSenderForm.ParseAmounts | src/components/MultiSenderForm.tsx:145-147 | the parsed list exists exactly when every amount parses; it then has one value per amount text, and each value is that text's parse |
| MultiSenderForm.Collect | src/components/MultiSenderForm.tsx:135-149 | the `handleSubmit` loop either fails exactly when some accepted amount does not parse, or yields equally long recipient and amount lists, with one pair per accepted line in input order |
| MultiSenderForm.CollectLine | src/components/MultiSenderForm.tsx:141-148 | the `forEach` callback of `handleSubmit` pushes the recipient of an accepted line and nothing for a rejected one; it pushes that line's parsed amount, or fails when `parseUnits` throws |
| MultiSenderForm.SummarizeLine | src/components/MultiSenderForm.tsx:100-112 | the `forEach` callback of the summary counts 1 exactly for an accepted line, and adds its amount only when that amount parses |
| MultiSenderForm.Summarize | src/components/MultiSenderForm.tsx:93-115 | the summary counts exactly the accepted lines (the same filter as submit) and totals the amounts among them that parse, skipping the others |
| MultiSenderForm.SumParsedAgrees | src/components/MultiSenderForm.tsx:104-111 | with every amount parsing, the summary total equals the sum submit computes |
| MultiSenderForm.SubmitEntries | src/components/MultiSenderForm.tsx:135-192 | after the first two guards, the handler's steps reach the outcome `Decide`: what happens to its entries, token and balances |
| MultiSenderForm.SelectedBalance | src/components/MultiSenderForm.tsx:158-160 | the token balance is compared for a token with a non-empty address, the native balance otherwise, and a missing balance counts as 0 |
| MultiSenderForm.CallFor | src/components/MultiSenderForm.tsx:170-184 | the call carries exactly the collected recipients and amounts; it is `disperseToken` exactly for a token with a non-empty address, and then names that address |
| MultiSenderForm.Decide | src/components/MultiSenderForm.tsx:145-192 | the handler's exception escapes exactly when some accepted amount does not parse; a send needs at least one entry, and goes to the configured address from the account |
| MultiSenderForm.Submit | src/components/MultiSenderForm.tsx:118-192 | a send happens only when connected, with an account and a configured contract address, and it goes to that address from that account |
| MultiSenderForm.SubmitGuardOrder | src/components/MultiSenderForm.tsx:124-133 | "Wallet not connected" exactly when disconnected or without an account; then "Multisender address is not configured" exactly when unset; past them the outcome depends only on the entries, the token and the balances |
| MultiSenderForm.DecideMessages | src/components/MultiSenderForm.tsx:151-165 | past the first two guards, the only rejection messages are "No valid entries" and "Insufficient balance" |
| MultiSenderForm.DecideCheckOrder | src/components/MultiSenderForm.tsx:145-165 | in order: the exception exactly when some amount does not parse; then "No valid entries" exactly when nothing was accepted; then "Insufficient balance" exactly when the selected balance is below the exact sum |
| MultiSenderForm.NoEntriesIsNoValidEntries | src/components/MultiSenderForm.tsx:151-155 | once connected and configured, a box whose lines are all rejected always gives "No valid entries" |
| MultiSenderForm.DecideSend | src/components/MultiSenderForm.tsx:157-192 | a transaction goes to the configured address from the account, with one recipient and one parsed amount per entry in order; the balance covers the exact sum; a token gets `disperseToken(address, ...)` with no value, the native asset gets `disperseEther` with value equal to the sum |
| MultiSenderForm.ExactBalanceSuffices | src/components/MultiSenderForm.tsx:161 | the check is strict: a balance equal to the total passes |
| MultiSenderForm.SummaryMatchesSend | src/components/MultiSenderForm.tsx:93-115 | when a transaction is sent, the summary's count is its recipient count and the summary's total is its total |
| MultiSenderForm.SubmitForm.HandleSubmit | src/components/MultiSenderForm.tsx:118-192 | the outcome is `Submit` on the inputs; the status is cleared; a rejection shows its message and clears `loading`; an escaping exception or a pending send leaves `loading` set and no error |
| MultiSenderForm.SubmitForm.Settle | src/components/MultiSenderForm.tsx:193-202 | a hash sets the status to the explorer link; a failure sets the exception's message, or "Transaction failed"; `loading` is cleared either way |
| LensAccounts.TestAddressPattern | src/utils/lensAccounts.ts:38 | the regular expression accepts exactly a lower-case "0x" followed by exactly forty hex digits of either case |
| LensAccounts.NearMissesAreNotAddresses | src/utils/lensAccounts.ts:38 | "0X" plus digits never matches; "0x" plus hex digits matches exactly when there are forty of them |
| LensAccounts.ResolveRecipient | src/utils/lensAccounts.ts:37-58 | a literal address comes back verbatim with no lookup; anything else is looked up once, as a username equal to the input in `LENS_NAMESPACE`, and the three outcomes are: the error rethrown unchanged, "Username not found", or the account's address |
| LensAccounts.ResolveReturnsInputOnlyForLiterals | src/utils/lensAccounts.ts:38-57 | no lookup is made exactly for literals; the input comes back unchanged exactly for literals or for a name the directory maps to itself |
| LensAccounts.LiteralIgnoresDirectory | src/utils/lensAccounts.ts:38-40 | a literal's resolution does not depend on the directory |
| LensAccounts.AccountInfo | src/utils/lensAccounts.ts:29-33 | the record keeps the address; the username is present exactly when the account has one, and is then its `localName`; the picture is present exactly when the metadata has one |
| LensAccounts.MapAddressesToAccounts | src/utils/lensAccounts.ts:17-35 | a bulk error is rethrown unchanged; otherwise there is one record per returned account, in order |
| Multisender.Move | test/disperseEther.ts:25-26 | a transfer debits the payer and credits the payee by the amount, and leaves every other balance alone |
| Multisender.ReceivedAbsent | test/multisender.ts:29-31 | an address not in the recipient list gains nothing |
| Multisender.ReceivedDistinct | test/multisender.ts:29-31 | with distinct recipients, recipient i gains exactly `amounts[i]` |
| Multisender.ReceivedAtMostTotal | test/disperseEther.ts:12-19 | no address gains more than the sum of the amounts |
| Multisender.Multisender.DisperseEther | test/disperseEther.ts:6-41 | a value other than the sum reverts with "value mismatch" and changes nothing; otherwise `EtherDispersed(sender, sum, count)` is emitted, the sender pays the sum and each address gains what the list pays it |
| Multisender.Multisender.DisperseToken | test/disperseToken.ts:6-62 | a failing `transferFrom` reverts with "transferFrom failed"; a failing `transfer` reverts with "transfer failed"; a revert changes no balance or allowance; otherwise `TokenDispersed(token, sender, sum, count)` is emitted, the allowance is spent by the sum, the sender is down the sum and each address gains what the list pays it |
| Multisender.TestToken.Mint | test/disperseToken.ts:14 | `mint` credits the amount to the address and changes nothing else |
| Multisender.TestToken.Approve | test/disperseToken.ts:15 | `approve` sets the allowance of the (owner, spender) pair to the amount and changes nothing else |
| Multisender.TestToken.SetFailTransferFrom | test/disperseToken.ts:39 | sets the switch that makes `transferFrom` fail, and changes nothing else |
| Multisender.TestToken.SetFailTransfer | test/disperseToken.ts:57 | sets the switch that makes `transfer` fail, and changes nothing else |
| Multisender.TestToken.TransferFrom | test/disperseToken.ts:14-20 | with its switch off, the pull moves the amount and spends the allowance; with it on, it fails and changes nothing |
| Multisender.TestToken.Transfer | test/disperseToken.ts:47-61 | with its switch off, the amount moves; with it on, it fails and changes nothing |
| MultisenderScenarios.SendsEtherToRecipients | test/disperseEther.ts:6-27 | the event is (owner, 3 ether, 2), and the two recipients gain exactly 1 and 2 ether |
| MultisenderScenarios.RevertsOnValueMismatch | test/disperseEther.ts:29-41 | attaching only the first amount reverts with "value mismatch"; no balance moves, as the revert rolls the call back |
| MultisenderScenarios.TransfersSpecifiedAmounts | test/multisender.ts:8-32 | for any two amounts, the event is (sender, sum, 2); each distinct recipient's balance changes by exactly its amount, and the sender's by minus the sum |
| MultisenderScenarios.SendsTokensToRecipients | test/disperseToken.ts:6-28 | minting and approving 300 covers 100 + 200; the event is (token, owner, 300, 2); the recipients end up holding exactly 100 and 200 |
| MultisenderScenarios.RevertsWhenTransferFromFails | test/disperseToken.ts:30-45 | the call reverts with "transferFrom failed" |
| MultisenderScenarios.RevertsWhenTransferFails | test/disperseToken.ts:47-62 | the call reverts with "transfer failed", and the owner keeps its 100 |
| Toast.Render | src/components/Toast.tsx:14-25 | a null or empty message renders nothing; a message of at most 60 characters is shown whole with no title; a longer one is shown as 61 characters ending in "…", with the whole message as the title |
| Toast.RenderKeepsMessage | src/components/Toast.tsx:21-25 | the text starts with the message's first min(length, 60) characters, is at most 61 long, and whenever it differs from the message, the title holds the message |
| ThemeSwitch.Next | src/components/ThemeSwitch.tsx:46-50 | auto goes to light, light to dark, dark to auto; the next mode is always a valid mode and never the current one; an unknown string goes to "auto" |
| ThemeSwitch.NextCycle | src/components/ThemeSwitch.tsx:46-50 | three presses return to the starting mode, passing through all three modes |
| ThemeSwitch.GetInitial | src/components/ThemeSwitch.tsx:7-11 | "auto" without a window or with nothing stored; otherwise the stored value, unvalidated |
| ThemeSwitch.DarkClass | src/components/ThemeSwitch.tsx:24-33 | the class is on exactly in "dark" mode, or in "auto" mode when the system prefers dark |
| ThemeSwitch.OnlyAutoFollowsSystem | src/components/ThemeSwitch.tsx:24-33 | the system preference affects the class exactly in "auto" mode |
| ThemeSwitch.Options | src/components/ThemeSwitch.tsx:40-44 | the segments are auto, light and dark, in that order, and a segment is pressed exactly when it is the current mode |
| ThemeSwitch.ExactlyOnePressed | src/components/ThemeSwitch.tsx:68-76 | exactly one segment is pressed for a valid mode, and none for any other string |
| ThemeSwitch.ThemeSwitcher.ApplyEffects | src/components/ThemeSwitch.tsx:22-38 | once mounted, the class follows the mode and the mode is written under "themeMode" |
| ThemeSwitch.ThemeSwitcher.Mount | src/components/ThemeSwitch.tsx:17-20 | mounting reads the initial mode from storage, then applies and persists it |
| ThemeSwitch.ThemeSwitcher.Select | src/components/ThemeSwitch.tsx:71 | from a page in step with its mode, a segment click sets that mode, applies it and persists it; selecting the current mode runs no effect, and the page already agrees with it |
| ThemeSwitch.ThemeSwitcher.Cycle | src/components/ThemeSwitch.tsx:58 | the narrow button moves to the next mode, applies it and persists it |
| ThemeSwitch.ThemeSwitcher.SystemPreferenceChanged | src/components/ThemeSwitch.tsx:25-31 | a preference change moves the class only while mounted in "auto" mode, and keeps the page in step with the mode |
| ThemeToggle.Mounted | src/components/ThemeToggle.tsx:7-13 | only a stored value of exactly "dark" turns dark mode and the class on; anything else changes nothing |
| ThemeToggle.MountedAgreesWithStorage | src/components/ThemeToggle.tsx:7-13 | after mounting a fresh page, dark mode is on exactly when "dark" is stored, and the class agrees |
| ThemeToggle.Toggled | src/components/ThemeToggle.tsx:15-25 | a click flips the mode; the class is then on exactly when dark, and the stored "theme" is "dark" or "light" to match |
| ThemeToggle.ToggleTwice | src/components/ThemeToggle.tsx:15-25 | two clicks restore the mode, and restore a consistent page entirely |
| ThemeToggle.Label | src/components/ThemeToggle.tsx:29 | the label is "Light Mode" exactly when dark and "Dark Mode" exactly when not |
| ThemeToggle.LabelNamesNextMode | src/components/ThemeToggle.tsx:29 | the label names the mode a click switches to: "Light Mode" when dark, "Dark Mode" otherwise |
| ThemeToggle.ThemeToggler.Mount | src/components/ThemeToggle.tsx:7-13 | the button's state after the mount effect is `Mounted` of the state before, and storage is untouched |
| ThemeToggle.ThemeToggler.Toggle | src/components/ThemeToggle.tsx:15-25 | the state after `toggleTheme` is `Toggled` of the state before, and only the "theme" key of storage changes |

## Left out

- Wallet and chain hooks (`useAppKitAccount`, `useBalance`, `useSendTransaction`) are left out because they are foreign calls. The connection flag, the account, the two balances and the result of the awaited send are inputs instead.
- `encodeFunctionData` is foreign, so the calldata is the datatype `Call`, which carries the function and its arguments; ABI encoding is not modelled. `encodeFunctionData` may throw, for example on a recipient that is not an address or an amount outside `uint256`. The model treats that as the outcome `Send` followed by `Settle(Failed(...))`.
- `parseUnits` is foreign, so it stays an abstract partial function (the `Parser` parameter); its rounding and sign handling are not modelled.
- JavaScript string lengths count UTF-16 code units, but the model's strings are sequences of Unicode scalar values. The two differ for characters outside the Basic Multilingual Plane. This matters for the Toast's `length > 60` test and its `slice(0, 60)`. It does not matter for the address pattern, because no such character, and neither of its surrogate halves, is a hex digit.
- The amounts are exact integers, as `bigint` is; the contract's `uint256` bound and overflow are not modelled.
- `fetchAccount`, `fetchAccountsBulk` and `PublicClient.create` are network calls, so the lookups are parameters. `evmAddress` is a type brand, so it is taken as the identity.
- The `await` ordering and concurrency of the async functions are not modelled.
- `src/components/TxHistory.tsx` is left out as a whole. It is log fetching, concurrent block reads, date and floating-point formatting.
- The floating-point display of the summary and balances (`Number(x) / 10 ** decimals`, `toLocaleString`) is floating point and is left out.
- `MAX_RETRIES` is declared but never used, so it is left out.
- The source has no approval step, receipt polling, handle resolution during submit or tip entry, so none is modelled. Submit uses the trimmed recipient text as the address.
- Rendering is left out: the JSX, the Spinner, the `mounted` gate that renders nothing before mount, and ThemeSwitch's choice between the narrow and the wide control by window width.
- The Toast's three-second auto-close timer is a clock, so it is left out.
- Adding and removing the `matchMedia` listener is left out. Its effect is the method `SystemPreferenceChanged`.
- The contract's Solidity source is not modelled; the model encodes only what its tests observe. The contract's own length checks, and the reasons it would give for them, are not specified.
- Multisender.Multisender.DisperseEther: requires equal list lengths and a sender balance covering the attached value. The tests never break either condition, and the contract's behaviour then is not known.
- Multisender.Multisender.DisperseToken: requires equal list lengths. It also requires an allowance and a balance covering the sum whenever the `transferFrom` switch is off. Behaviour outside these conditions is not observed.
- Multisender.TestToken.TransferFrom: with its switch off, it requires enough balance and allowance. What an ERC-20 does otherwise is not observed by the tests.
- Multisender.TestToken.Transfer: with its switch off, it requires enough balance, for the same reason.
- A revert is modelled as restoring the token's balances and allowances from a snapshot; EVM state rollback is not modelled otherwise.
- A recipient that refuses ether is not modelled, and neither is gas.
- MultiSenderForm.SubmitForm.HandleSubmit: the source calls `setError` and `setLoading(false)` separately in each rejecting branch. The model sets them once, after the shared steps; the resulting state is the same.
- MultiSenderForm.SubmitForm.HandleSubmit: when `parseUnits` throws, the exception escapes before the `try`, so `loading` stays set and no message is shown. This is modelled as the outcome `Thrown`, as the code does it.
