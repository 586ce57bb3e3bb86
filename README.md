# Points-ledger Telegram bot: the update dispatcher

This project models `processUpdate` from `index.php`. That PHP function
handles one Telegram webhook update for a points-ledger bot.

It loads the record set from `users.json`. It then creates the acting
user's account the first time that user is seen, and carries out the
requested action:

- a `/start` message, which may link the sender to a referrer;
- a press of one of the six keyboard buttons: earn, balance, leaderboard,
  referrals, withdraw or help.

Finally it writes the record set back.

The model is written in two layers.

- **Specification functions.** Module `Ledger` states the step as pure
  functions over the record set:
  - `Accounts.Users` is an ordered map, the PHP array together with its
    key order;
  - the clock and the generated referral code are parameters.
- **Imperative version.** `Bot.UserStore` changes the same record set in
  place, field by field, in the order the PHP writes the fields. The
  referral `foreach … break` becomes a `while` loop with an early return.
  Every method is proved to end in the state and reply that the `Ledger`
  function gives.
- **Two corrections.** Both layers depart from `index.php` as written in
  two places, each recorded under "Findings" below:
  - the referral guard is `Ledger.LinkAllowed` (`referred_by` unset)
    instead of `!referred_by`;
  - the leaderboard names chat ids (`Board.Standings`) instead of the
    positions that `array_column` leaves as keys.

Module `LedgerProperties` proves the following about the step:

- accounts are never removed or reordered;
- referral codes never change;
- `referred_by` is set at most once;
- the referral counters always equal the number of accounts referred
  (the ledger invariant);
- the exact effect of a referral link, and that no other account changes;
- the earn cooldown and withdrawal rules, including a second press;
- the shape of the leaderboard.

Module `Text` models:

- PHP's `trim`;
- the `strpos(...) === 0` test;
- `explode(' ', ...)`, with its inverse `Join`;
- PHP string truthiness.

Module `Board` models `array_column` / `arsort` / `array_slice`. The sort
is a stable descending insertion sort, because PHP 8's `arsort` is stable.

Module `Findings` models two places where the code as written departs from
what it evidently means. See "Findings" below.

The referral guard at `index.php:174` exists so that an account is linked
to a referrer only once. The code tests `!referred_by`, which is also true
when the referrer's chat id is 0. The model links only while
`referred_by` is unset. The code's own test is kept in `Findings`.

## Model

| member | source | states |
|---|---|---|
| Accounts.EmptyUsers | index.php:55-67 | A missing or non-array `users.json` loads as the empty record set, which satisfies the ledger invariant |
| Accounts.NewAccount | index.php:163-169 | The record of a chat id seen for the first time: balance 0, last_earn 0, referrals 0, the generated code, referred_by null |
| Text.TrimLeft | index.php:159 | The result is a suffix of the input, every removed character is one of PHP's trim characters, and the result does not start with one |
| Text.TrimRight | index.php:159 | The result is a prefix of the input, every removed character is a trim character, and the result does not end with one |
| Text.Trim | index.php:159 | The result is the input with only trim characters removed, all of them from its two ends, and it neither starts nor ends with a trim character |
| Text.TrimLeftThenRight | index.php:159 | Trimming the left, then the right, removes only trim characters, all from the two ends of the text |
| Text.StripComposition | index.php:159 | Removing leading trim characters, then trailing ones, removes nothing else |
| Text.IsStartCommand | index.php:172 | `strpos($text, '/start') === 0` holds exactly when the text has at least six characters and its first six are "/start" |
| Text.TrimIdempotent | index.php:159 | Trimming a trimmed text changes nothing |
| Text.Explode | index.php:173 | `explode(' ', s)` gives at least one piece, and no piece contains a space |
| Text.JoinExplode | index.php:173 | Joining the exploded pieces with single spaces gives the text back, so no character is lost or invented |
| Text.ExplodeAfterWord | index.php:173 | A space-free word followed by a space explodes to that word, then the pieces of the rest |
| Text.ExplodeWord | index.php:173 | A text without spaces is a single piece |
| Text.ExplodeHasSecondPiece | index.php:173 | `explode(' ', s)` has a second piece exactly when `s` contains a space |
| Text.StartArgument | index.php:173 | `explode(' ', $text)[1] ?? null` is present exactly when the text contains a space, and contains no space itself |
| Text.StartArgumentOfDeepLink | index.php:172-173 | The text "/start <code>" of a deep link passes the `/start` test, and `explode(...)[1]` gives back exactly the code |
| Text.PhpTruthy | index.php:174 | A string is falsy in PHP exactly when it is empty or the one character "0"; every string of two or more characters is truthy |
| Board.Column | index.php:223 | `array_column($users, 'balance')` has one entry per account; entry i has key i (the chat id is dropped) and the balance of the i-th account in iteration order |
| Board.Insert | index.php:224 | Inserting an entry later than every ranked entry keeps the sequence ranked and adds exactly that entry |
| Board.SortDesc | index.php:224 | `arsort` as a stable sort: the result is a permutation of the column, ordered by balance descending, with ties in their original order |
| Board.TopShape | index.php:222-225 | The cut list has min(5, #accounts) entries in non-increasing balance order, and each entry's balance is the balance of the account at its position |
| Board.TopIsBest | index.php:222-225 | Every account left off the list is preceded by every listed entry; with five or fewer accounts, every account is listed |
| Board.Top | index.php:222-225 | The list as written: at most five entries, ranked by balance descending with ties in iteration order, each keyed by its position |
| Board.RankedPositionsDistinct | index.php:223-224 | No two entries of the sorted column share a position |
| Board.Standings | index.php:228-229 | The leaderboard lines labelled with chat ids: one line for each line of the cut list |
| Board.StandingAt | index.php:228-229 | Line i of the leaderboard names the account at the position of the i-th entry of the cut list, with that entry's balance |
| Board.StandingsShape | index.php:222-231 | The leaderboard lists min(5, #accounts) accounts in non-increasing balance order, and each listed account has its own balance |
| Board.StandingsDistinct | index.php:222-231 | No account is listed twice on the leaderboard |
| Board.StandingsBest | index.php:222-231 | An account left off the leaderboard has a balance no higher than any listed account |
| Ledger.MainKeyboard | index.php:145-151 | `getMainKeyboard()` has three rows of two buttons, and the `switch` has a case for every button's callback tag |
| Ledger.EnsureAccount | index.php:162-170 | Creating the account of an unknown chat id keeps the record set well formed and adds exactly that key |
| Ledger.FirstReferrer | index.php:175-182 | The scan returns the first position at or after `from` whose account carries the code and is not the actor; none is returned only when no such position exists |
| Ledger.FindReferrer | index.php:175-176 | A referrer found by the scan carries the code and is not the actor |
| Ledger.LinkAllowed | index.php:174 | The guard on the actor, as intended: a link is attempted only while `referred_by` is unset (see Findings) |
| Ledger.Refer | index.php:177-179 | Recording a link keeps the keys and the iteration order |
| Ledger.LinkReferral | index.php:175-183 | The referral scan with its effect keeps the keys and the iteration order |
| Ledger.StartLink | index.php:173-174 | The link attempted by a `/start` text keeps the keys and the iteration order |
| Ledger.MessageText | index.php:159 | The message text after `trim`, with a missing text read as ""; it neither starts nor ends with a trim character |
| Ledger.HandleMessage | index.php:157-188 | A message update adds exactly the sender's key |
| Ledger.Earn | index.php:205-216 | "earn" keeps the keys and the iteration order |
| Ledger.Withdraw | index.php:238-247 | "withdraw" keeps the keys and the iteration order |
| Ledger.ParseAction | index.php:204-252 | The `switch ($data)`: a tag falls to no case exactly when it is none of "earn", "balance", "leaderboard", "referrals", "withdraw" and "help" |
| Ledger.HandleCallback | index.php:190-252 | A button press adds exactly the presser's key |
| Ledger.Step | index.php:154-263 | One update adds exactly the actor's key, if there is an actor, and keeps the record set well formed |
| Bot.UserStore.constructor | index.php:155 | The store starts with the loaded record set |
| Bot.UserStore.CreateIfMissing | index.php:162-170 | Lazy creation in place gives the record set that `Ledger.EnsureAccount` specifies |
| Bot.UserStore.LinkReferrer | index.php:175-183 | The `foreach … break` scan, with its three in-place updates, gives exactly the state and link of `Ledger.LinkReferral` (the first match in iteration order) |
| Bot.UserStore.EarnPoints | index.php:205-216 | The in-place credit, then the `last_earn` stamp, give exactly the state and reply of `Ledger.Earn` |
| Bot.UserStore.WithdrawAll | index.php:238-247 | Reading the amount and then zeroing the balance gives exactly the state and reply of `Ledger.Withdraw` |
| Bot.UserStore.Handle | index.php:156-260 | The in-place handling of one update ends in the state and reply that `Ledger.Step` specifies |
| Bot.ProcessUpdate | index.php:154-263 | Load, handle in place, and save: the saved record set and the reply are those of `Ledger.Step` |
| LedgerProperties.AccountCreation | index.php:162-170 | An unknown id gets exactly one new record (0, 0, 0, the generated code, null), placed last in order; a known id's record is untouched, so a second creation with any code changes nothing |
| LedgerProperties.ExtendsTransitive | index.php:154-263 | Keeping account history composes over successive steps |
| LedgerProperties.StartLinkExtends | index.php:174-183 | A referral link removes no account, reorders nothing, changes no code, and overwrites no set `referred_by` |
| LedgerProperties.ActionExtends | index.php:205-247 | "earn" and "withdraw" keep the history of every account |
| LedgerProperties.CallbackExtends | index.php:190-252 | A button press keeps the history of every account, counted from before and after creation |
| LedgerProperties.MessageExtends | index.php:157-188 | A message keeps the history of every account, counted from before and after creation |
| LedgerProperties.StepKeepsHistory | index.php:154-263 | Over a step, accounts are never removed or reordered, only the actor can be added, codes never change, a new actor's code is the generated one, and a set `referred_by` never changes |
| LedgerProperties.CodeUsedOnlyForNewActor | index.php:167 | When the actor already exists, the generated code has no effect on the step |
| LedgerProperties.ReferralLinkConditions | index.php:172-182 | A welcome is sent if and only if the trimmed text begins with "/start", and it carries the actor's code. A link is made if and only if the argument is present and truthy, the actor has no referrer, and some other account has that code. The referrer is then the first such account in order, and never the actor |
| LedgerProperties.ReferralLinkEffect | index.php:177-179 | A welcomed message has exactly `LinkEffect` on the record set after creation: with a link, the actor's `referred_by` becomes the referrer, the referrer gains exactly 1 referral and exactly 50 points, and no other record or field changes; without one, and for any other message, only creation happens |
| LedgerProperties.StartLinkEffect | index.php:174-183 | The link attempted on an existing actor has exactly `LinkEffect` |
| LedgerProperties.StartLinkConditions | index.php:173-182 | On an existing actor, a link is made if and only if the argument is present and truthy, the actor has no referrer, and another account carries the code; the referrer is then the first such account in order |
| LedgerProperties.StartLinkFrame | index.php:175-182 | A `/start` link changes no record except the actor's and the reported referrer's |
| LedgerProperties.CallbackFrame | index.php:204-252 | A button press changes no record except the presser's |
| LedgerProperties.StepFrame | index.php:154-263 | A step changes no account other than the actor, except the referrer it reports |
| LedgerProperties.ReferrersUnchanged | index.php:177 | Records whose `referred_by` fields agree have the same referrers |
| LedgerProperties.CountsUnchanged | index.php:205-247 | A change that touches no `referrals` or `referred_by` field keeps the referral counts consistent |
| LedgerProperties.EnsureAccountKeepsInvariant | index.php:162-170 | Creating an account keeps the ledger invariant |
| LedgerProperties.ReferKeepsInvariant | index.php:174-179 | Linking an actor that has no referrer keeps the ledger invariant: the referrer gains exactly one referrer and one referral |
| LedgerProperties.StartLinkKeepsInvariant | index.php:172-184 | A `/start` link keeps the ledger invariant |
| LedgerProperties.ActionKeepsInvariant | index.php:205-247 | "earn" and "withdraw" keep the ledger invariant |
| LedgerProperties.CallbackKeepsInvariant | index.php:190-252 | A button press keeps the ledger invariant |
| LedgerProperties.StepKeepsInvariant | index.php:154-263 | Every step keeps the ledger invariant: referral counts match the accounts referred, every `referred_by` names another existing account, and no balance is negative |
| LedgerProperties.EarnRule | index.php:205-216 | Under 60 seconds since `last_earn`, nothing changes and the reply is the positive wait `60 - time_diff`; from 60 seconds on, the balance grows by exactly 10, `last_earn` becomes now, and nothing else changes |
| LedgerProperties.EarnTwice | index.php:205-216 | After a credited earn at t1, a press under 60 seconds later is refused with `60 - (t2 - t1)` to wait and changes nothing; a press 60 or more seconds later is credited again |
| LedgerProperties.WithdrawRule | index.php:238-247 | Below 100 points, nothing changes and the reply gives the positive shortfall; otherwise the whole balance is reported and the balance becomes exactly 0, with nothing else changed |
| LedgerProperties.WithdrawTwice | index.php:238-247 | After a withdrawal, a second press is refused with the full minimum of 100 missing, and changes nothing |
| LedgerProperties.LeaderboardRule | index.php:222-232 | "leaderboard" changes nothing beyond creation. It lists min(5, #accounts) distinct accounts by non-increasing balance, each with its own balance, and a second press gives the same reply |
| LedgerProperties.InfoReplies | index.php:218-251 | "balance" replies with the actor's balance and referral count, "referrals" with its code and referral count, and "help" with the help text |
| LedgerProperties.TrimDeepLink | index.php:159 | "/start <code>", for a code without trim characters, is unchanged by `trim` |
| LedgerProperties.DeepLinkRefers | index.php:172-182 | A new user following the invite link of the only account with that code is welcomed with the generated code and linked to that account |
| LedgerProperties.UniqueCodeFound | index.php:175-182 | The scan finds the one account other than the actor that carries the code |
| LedgerProperties.ReadOnlyActions | index.php:204-252 | "balance", "referrals", "help", an unknown tag, and a message that is not `/start` change nothing beyond creation |
| LedgerProperties.EmptyUpdateChangesNothing | index.php:157-190 | An update with neither a message nor a callback leaves the record set unchanged and sends nothing |
| LedgerProperties.KeyboardActionsHandled | index.php:145-151 | The keyboard has three rows of two buttons, and every button's tag reaches a handler with a defined reply |
| Findings.LinkAllowedAsWritten | index.php:174 | PHP's `!$users[$chat_id]['referred_by']`: true for null and also for the integer 0 |
| Findings.StartLinkAsWritten | index.php:173-174 | The `/start` link under the guard as written keeps the keys |
| Findings.GuardsDifferOnlyAtZero | index.php:174 | The written guard admits everything the intended guard admits, and the two differ exactly when `referred_by` is 0 |
| Findings.ZeroReferrerRelinked | index.php:174-179 | A ledger satisfying every invariant, in which account 7 was referred by account 0. There, "/start bbbbbbbb" from 7 overwrites its `referred_by` with 5, credits 5 again and breaks the referral counts; the intended guard changes nothing |
| Findings.LeaderboardLabelsArePositions | index.php:223-229 | With the single account 1001, the line is labelled 0, which is no account's chat id; `Standings` labels it 1001 |

## Left out

- Transport is left out because it is outside the ledger. This covers `sendMessage`, `answerCallbackQuery` (and the callback id it uses), `setWebhook`, `deleteWebhook`, the referrer's "New referral" notice at `index.php:180`, and HTTP routing with the health and info pages. Replies are modelled as `Ledger.Outcome` values.
- Reply text formatting is left out, including the leaderboard text loop at `index.php:226-231` and the invite URL built from the bot token. Each `Outcome` carries the values the text interpolates.
- File persistence and JSON encoding are left out. `Bot.ProcessUpdate` takes the loaded record set and returns the one `saveUsers` writes (saved once, at the end); write failures are not modelled.
- The clock and md5 are left out. `time()` becomes the parameter `now`, and `substr(md5(...), 0, 8)` becomes the parameter `code`. The "earn" case reads `time()` twice (`index.php:206` and `:213`); the model uses one `now` for both.
- Ledger.Earn: does not model a clock that moves between the two `time()` reads. The stored `last_earn` is the same `now` that the cooldown was checked against.
- Concurrency is left out. Overlapping webhook executions can lose updates, because each one loads, changes and saves the whole file; the model handles one update at a time.
- Uniqueness of referral codes is not claimed, because md5 prefixes can collide. `LedgerProperties.DeepLinkRefers` assumes the code is unique; `LedgerProperties.ReferralLinkConditions` does not.
- An unknown callback tag sends an undefined `$msg`; the model replies `NoOp` and changes nothing beyond creation.
- The sort assumes PHP 8's stable `arsort`. Earlier PHP versions could order equal balances differently.
- Chat ids are modelled as unbounded integers; the PHP integer width plays no role in the logic.
- The update's fields are typed: the chat id is an integer, and the text and callback data are strings. PHP reads them untyped from any POST body. `switch ($data)` compares loosely, so under PHP 8 a JSON `true` as `data` selects `case 'earn'`. Malformed or mistyped updates, and loose comparison, are not modelled.
- Board.Standings: the code as written labels leaderboard lines with positions (see Findings); the model's step reports chat ids instead.

## Findings

| source | as written | input that shows it | evidently intended | confidence | as-written member | corrected member |
|---|---|---|---|---|---|---|
| index.php:174 | `!$users[$chat_id]['referred_by']` is also true when `referred_by` is the chat id 0, so an account referred by account 0 can be linked again | Ledger {0: referrals 1; 5: code "bbbbbbbb"; 7: referred by 0}; account 7 sends "/start bbbbbbbb" | Link only while `referred_by` is null | low, not executed (Telegram does not issue chat id 0, but the webhook accepts any POST) | Findings.ZeroReferrerRelinked | LedgerProperties.StepKeepsInvariant |
| index.php:223-229 | `array_column` drops the chat-id keys, so "User $id" shows the account's position in iteration order | One account, chat id 1001 with 5 points: the line reads "User 0" | Label each line with the account's chat id | high, not executed | Findings.LeaderboardLabelsArePositions | Board.StandingsShape |
