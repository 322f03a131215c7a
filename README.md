# RefferonBot account ledger, in Dafny

RefferonBot is a Telegram bot that runs a referral programme. Each registered user has
a row in `user_profiles`. The row holds an eight-character referral code, the code of
whoever referred them, a referral count and a points balance. `/start` registers a
user. If the user gives a valid code, the owner of that code gets one more referral and
10 points. `/sendlink` shares a link with up to five other users, at most once per UTC
day, and records each accepted share in `referral_links`. `/redeem` spends 50 points.
`/leaderboard` lists the ten users with the most referrals.

This project models that ledger. The remote store becomes two in-memory tables:
`user_profiles` is a `map` keyed by telegram id, and `referral_links` is a `seq` of
events in insertion order. Each handler is one atomic read–check–write step.

- `Tables` (tables.dfy) defines the rows, the store and the two row queries the handlers
  issue. `FindByCode` finds a referrer by code, taking the first row returned.
  `SelectAudience` picks up to five users other than the sender. The module also defines
  `WellFormed`, the invariant the handlers keep:
  - every row is stored under its own telegram id;
  - referral counts and points are never negative;
  - row ids are distinct;
  - per user, recorded sends lie on strictly increasing days.
- `ReferralCode` (referral_code.dfy) models `generate_referral_code`. The eight random
  draws are an input; each is a position in `ascii_letters + digits`.
- `Leaderboard` (leaderboard.dfy) models the leaderboard query. It orders by referrals,
  descending, and keeps at most ten rows.
- `Handlers` (handlers.dfy) gives `start`, `send_link` and `redeem` as pure functions.
  Each takes the store before the command and returns the store after it together with
  the reply (an `Outcome`). The lemmas about the handlers are also in this module.
- `Bot` (ledger.dfy) holds the class `Ledger`. Its fields are the two tables, and its
  methods follow the handlers' guarded early returns. Each method is proved to reach
  the state and reply that the matching `Handlers` function gives, and to keep
  `WellFormed`.

Inputs stand in for everything the source gets from outside:
- `draws` replaces the random choices.
- `today` and `now` are UTC day numbers from the two clock reads in `send_link`.
- `newId` is the row id the store assigns on insert.
- `scan` is the order in which the store returns rows. `IsScan` requires it to list
  every telegram id exactly once.

The source's `data[0]` is "the first match in `scan`".

Assumptions the model makes explicit:
- A new row starts with `referrals` and `points` at 0. These are the column defaults:
  the insert at bot.py:62-67 does not set them.
- `today <= now`: the clock does not run backwards between the two reads.
- `newId` is fresh (`FreshId`), as a store-assigned row id is.
- Referral codes are not assumed unique, because the source never checks. With
  duplicate codes, the referrer is the first matching row in store order.

Details of bot.py the model keeps:
- The audience limit is 5 (bot.py:106).
- The daily check is `created_at >= today` (bot.py:93), so an event dated after today
  also blocks.
- An empty audience replies "no users" after the event is recorded (bot.py:99-109).

bot.py never imports `random`, `string`, `datetime` or `timezone`, which it uses at
bot.py:29 and bot.py:92. As written, a new registration and every `/sendlink` that
passes the argument and registration checks would fail with a name error. The model
follows the evident intent: a code made of eight alphanumeric draws, and UTC "today"
and "now".

## Model

| member | source | states |
|---|---|---|
| `ReferralCode.Generate` | bot.py:28-29 | a generated code is exactly 8 characters, each an ASCII letter or digit |
| `ReferralCode.DrawsOfGenerate` | bot.py:28-29 | the draws can be read back from the code, so distinct draws give distinct codes (all 62^8 outcomes) |
| `ReferralCode.GenerateOfDraws` | bot.py:28-29 | every 8-character alphanumeric code is the result of some draws |
| `ReferralCode.Draws` | bot.py:28-29 | every well-formed code maps back to valid draws, each a position in the 62-symbol alphabet |
| `Tables.FindByCode` | bot.py:48-53 | the referrer lookup returns the first row in store order that carries the code, or nothing exactly when no row in the scan carries it |
| `Tables.SelectAudience` | bot.py:106 | the audience has at most `limit` members, never the sender, only ids from the scan, no repeats; it holds every other user when there are fewer than `limit`; its size is min(limit, number of other users) |
| `Tables.ScanCoversTable` | bot.py:106 | a store scan lists as many ids as the table has rows |
| `Leaderboard.Insert` | bot.py:121 | inserting a row into the ranking adds exactly that row (multiset) |
| `Leaderboard.InsertKeepsDescending` | bot.py:121 | inserting a row keeps the ranking ordered by referrals, descending |
| `Leaderboard.SortByReferrals` | bot.py:121 | `order by referrals desc` is a permutation of the rows, in descending referral order |
| `Leaderboard.Top` | bot.py:121 | `limit 10`: exactly min(10, rows) rows, in descending order, drawn from the input rows |
| `Leaderboard.TopSelectsHighest` | bot.py:121 | a row left off the leaderboard has no more referrals than any row shown |
| `Handlers.DisplayName` | bot.py:34 | the name shown is never empty: the chat's username when it has a non-empty one, "Unknown" otherwise |
| `Handlers.Start` | bot.py:32-71 | the store and reply after /start, given the store, caller, arguments, draws, new row id and row order: the reply is Welcome or InvalidReferral; a refusal writes nothing; links are untouched; a Welcome leaves the caller registered under the code it shows (for a new caller, the code generated from the draws, hence 8 ASCII letters or digits; it may equal a code another row already has), and at most that one row is added |
| `Handlers.SendLink` | bot.py:74-117 | the store and reply after /sendlink, given the store, caller, arguments, today, now and row order: profiles are never touched; Usage, NotRegistered and AlreadySentToday write nothing; NoUsers and Shared append exactly one event, dated now, after the existing ones; a Shared audience has 1 to 5 members and never the sender |
| `Handlers.Redeem` | bot.py:130-145 | the store and reply after /redeem: the reply is NotRegistered, TooFewPoints or Redeemed; anything but Redeemed writes nothing; Redeemed needs at least 50 points and takes exactly 50; no other row, no key and no link changes |
| `Handlers.StartRegistered` | bot.py:37-40 | an already registered caller causes no write, and the reply carries the code already on record, whatever the other inputs |
| `Handlers.StartIdempotent` | bot.py:37-67 | after a successful start, a second start by the same user writes nothing and shows the same code |
| `Handlers.StartInvalidReferral` | bot.py:44-51 | start is refused exactly when the caller is new and gives a non-empty code that no row carries; a refusal writes nothing |
| `Handlers.StartCreditsReferrer` | bot.py:53-67 | with a valid code, exactly one row carrying the code gains 1 referral and 10 points, every other existing row is unchanged, and exactly one row is added; it has referred_by = the code and a well-formed generated code; links untouched |
| `Handlers.StartWithoutReferral` | bot.py:42-67 | with no code, the only write is the new row, with 0 referrals, 0 points, and a referred_by that is null when there are no arguments and the empty string when the first argument is empty |
| `Handlers.StartPreservesWellFormed` | bot.py:53-67 | start keeps the store well formed, given a fresh row id |
| `Handlers.SendLinkOutcomes` | bot.py:78-103 | no argument gives Usage; an unregistered user gives NotRegistered; an earlier send dated today or later gives AlreadySentToday; all three write nothing; an accepted send appends exactly one event for the sender and touches no profile |
| `Handlers.SecondSendSameDayRefused` | bot.py:92-96 | after an accepted send, any later send by the same user whose "today" is not after the recorded day is refused |
| `Handlers.SendLinkPreservesWellFormed` | bot.py:92-103 | an accepted send is dated after every earlier send by the same user, so no user has two sends on one UTC day |
| `Handlers.SendLinkAudience` | bot.py:99-109 | the event is recorded whatever the audience; the audience is min(5, other users) distinct registered users, never the sender; NoUsers exactly when the sender is the only user |
| `Handlers.RedeemOutcomes` | bot.py:134-144 | unregistered or under 50 points: nothing changes; otherwise points drop by exactly 50 and stay >= 0, no other field or row changes, and links are untouched |
| `Handlers.RedeemPreservesWellFormed` | bot.py:139-144 | redeem keeps the store well formed |
| `Handlers.ReferralSession` | bot.py:32-117 | a concrete session: A registers, B registers with A's code (A: 1 referral, 10 points), B's first share reaches A and records one event, B's second share that day is refused |
| `Bot.Ledger.Start` | bot.py:32-71 | the /start handler on the tables ends in the state and reply given by `Handlers.Start` and keeps the invariant |
| `Bot.Ledger.SendLink` | bot.py:74-117 | the /sendlink handler ends in the state and reply given by `Handlers.SendLink` and keeps the invariant |
| `Bot.Ledger.Redeem` | bot.py:130-145 | the /redeem handler ends in the state and reply given by `Handlers.Redeem` and keeps the invariant |
| `Bot.Ledger.Leaderboard` | bot.py:120-121 | the leaderboard rows: min(10, users) registered rows, in descending referral order, each a row of the table, none outranked by a row left out |

## Left out

- Message delivery (bot.py:111-115): `send_message` and its swallowed per-recipient
  errors do not touch the tables. The reply `Shared(audience)` carries the recipients
  chosen, and no delivery result can affect the ledger.
- Reply texts, the referral-link URL (bot.py:70) and the leaderboard's text formatting
  (bot.py:123-125): these are presentation only.
- `error_handler` (bot.py:148-151), `create_app`, the webhook route, `set_webhook` and
  the `asyncio.run` bootstrapping (bot.py:154-183): these are process and HTTP plumbing.
- Environment loading and checking (bot.py:10-19) and the Supabase client (bot.py:22):
  these are configuration and a foreign library. The store is in-memory tables here.
- Randomness and the wall clock: `draws`, `today` and `now` are parameters.
- Concurrency: handlers are atomic steps. The check-then-act races of the real store,
  where two concurrent sends or redeems both pass the guard, are not modelled.
- Referral-code uniqueness: the source does not check for collisions, so the model
  does not claim uniqueness.
- Store failures: a failing store call is not modelled; every query answers.
- Bot.Ledger.Leaderboard: returns whole rows rather than only the selected columns
  (username, referrals, points). Rows with equal referral counts keep store order; the
  store leaves that order unspecified, and the model does not state it in a contract.
- Timestamps: `created_at` is kept as a UTC day number. The check `created_at >= today`
  is a comparison of days.
- Points and referral counts are unbounded integers, matching Python's integers.
