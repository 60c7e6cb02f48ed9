# FreelanceScout ingestion and dispatch, modelled in Dafny

FreelanceScout is a Telegram bot. It polls three freelance marketplaces for new projects:

- FL.ru, through its RSS feed;
- Kwork, by reading the JSON embedded in its project page;
- Freelancer.com, through its API.

Each adapter turns a listing into a common payload `{id, title, description, url, budget}`. It skips listings whose key `"{source}:{id}"` is still alive in Redis. It publishes the rest on a Redis channel and marks each key with a 360-second TTL. A notification service subscribes to the three channels. For each message it selects the subscribers of that channel from PostgreSQL and keeps those whose comma-separated keywords match the raw payload. It then sends each of them a rendered card; a failed send does not stop the others. The bot's handlers store keyword lists, flip per-service subscription flags from inline-button callbacks, register new users, and check who is the administrator.

The model is split into modules that follow the program:

| module | file | models |
|---|---|---|
| `Text` | `text.dfy` | the Python string operations used: `strip`, `rstrip`, `lower`, `split`, `join`, `in`, `find`, `replace`, `str(int)` |
| `Posting` | `posting.dfy` | ids, budgets, payloads and bus records; the dedup key `"{source}:{id}"` |
| `RedisStore` | `redis_store.dfy` | Redis as a class holding a key→expiry map and an append-only publish log; the check-then-publish-then-set pass as a function with its properties |
| `Recency` | `recency.dfy` | the order-preserving "published within the window" filter shared by the FL and Kwork adapters |
| `Fl` | `fl_parser.dfy` | `get_structured_feed`, `filter_recent_items`, `parse_budget`, `process_rss_projects` |
| `Kwork` | `kwork_parser.dfy` | `extract_json_object`, `extract_projects_from_json`, `filter_recent_projects`, `process_kwork_projects` |
| `Freelancer` | `freelancer_parser.dfy` | `FreelancerParser`: its configuration check, `get_recent_projects`, `freelancer_parser_run` and the catch-and-continue `run` |
| `Db` | `database.dfy` | `Database` over an in-memory `users` table: `update_user`'s SET-clause builder, `add_user`, `get_user`, the three flag-filtered selects, `connect`, `disconnect` |
| `Notifications` | `notification_service.dfy` | `format_project_message` and `NotificationService.listen`: recipients, keyword eligibility, failure-isolated sending |
| `Bot` | `bot.dfy` | the `main.py` handlers: keyword normalisation in `save_keywords`, the settings keyboard, `toggle_service`, `/start`, and the two admin checks |

The outside world enters as parameters:

- **Time.** Time is integer epoch seconds. The date parsers (`parsedate_to_datetime`, `strptime`) are functions passed in. They return `None` where Python raises.
- **JSON.** `json.loads` is a function passed in, from a string to an optional record.
- **The marketplaces.** The fetched feed, page HTML and API response are values.
- **Telegram.** A send that raises is modelled by the set of chat ids whose send fails.
- **Redis.** Redis is a `RedisStore.Redis` object; a key is alive while its expiry is later than now.
- **PostgreSQL.** The `users` table is a sequence of rows in insertion order, which is the order a `SELECT` returns them in the model. `Users()` is its map view by `chat_id`. The `UNIQUE` constraint on `chat_id` is the class invariant.

Each dedup loop is an imperative method over the `Redis` object. Its postcondition ties the new store and log to a specification function `RedisStore.Pass`. That function is the fold of a single step: skip a candidate without a key or with a live key; otherwise publish it and set its key to expire at `now + 360`. The lemmas about `Pass` state the dedup guarantees:

- exactly the candidates whose key was not alive get published;
- each key is published at most once per pass, by its first occurrence;
- a second pass inside the TTL window publishes nothing for that key;
- a third pass after the window publishes it again.

Three behaviours of the code are worth stating:

- **Recency window.** The FL and Kwork adapters keep the items of the last 500 minutes. The 500 is an argument their callers pass.
- **Freelancer failures.** Only a "projects not found" error becomes an empty result. Every other failure of the API call aborts the cycle, and `run` catches it.
- **Shutdown check.** `/shutdown` compares the username with `ADMIN_USERNAME` exactly. So a user without a username passes when `ADMIN_USERNAME` is unset. The model keeps this: `Bot.ShutdownWithoutAdmin` states it.

## Model

| member | source | states |
|---|---|---|
| `Text.Strip` | main.py:292 | the result has no whitespace at either end, is no longer than the input, and is empty exactly when the input is all whitespace |
| `Text.RStrip` | src/notifications/notification_service.py:33 | the result is a prefix of the input that does not end in whitespace, and everything cut off is whitespace |
| `Text.LStrip` | main.py:292 | the result is a suffix of the input that does not start with whitespace, and everything cut off is whitespace |
| `Text.StripStripped` | main.py:294 | stripping text that has no whitespace at either end changes nothing |
| `Text.Split` | main.py:294 | `split(',')` gives at least one part and no part contains the separator |
| `Text.JoinSplit` | main.py:294-299 | joining the parts of a split with the separator gives back the original string |
| `Text.Find` | src/parsers/kwork_parser.py:41 | `find` returns the first occurrence at or after the start index, or `None` (Python's `-1`) when there is none |
| `Text.ReplaceAllLeading` | main.py:231 | replacing a pattern in text that starts with it puts the replacement first |
| `Text.ReplaceAllAbsent` | main.py:231 | replacing a pattern whose first character does not occur leaves the text unchanged |
| `Recency.KeepRecent` | src/parsers/fl_parser.py:63-81 | the append loop keeps exactly the list the `Recent` filter describes |
| `Recency.RecentMembers` | src/parsers/kwork_parser.py:72-84 | an element is kept if and only if it is in the input and its timestamp is present and within the window |
| `Recency.RecentAppend` | src/parsers/fl_parser.py:66-81 | the filter distributes over concatenation, so it keeps the input order |
| `RedisStore.Redis.constructor` | src/parsers/fl_parser.py:120 | a fresh client sees no keys and no published messages |
| `RedisStore.Redis.Set` | src/parsers/fl_parser.py:151 | `set(key, '1', ex=ttl)` makes the key expire at `now + ttl` and publishes nothing |
| `RedisStore.Redis.Publish` | src/parsers/fl_parser.py:106-108 | `publish` appends one record with that channel and payload to the log and leaves the keys alone |
| `RedisStore.PassEffect` | src/parsers/fl_parser.py:123-151 | a pass publishes exactly the candidate keys that were not alive; it sets each of them to expire 360 s later and leaves every other key's expiry unchanged |
| `RedisStore.PassAtMostOnce` | src/parsers/fl_parser.py:129-151 | within one pass no key is published twice |
| `RedisStore.PassPublishesFirst` | src/parsers/kwork_parser.py:102-131 | every published payload belongs to the first candidate that carries its key |
| `RedisStore.CandidateKeysLive` | src/parsers/freelancer_parser.py:75-107 | after a pass, every key it saw is alive: published now, or already alive before |
| `RedisStore.TtlWindow` | src/parsers/fl_parser.py:129-151 | a key not alive at `t1` is published at `t1`, suppressed at any `t2 < t1 + 360` and published again at `t3 >= t1 + 360` |
| `Fl.StructuredFeed.constructor` | src/parsers/fl_parser.py:57-60 | the structured feed holds the channel and the items it was built from |
| `Fl.ItemsOf` | src/parsers/fl_parser.py:45-55 | one item per entry, in order, each field the entry's value or `""` |
| `Fl.GetStructuredFeed` | src/parsers/fl_parser.py:32-60 | a missing or entry-less feed gives the empty structure; otherwise the channel metadata and one item per entry, in order |
| `Fl.FilterRecentItems` | src/parsers/fl_parser.py:62-84 | the items of the same structure are replaced in place by the recent ones; the channel is kept |
| `Fl.FlRecentItem` | src/parsers/fl_parser.py:66-81 | an item is kept if and only if its `pubDate` is non-empty and parses and `now - pub <= minutes * 60` |
| `Fl.ParseBudget` | src/parsers/fl_parser.py:86-104 | either every field is `None`, or minimum equals maximum, the value is non-negative and the currency is `₽` |
| `Fl.ParseBudgetReads` | src/parsers/fl_parser.py:94-100 | for every text whose first marker is followed by blanks, a colon, blanks and a run of digits, blanks, commas and points: the budget is that run, with spaces dropped and commas read as points, as both bounds in `₽`, or no budget when the run is not a number |
| `Fl.GroupAtReads` | src/parsers/fl_parser.py:94-96 | at a marker followed by blanks, a colon, blanks and a maximal amount run starting with a non-blank, the captured group is exactly that run |
| `Fl.SearchSkips` | src/parsers/fl_parser.py:94 | the search passes over positions where no marker starts |
| `Fl.NoMarkerNoBudget` | src/parsers/fl_parser.py:94-104 | text without a `Бюджет`/`бюджет` marker gives no budget |
| `Fl.GroupedAmountRead` | src/parsers/fl_parser.py:94-100 | `"Бюджет: 1 000,5 ₽"` reads as 1000.5 roubles for both minimum and maximum: spaces are dropped and the comma becomes a point |
| `Fl.TwoPointsNoAmount` | src/parsers/fl_parser.py:97-104 | the run `"1.000,5"` normalises to `"1.000.5"`, which is not a number, so no amount is read |
| `Fl.FlCandidate` | src/parsers/fl_parser.py:125-147 | the key is `fl:` + guid, or + link when the guid is empty; there is no key when both are empty; the payload's id is that guid or link, its title and description are the item's, its url is the link, and its budget is the title's when the title yields a minimum and the description's otherwise, so empty or in roubles |
| `Fl.FlStep` | src/parsers/fl_parser.py:123-151 | one loop step skips an item with no id or a live key; otherwise it publishes the payload and sets the key for 360 s |
| `Fl.PublishItem` | src/parsers/fl_parser.py:123-151 | the loop body changes the store and the log exactly as one dedup step does |
| `Fl.PublishItems` | src/parsers/fl_parser.py:121-151 | the loop leaves the log extended by exactly the records of the dedup pass over the items, and the store equal to that pass's result |
| `Fl.ProcessRssProjects` | src/parsers/fl_parser.py:110-153 | one run publishes exactly the dedup pass over the recent items of the structured feed on `fl_projects`; a missing feed publishes nothing |
| `Kwork.JsonObject` | src/parsers/kwork_parser.py:28-37 | the result is `text[start..i+1]` for the first `i` at which a `}` brings the counter back to 0, and `""` exactly when no such `i` exists |
| `Kwork.ExtractJsonObject` | src/parsers/kwork_parser.py:28-37 | the counter loop returns exactly `JsonObject` |
| `Kwork.BalancedObject` | src/parsers/kwork_parser.py:29-36 | starting at `{`, a non-empty result starts with `{`, ends with `}`, has as many `{` as `}`, and every proper non-empty prefix has more `{` than `}` |
| `Kwork.ObjectStart` | src/parsers/kwork_parser.py:40-49 | the object starts at a `{` after the first `"wantsListData":`; there is none exactly when the key is missing or no `{` follows it |
| `Kwork.ExtractProjectsFromJson` | src/parsers/kwork_parser.py:39-64 | the result is `[]` when the key is missing, when no `{` follows it, or when no balanced object is found; a non-empty result is the `pagination.data` of the balanced object cut at that `{` and decoded; conversely, when that object decodes and has `pagination.data`, the result is that list |
| `Kwork.FilterRecentProjects` | src/parsers/kwork_parser.py:66-85 | the append loop returns the recent projects in order |
| `Kwork.KworkRecentProject` | src/parsers/kwork_parser.py:72-84 | a project is kept if and only if its `date_create` is present and parses, and it is within the window once read as UTC+3 (3 hours earlier in UTC) |
| `Kwork.KworkCandidate` | src/parsers/kwork_parser.py:104-126 | the key is `kwork:{id}` and missing for a falsy id; the url is `https://kwork.ru/projects/{id}`; the budget is (priceLimit, possiblePriceLimit, `₽`); the id, title and description are copied |
| `Kwork.KworkStep` | src/parsers/kwork_parser.py:102-131 | one loop step skips a falsy id or a live key; otherwise it publishes and sets the key for 360 s |
| `Kwork.PublishProject` | src/parsers/kwork_parser.py:102-131 | the loop body changes the store and the log exactly as one dedup step does |
| `Kwork.PublishProjects` | src/parsers/kwork_parser.py:100-131 | the loop leaves the log and the store exactly as the dedup pass over the projects does |
| `Kwork.ProcessKworkProjects` | src/parsers/kwork_parser.py:91-135 | one run publishes exactly the dedup pass over the recent projects of the page on `kwork_projects` |
| `Freelancer.RecentOf` | src/parsers/freelancer_parser.py:50-62 | an API error gives no result (the exception propagates); "not found" gives `[]`; otherwise a project is kept if and only if `now - submitdate <= interval`, with a missing submitdate read as 0 |
| `Freelancer.FreelancerParser.GetRecentProjects` | src/parsers/freelancer_parser.py:50-62 | the append loop returns `RecentOf` |
| `Freelancer.FreelancerCandidate` | src/parsers/freelancer_parser.py:71-104 | the key is `freelancer:{id}`; the description falls back to `preview_description`; the url is `{URL}/projects/{seo_url}` or the project url or `""`; the budget bounds are copied; the currency is `currency.sign` or `None` |
| `Freelancer.FreelancerStep` | src/parsers/freelancer_parser.py:70-107 | one loop step skips a falsy id or a live key; otherwise it publishes and sets the key for 360 s |
| `Freelancer.FreelancerParser.PublishProject` | src/parsers/freelancer_parser.py:70-107 | the loop body changes the store and the log exactly as one dedup step does |
| `Freelancer.FreelancerParser.PublishProjects` | src/parsers/freelancer_parser.py:69-107 | the loop leaves the log and the store exactly as the dedup pass over the projects does |
| `Freelancer.FreelancerParser.FreelancerParserRun` | src/parsers/freelancer_parser.py:67-107 | a cycle reports an exception exactly when the API call raised; the store after it is `AfterCycle` |
| `Freelancer.FreelancerParser.Run` | src/parsers/freelancer_parser.py:109-116 | after a sequence of cycles the store is `AfterCycles`, and the number of caught failures is the number of cycles whose call raised |
| `Freelancer.AfterCyclesAppend` | src/parsers/freelancer_parser.py:109-116 | running two batches of cycles is the same as running their concatenation |
| `Freelancer.RaisedCycleSkipped` | src/parsers/freelancer_parser.py:111-114 | a cycle whose call raised changes nothing, so the loop continues as if it had not happened |
| `Freelancer.FreelancerParser.constructor` | src/parsers/freelancer_parser.py:16-25 | a parser keeps its URL, OAuth token and Redis client |
| `Freelancer.NewFreelancerParser` | src/parsers/freelancer_parser.py:19-25 | construction fails exactly when `FLN_URL` or `FLN_OAUTH_TOKEN` is unset or empty; otherwise the parser holds those values |
| `Db.Provided` | src/db/database.py:64-75 | a column is in the list exactly when its argument is not `None`; the columns come in the order keywords, mailing_kwork, mailing_fl, mailing_freelancer |
| `Db.AddIfGiven` | src/db/database.py:64-66 | one `if ... is not None` block appends the column's clause and value exactly when the argument is given |
| `Db.BuildUpdate` | src/db/database.py:62-75 | the clause list and the value list are exactly those of the provided columns, aligned one to one |
| `Db.Apply` | src/db/database.py:80-84 | the updated row takes each provided column from the arguments and keeps the id, the chat id and every other column |
| `Db.ApplyEmpty` | src/db/database.py:76-78 | an update with no provided column leaves a row unchanged |
| `Db.Database.constructor` | src/db/database.py:8-19 | a new database is not connected and holds the given table |
| `Db.Database.Connect` | src/db/database.py:21-29 | connecting succeeds exactly when the server is reachable and leaves the table unchanged |
| `Db.Database.Disconnect` | src/db/database.py:31-35 | afterwards there is no connection, and a second call does nothing else |
| `Db.Database.UpdateUser` | src/db/database.py:61-88 | with no provided column there is no query and nothing changes. Otherwise the query is `UPDATE users SET` + the joined clauses + `WHERE chat_id = %s;` and the values end with the chat id. Only the provided columns of that user's row change; a missing user changes nothing |
| `Db.Database.GetUser` | src/db/database.py:90-99 | the row with that chat id, or `None` when it is absent or the query fails |
| `Db.Database.AddUser` | src/db/database.py:100-112 | the row is inserted with the next serial id only when the chat id is absent; an existing row is left unchanged |
| `Db.Database.GetUsersForKwork` | src/db/database.py:114-123 | exactly the rows with `mailing_kwork` true, in table order, or `[]` on error |
| `Db.Database.GetUsersForFl` | src/db/database.py:125-134 | exactly the rows with `mailing_fl` true, in table order, or `[]` on error |
| `Db.Database.GetUsersForFreelancer` | src/db/database.py:136-145 | exactly the rows with `mailing_freelancer` true, in table order, or `[]` on error |
| `Db.SubscribersMembers` | src/db/database.py:115 | a row is selected if and only if it is in the table and its flag is true |
| `Db.SubscribersAppend` | src/db/database.py:114-120 | the select keeps table order |
| `Db.UsersOfKeys` | src/db/database.py:41 | a chat id is in the map view exactly when some row carries it |
| `Db.InsertKeepsValid` | src/db/database.py:101-105 | inserting an absent chat id with the next serial id keeps chat ids unique and ids increasing |
| `Db.UsersOfSnoc` | src/db/database.py:101-105 | an insert adds exactly that row to the map view |
| `Db.UpdateOnlyTarget` | src/db/database.py:80-84 | the update changes only rows with that chat id and keeps the row count |
| `Db.UpdateKeepsValid` | src/db/database.py:80-84 | an update keeps chat ids unique and ids unchanged |
| `Db.UpdateUsersView` | src/db/database.py:80-84 | in the map view an update patches that user's row only, and changes nothing when the user is absent |
| `Notifications.Preview` | src/notifications/notification_service.py:31-34 | a description of at most 200 characters is unchanged; a longer one is its first 200 characters without trailing whitespace, followed by `...` |
| `Notifications.Hundredths` | src/notifications/notification_service.py:47 | the amount in hundredths, within half a unit of the exact value, a tie going to the even integer |
| `Notifications.Round2` | src/notifications/notification_service.py:47 | `round(x, 2)` lies within 0.005 of `x` and is a whole number of hundredths |
| `Notifications.FormatValue` | src/notifications/notification_service.py:41-49 | an `int` exactly when the value is integral, and then equal to it; otherwise the rounded `float`, within 0.005 |
| `Notifications.BudgetLineOf` | src/notifications/notification_service.py:36-68 | the bounds are formatted first; two equal truthy formatted bounds give one amount, two different ones a range, one truthy bound that amount; otherwise, or with an empty budget, "Бюджет не указан" |
| `Notifications.FormattedZero` | src/notifications/notification_service.py:41-56 | a non-negative amount below 0.005 formats to a falsy zero, and one above 0.005 to a truthy value |
| `Notifications.TinyMinimumNotSpecified` | src/notifications/notification_service.py:51-67 | a minimum of 0.001 alone renders as "Бюджет не указан" |
| `Notifications.CloseBoundsOneAmount` | src/notifications/notification_service.py:51-58 | bounds 100.001 and 100.004 render as the one amount 100.0 |
| `Notifications.SourceLabel` | src/notifications/notification_service.py:71-82 | the three channels get the FL, Kwork and Freelancer badges; any other channel gets an empty badge |
| `Notifications.FormatProjectMessage` | src/notifications/notification_service.py:19-91 | an undecodable payload gives `(data, '', '')`; a `null` description raises; otherwise the card is made of the badge, the title (default "Без названия"), the preview and the budget line, with the url and title |
| `Notifications.NullDescriptionNotRendered` | src/notifications/notification_service.py:27-34 | a published payload whose description is `None` cannot be rendered, so no one receives it |
| `Notifications.ParsedBudgetLine` | src/notifications/notification_service.py:36-64 | a budget as `parse_budget` produces it renders as its one formatted amount in roubles when that amount is non-zero after formatting, and as "not specified" when there is no amount or it rounds to zero |
| `Notifications.Keyword` | src/notifications/notification_service.py:122 | a comma-separated part yields a keyword exactly when it is not blank; the keyword is the part stripped and lowercased, and non-empty |
| `Notifications.KeywordListMembers` | src/notifications/notification_service.py:122 | the keyword list holds exactly the stripped, lowercased non-blank parts |
| `Notifications.EligibleIff` | src/notifications/notification_service.py:119-124 | a non-blank keyword string admits a message if and only if some non-blank part, stripped and lowercased, occurs in the lowercased raw payload |
| `Notifications.NoItemsMatchNothing` | src/notifications/notification_service.py:121-124 | a non-blank keyword string whose parts are all blank admits nothing |
| `Notifications.CommaSpaceCommaMatchesNothing` | src/notifications/notification_service.py:121-124 | the keywords `", ,"` admit no message |
| `Notifications.EligibleUsersMembers` | src/notifications/notification_service.py:116-126 | a recipient is selected if and only if its keywords are null or blank or match the payload |
| `Notifications.DeliveriesMembers` | src/notifications/notification_service.py:128-145 | a card is delivered to a chat exactly when the message renders, the chat is among the eligible and its send does not fail |
| `Notifications.NotificationService.constructor` | src/notifications/notification_service.py:11-17 | the service subscribes to the three project channels and has sent nothing |
| `Notifications.NotificationService.Recipients` | src/notifications/notification_service.py:107-114 | each channel reads its own subscriber select; an unknown channel has no recipients |
| `Notifications.NotificationService.AnyContained` | src/notifications/notification_service.py:123 | the loop finds a keyword exactly when some keyword occurs in the text |
| `Notifications.NotificationService.Admits` | src/notifications/notification_service.py:118-126 | the per-user test decides `Eligible` |
| `Notifications.NotificationService.SelectEligible` | src/notifications/notification_service.py:116-126 | the loop collects the eligible recipients in the order the store returned them |
| `Notifications.NotificationService.SendAll` | src/notifications/notification_service.py:128-145 | every eligible recipient gets exactly one attempt, in order; the sent cards are the deliveries of the ones that did not fail, so a failure does not stop the rest |
| `Notifications.NotificationService.HandleMessage` | src/notifications/notification_service.py:107-145 | handling a message sends exactly its deliveries |
| `Notifications.NotificationService.HandleIncoming` | src/notifications/notification_service.py:98-145 | a bus event of another type sends nothing; a message sends its deliveries |
| `Notifications.NotificationService.Listen` | src/notifications/notification_service.py:93-145 | listening to a stream of events sends the concatenation of each event's deliveries |
| `Notifications.ListenAppend` | src/notifications/notification_service.py:98-145 | listening to two streams one after the other sends the same as listening to their concatenation |
| `Notifications.OtherKindsIgnored` | src/notifications/notification_service.py:99 | events whose type is not `message` do not change what is sent |
| `Notifications.UnknownChannelNobody` | src/notifications/notification_service.py:107-114 | a message on an unknown channel reaches no one |
| `Bot.Item` | main.py:294 | a part is kept exactly when it is not blank, and is kept stripped |
| `Bot.ItemsClean` | main.py:294 | every kept item is non-empty, stripped and free of commas |
| `Bot.NormalizeRejects` | main.py:292-297 | the input is rejected exactly when every comma-separated part of the stripped text is blank |
| `Bot.ItemsOfJoin` | main.py:294-299 | normalising the `", "`-joined items gives back the same items |
| `Bot.NormalizeIdempotent` | main.py:292-299 | saving an already saved keyword string stores it unchanged |
| `Bot.StoredKeywordsMatch` | main.py:294-299 | splitting the stored string on `,` as the matcher does gives back the saved items, lowercased |
| `Bot.CurrentKeywords` | main.py:249 | the shown keywords are the stored ones, or the "none set" text when the user or the keywords are missing or empty |
| `Bot.SavedKeywordsShown` | main.py:249 | after saving, the settings screen shows exactly the saved string |
| `Bot.SaveKeywords` | main.py:289-307 | blank input is rejected and nothing is stored; otherwise only the user's keywords become the normalised string, or the save fails when the database is unavailable |
| `Bot.ServiceNamed` | main.py:234-239 | the service name in a callback names exactly one service |
| `Bot.CmdSettings` | main.py:166-190 | an unknown user gets no keyboard; a known user gets the keyboard built from their row |
| `Bot.ParseToggle` | main.py:230-231 | the callback parses exactly when it splits on `:` into two parts; the action is the second part |
| `Bot.ParseToggleCallback` | main.py:177-188 | the callback of a button parses back to its service and to the opposite of the current flag |
| `Bot.TogglePatch` | main.py:234-239 | a toggle updates that service's flag column and nothing else |
| `Bot.ToggleFlips` | main.py:177-239 | handling a settings button's callback flips that service's flag and leaves the other flags and the keywords unchanged |
| `Bot.ToggleService` | main.py:228-241 | `toggle_{svc}:{action}` sets that service's flag to `action == "on"`; an unknown service or a malformed callback updates nothing |
| `Bot.CommandStart` | main.py:37-50 | `/start` inserts a default row for an unknown user and leaves an existing user unchanged; the serial advances by one exactly when that insert runs, and stays put otherwise |
| `Bot.DefaultRowGetsEverything` | main.py:42-50 | a new user is subscribed to every service and, with empty keywords, receives every message |
| `Bot.IsForceUpdateAdmin` | main.py:283 | a user without a username is refused; otherwise the comparison is case-insensitive, and it raises when `ADMIN_USERNAME` is unset |
| `Bot.IsShutdownAdmin` | main.py:146 | the comparison is exact, and `None == None` passes |
| `Bot.AdminChecksDifferOnCase` | main.py:146 | `Admin` may force an update for admin `admin` but may not shut the bot down |
| `Bot.ShutdownWithoutAdmin` | main.py:146 | with `ADMIN_USERNAME` unset, a user without a username may shut the bot down |

## Left out

- HTTP fetching and feedparser (`fetch_rss_feed`), Selenium (`fetch_page_html`), and the freelancersdk session and search call. Their results are parameters.
- The clock and date parsing (`datetime.now`, `time.time`, `parsedate_to_datetime`, `strptime`). Time is integer seconds, and the parsers are functions passed in. Sub-second precision is not modelled.
- `json.dumps` and `json.loads`. Decoding is a function passed in, and payloads are records. The escaping of non-ASCII by `json.dumps` is not reproduced, so `Notifications.Eligible` matches keywords against the payload text as given.
- Bytes decoding of channel names and data in `listen`. Both are strings in the model.
- Floating point:
  - budget amounts are exact reals;
  - `float()` accepts digit-and-point strings only, not exponents, `inf` or `nan`, which the `[\d\s,.]` run cannot produce anyway;
  - `Notifications.Round2` rounds the exact decimal value, a tie going to the even hundredth. Python rounds the binary double, so an amount written as a decimal tie, such as 0.005, may round the other way;
  - how Python prints the formatted `int` or `float` is the `show` parameter;
  - amounts are numbers in the JSON view, so a budget sent as a string is not modelled.
- `Fl.ParseBudget`: `\d` and `isspace` are read as ASCII digits and the whitespace set of `Text.IsSpace`. Other Unicode decimal digits are not modelled.
- `Text.Lower` lowers ASCII and basic Cyrillic letters only. Full Unicode case mapping is not modelled.
- Redis and database failures in the middle of a loop (a raised `publish`, `set` or `execute`). The only modelled errors are:
  - the Freelancer API error;
  - an unreachable database, where `update_user` raises and the selects return `[]`;
  - a failing Telegram send.
- The table order that `SELECT` returns is taken to be insertion order.
- `create_tables`: the schema is the `Db.Row` type and the `ValidTable` invariant.
- The infinite `while True` loops and `time.sleep` of the three adapters. `Freelancer.FreelancerParser.Run` runs a given finite sequence of cycles; the FL and Kwork mains are one call of their process method.
- `FreelancerParser.__init__` starting `run` itself. The model constructs the parser, and `Run` is called separately.
- `src/parsers/application_parser.py` (the process supervisor) and the signal and shutdown sequencing in `main.py`. These concern process concurrency.
- The `data_updates` publish of `/force_update`, since nothing in the modelled code subscribes to it.
- The Telegram UI: reply keyboards, help and settings texts, message editing, the FSM state of the keyword dialogue, `/cancel`, `close_settings`, and answering callbacks. `Bot.CmdSettings` returns the inline keyboard as data.
- A `message.text` of `None` in `save_keywords`. The text is a string in the model.
- JSON `null` where the code calls a method on the value or iterates it. The model reads such a `null` as a missing key, while the source raises:
  - `Kwork.ExtractProjectsFromJson`: a `null` `pagination` makes `.get("data", [])` raise `AttributeError`; the model returns `[]`;
  - `Freelancer.RecentOf`: a `null` `projects` list makes the loop raise `TypeError`, and a `null` `submitdate` makes `now - None` raise; the model iterates `[]` and reads `0`. The caller can give such a response as `Raised`, which has the same outcome;
  - a decoded JSON value that is not an object, where `.get` raises; the decoded page and response types are records.
- `Freelancer.FreelancerCandidate`: a project whose `url` is JSON `null` and whose `seo_url` is falsy is published with `'url': None` in the source. The model's `Project.url` cannot tell `null` from a missing key, and the payload url is a string, so it publishes `""` instead.
- A Freelancer budget of JSON `null`, or a currency object without `sign`. The model's budget is an optional object and `sign` an optional string.
- `Bot.ToggleService`: its `requires` states the `startswith("toggle_")` filter of the callback handler. A callback that splits into more or fewer than two parts raises in the source; in the model it updates nothing and reports failure.
