# mapbot, modelled in Dafny

mapbot is a Telegram bot that tells each user about points of interest newly
published on BTC Map in the country they chose. A user picks one of seven
countries; the bot then runs a repeating poll job for that user. Each run
fetches the elements updated since a shared cursor (`last_polled_time`),
keeps those the country predicate accepts, sends one formatted message per
element, and moves the cursor to the current time.

This project models that core of `main.py`:

- `entries.dfy` (module `Entries`): a feed entry as a dictionary of string
  fields with an optional nested `tags` dictionary, and Python's `dict.get`
  with a default.
- `formatter.dfy` (module `Formatter`): `format_entry_message`. This covers the
  dial code (the text before the first space of `phone`), the closed
  seven-entry dial code table with `Unknown` as fallback, the `N/A` defaults,
  the `yes`-only currency and Lightning flags, and the seven-line f-string.
- `message.dfy` (module `Message`): the layout of that text. It splits into
  exactly seven labelled lines with six newlines, and it reads back into the
  values it shows, as long as none of those values holds a newline.
- `bot.dfy` (module `Bot`): the globals (`last_polled_time`,
  `user_preferences`, the scheduled jobs and the observable effects) as the
  class `Bot`, whose methods `PollApi`, `SendEntriesToTelegram` and
  `CountryChoice` update them in place. `PollApi` and `CountryChoice` are
  proved to perform the pure transitions `PollStep` and `ChooseCountry` on
  `State`. `SendEntriesToTelegram` is proved to append exactly the messages
  `SendEvents` gives for the entries that went out before any exception. The
  cursor, filter and preference rules are proved about the pure transitions.
- `wrappers.dfy` (module `Wrappers`): `Option`.

Inputs the program gets from outside are parameters:
- what `requests.get` gave: no answer at all (the call raised), or a status
  code and a body that either decodes as JSON entries or does not (then
  `response.json()` raises);
- how `send_entries_to_telegram` ended: every call returned, or an exception
  escaped after a given number of messages had gone out. The exception may
  come from `Updater(token=TOKEN)`, from a `send_message` call or from
  `updater.stop()`;
- whether the confirmation `reply_text` in `country_choice` returned or
  raised;
- the clock reading taken after the messages are sent;
- the country predicate `is_entry_in_selected_country`. `main.py` calls it
  but never defines it, so the model takes it as an uninterpreted function.

The pure transitions also take the message formatter as a parameter
`format`, and their lemmas hold for every formatter. The class methods bind
it to `Formatter.FormatEntryMessage`, so what is proved about the
transitions holds of the bot as written. Keeping the formatter abstract there
keeps the proofs about the cursor and the sends independent of the text's
layout, which `Message` proves on its own.

Observable effects are recorded in order in an event log: the request URL,
each message sent, the line logged for a failed fetch, and each write of the
shared cursor. This makes "the cursor moves only after the messages are
sent" a statement about the log.

Behaviour of the code worth knowing:
- Choosing a country again schedules another repeating job for the same
  user. Nothing checks for a job already running (`Bot.ChooseCountryTwice`).
- The preference is stored before the confirmation reply is sent, and the
  poll job is scheduled after it. A reply that raises therefore leaves the
  new preference in place with no poll job for it (`Bot.ChooseCountryRule`).
- There is no unsubscribe operation.
- The cursor is set to whatever the clock reads after the messages are sent.
  Nothing checks that it moves forward.
- A failed fetch is not retried early. It waits for the job's next run.
- The cursor is written only when a poll runs to its end. A poll that an
  exception cuts short after the status check (an undecodable body, or a
  raising `Updater`, `send_message` or `updater.stop`) leaves the cursor
  where it was. The next poll then asks for the same elements again,
  however it ends. If it gets at least as far through the entries (as it
  does when it runs to its end), it sends again every message that had
  already gone out (`Bot.AbortedPollRepeats`).
- The cursor is shared by all users' jobs. A completed poll for one user
  moves the cursor that the next poll of every other user starts from
  (`Bot.RunTicksCursor`).

## Model

| member | source | states |
|---|---|---|
| `Entries.Get` | main.py:99-111 | `dict.get` with a default: the stored value when the key is present, the default otherwise |
| `Entries.TagsOf` | main.py:110-111 | `entry.get('tags', {})`: the entry's tag dictionary, or an empty one when it has none, so a missing `tags` reads every tag key as absent |
| `Formatter.DialCode` | main.py:101 | the dial code is a prefix of the phone text with no space in it, followed either by a space or by the end of the text; a phone without a space is its own dial code |
| `Formatter.DialCodeUnique` | main.py:101 | those properties single out the dial code: any prefix satisfying them is the dial code |
| `Formatter.Classify` | main.py:104-105 | the label is `Unknown` exactly when the code is not in the table, and otherwise the table's country for the code |
| `Formatter.ClassifyTable` | main.py:104-105 | the closed table: +351 Portugal, +34 Spain, +420 Czech Republic, +44 Great Britain, +353 Ireland, +31 Netherlands, +49 Germany, every other code `Unknown` |
| `Formatter.IsYes` | main.py:108-109 | a flag holds iff the key is present with exactly the text `yes`; an absent key counts as `no` |
| `Formatter.Extract` | main.py:97-115 | name and city are copied verbatim when present and `N/A` when absent; the country classifies the dial code of `phone`, and is `Unknown` when `phone` is missing; each symbol is non-empty iff its raw value is exactly `yes` (an absent key counts as `no`); icon and service come from `tags` and are `N/A` when `tags` or the key is missing |
| `Formatter.ExtractExample` | main.py:97-120 | the Berlin cafe with a +49 number that takes on-chain bitcoin gets country Germany, the currency symbol, no Lightning symbol and `N/A` icon and service |
| `Formatter.Render` | main.py:118 | the f-string, with no contract of its own; its layout is stated by `Message.RenderLines`, `Message.RenderNewlines`, `Message.ParseRender` and `Message.RenderParse` |
| `Formatter.FormatEntryMessage` | main.py:97-120 | `format_entry_message`, total on every entry, with no contract of its own; what its text is, is stated by `Formatter.Extract` and `Message.FormatLayout` |
| `Message.RenderLines` | main.py:118 | with newline-free values the message splits into exactly the seven lines `Name:`, `City:`, `Country:`, `Currency:`, `Lightning:`, `Android Icon:`, `Service:`, in that order, each followed by its value unchanged |
| `Message.RenderNewlines` | main.py:118 | the message holds six newlines of its own plus those inside the values |
| `Message.ParseRender` | main.py:118 | reading back the message of newline-free values gives those values back |
| `Message.RenderParse` | main.py:118 | any text that reads back as a payload is exactly that payload's message, so the layout is unambiguous |
| `Message.FormatLayout` | main.py:97-120 | for any entry whose shown values have no newlines, the formatted message is seven labelled lines with six newlines that read back to the extracted values |
| `Bot.UserCountry` | main.py:50 | the stored country of the user, and none exactly when the user has no preference |
| `Bot.FilterEntries` | main.py:51 | every kept entry satisfies the country predicate, and no more are kept than were fetched |
| `Bot.FilterEntriesIndices` | main.py:51 | the kept entries are the fetched entries at strictly increasing positions, and a position is kept iff its entry satisfies the predicate |
| `Bot.SendEvents` | main.py:90-92 | one message per entry |
| `Bot.SendEventsAt` | main.py:90-92 | the i-th message is the formatted i-th entry, sent to the user's chat, so the messages follow the list order |
| `Bot.SendEventsPrefix` | main.py:90-92 | the messages for the first entries of a list are the first messages for the whole list |
| `Bot.DeliveredCount` | main.py:86-95 | the number of messages that went out: every entry when no call raised, the count reached when a call raised partway, and never more than there are entries |
| `Bot.FetchUrl` | main.py:40 | the request URL, with no contract of its own; its shape is stated by `Bot.FetchUrlShape` |
| `Bot.FetchUrlShape` | main.py:40 | the request asks for elements updated since the cursor, with limit 5000, and carries the cursor text unchanged |
| `Bot.FetchUrlInjective` | main.py:40 | distinct cursors give distinct requests |
| `Bot.PollStep` | main.py:35-60 | every poll, however it ends, first requests the elements updated since the cursor as it stands; preferences and jobs never change and earlier effects are kept |
| `Bot.PollStepRule` | main.py:35-60 | the cursor becomes the clock reading exactly when the fetch answered 200 with a JSON body and every send call returned, and is otherwise unchanged; a fetch that raises or a body that is not JSON adds nothing after the request; any other status adds only the logged failure |
| `Bot.PollStepSends` | main.py:45-57 | on a 200 answer with a JSON body the messages for the kept entries go out in order; when every call returns the cursor write follows the last of them; when a call raises only the messages before it have gone out and there is no cursor write |
| `Bot.AbortedPollRepeats` | main.py:35-57 | after a poll cut short by an exception, the next poll for the same user with the same answer sends the same request however it ends, and its effects begin with everything the cut-short poll did exactly when it gets at least as far through the kept entries, as it does when every call returns |
| `Bot.RunTicks` | main.py:35-60 | across any sequence of polls, preferences and jobs are untouched and earlier effects are kept |
| `Bot.RunTicksCursor` | main.py:35-60 | across any sequence of polls the cursor is the clock reading of the last poll that ran to its end, or its starting value if none did |
| `Bot.ChooseCountry` | main.py:62-82 | the cursor and the effects are never touched, and a text that is not a listed country changes nothing, whether or not its reply raises |
| `Bot.ChooseCountryRule` | main.py:67-79 | the preference is written iff the text is one of the seven countries, and then only this user's entry changes; one repeating job (600 s, first run at once) is appended iff the text is listed and the reply returned; when the reply returns, the state changes iff the text is listed |
| `Bot.ChooseCountryTwice` | main.py:68-76 | choosing twice keeps only the latest preference, and the user gains one more job for each of the two replies that returned |
| `Bot.CountriesMatchTable` | main.py:67 | the seven selectable countries are exactly the countries of the dial code table, and `Unknown` is not one of them |
| `Bot.Bot.constructor` | main.py:11-17 | at start-up there are no preferences and no jobs, and the cursor is the clock reading taken at start |
| `Bot.Bot.SendEntriesToTelegram` | main.py:84-95 | the loop appends exactly the messages of `SendEvents` for the entries that went out before any exception, in order, and reports whether every call returned, which is so exactly when none raised |
| `Bot.Bot.PollApi` | main.py:35-60 | performs `PollStep` with the real formatter: the cursor becomes the clock reading exactly when the poll runs to its end and is otherwise unchanged; preferences and jobs are unchanged |
| `Bot.Bot.CountryChoice` | main.py:62-82 | performs `ChooseCountry`: for a listed country the preference is overwritten, and a job is scheduled only if the reply returned; otherwise preferences and jobs are unchanged; cursor and effects never change |

## Left out

- Telegram transport is not modelled: `Updater`, the dispatcher, `send_message`, the keyboards, `reply_text`, the conversation handler wiring, `start` and the `__main__` block. These are library calls and UI. Messages are recorded as `Sent` events instead. Whether a call raises is an input for `Updater`, `send_message` and `updater.stop` (how the sends ended) and for the confirmation `reply_text` of a listed country (whether it returned). A raising reply to an unlisted text changes no state, so it is not an input.
- The message whose `send_message` call raises is not recorded as sent. Whether Telegram delivered it anyway is not modelled.
- The exception that ends a cut-short poll is not recorded. It goes to the job queue, which is not modelled. The model records only what the poll did before it.
- `start` is not modelled: it sends the keyboard and sets a `waiting_for_country` flag in the conversation's user data, which nothing in `main.py` reads.
- The text and keyboard of the replies sent by `country_choice`, and its `ConversationHandler.END` return value, are not modelled. They are transport only. The exception a raising reply passes to the dispatcher is not recorded.
- The HTTP request and JSON decoding are not modelled. The response is an input (no answer, or a status and a body that decodes to entries or not), and the request is recorded as its URL. A JSON body that is not a list of dictionaries is not modelled.
- Timestamps are opaque text. The two formats (seconds at start-up, milliseconds after a poll) and the clock itself are not modelled. The clock reading is an input.
- The job queue and the concurrency between users' jobs are not modelled. Jobs are recorded as values, and poll runs are modelled as one sequence of steps in some interleaving.
- `is_entry_in_selected_country` is not part of this model. `main.py` never defines it, so in the program as written a successful fetch with at least one entry would fail when the filter calls it. The model takes the predicate as a parameter.
- The failure `print` is recorded as a `FetchFailed` event carrying the status. The message text is not modelled.
- Entry values are modelled as strings and `tags` as a dictionary of strings. JSON values of other types (numbers, `null`, a non-dictionary `tags`), which Python would print with `str()` or fail on, are not modelled.
- The two emoji literals are kept as their exact code points. Only their being distinct and non-empty is used.
