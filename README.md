# Score-band alert gate of nautilus_channels

This project models the one piece of decision logic in the `nautilus_channels`
repository: the score alert gate of the `TelegramNotifications` actor in
`nautilus_channels/telegram.py`. For each new trading score the gate decides
whether a Telegram alert goes out:

1. **Band lookup** (`_get_trade_band`). The score picks the positive band list
   when it is strictly positive, and the negative list otherwise. The result is
   the first `(index, band)` whose `edge` is at least the score. When no edge
   qualifies, the result is the overflow pair `(len(bands), None)`.
2. **Change detection** (`_is_notification_needed`). The model dictionary's
   `prev_band_no` entry is overwritten with the new index on every call. The
   answer is "notify" when the entry was unset or held a different index.
3. **The gate** (`send_score`). It stops when there is no primary score: the
   model names no score column, or the first column's value is `None`.
   It stops when the band is the overflow `None`, before change detection runs.
   It stops when the band did not change. Otherwise it formats one message and
   sends it.
4. **Formatting** (`_format_score_message`). The message holds the band sign,
   a symbol glyph (`₿` for BTCUSDT, `Ξ` for ETHUSDT, the raw symbol otherwise),
   the truncated close price with comma thousands separators, the score as
   `:+.2f`, and the band text. It is wrapped in `*` when the band is bold.

Modules:
- `Wrappers` (wrappers.dfy) defines `Option`.
- `Bands` (bands.dfy) holds the band datatypes and the lookup.
- `Formatting` (formatting.dfy) holds Python's `int()`, `:,` and `:+.2f`
  renderings, the glyph table and the message.
- `Notifications` (notifications.dfy) holds the gate. `ScoreModel` is a class
  whose `prevBandNo` field stands for the dictionary entry the gate writes.
  `SendScore` is the imperative gate. `ScoreStep` is the function it is proved
  against. `Run` chains evaluations for the lemmas about several calls.

Modelling choices:
- Scores, prices and edges are exact `real`s, standing for the exact values of
  the floats. `int(close_price)` is truncation toward zero. The score's `:+.2f`
  is rounding half to even of the exact value at the second decimal. That is
  what Python's correctly rounded float formatting does. The sign is `-`
  exactly for a negative score, including one that rounds to `0.00`.
- The close price and the row's values of the model's score columns are
  parameters (`ScoreEvent`). Each value is an `Option<real>`, so a `None` cell
  is expressible. The message to send is returned as a `Notify`
  decision instead of being sent.
- `not band` in `send_score` is true only for the overflow `None`. A band that
  matched had its `"edge"` key read, so its dictionary is not empty and is truthy.
- Behaviours of the code worth knowing:
  - Overflow scores never notify, because `send_score` returns before change
    detection. So an empty band list never notifies, not even on the first
    call (`EmptyPositiveBandsNeverNotify`).
  - A score of exactly 0 uses the negative list (`ZeroUsesNegativeBands`).
  - Both lists share one `prev_band_no`, so moving from positive band 0 to
    negative band 0 raises no alert (`SignFlipToSameIndexIsSilent`).
  - Band lists are not checked for sorting. The lookup is first-match on any
    list; `SortedBandBounds` states what sorting adds.

## Model

| member | source | states |
|---|---|---|
| `Bands.SelectBands` | nautilus_channels/telegram.py:157 | the positive list is used exactly when the score is > 0, the negative list otherwise |
| `Bands.FirstBandFrom` | nautilus_channels/telegram.py:158 | the scan from position i returns the first index at or after i whose edge is at least the score, paired with that band; every band it passes has edge < score; with no match it returns (length, None) |
| `Bands.GetTradeBand` | nautilus_channels/telegram.py:155-158 | on the list chosen by the sign: index within 0..len, every earlier edge below the score, the score at most the returned band's edge, and band None exactly at the overflow index len |
| `Bands.ZeroUsesNegativeBands` | nautilus_channels/telegram.py:157 | a score of exactly 0 is looked up in the negative list |
| `Bands.FirstBandIsLeast` | nautilus_channels/telegram.py:158 | any band whose edge is at least the score lies at or after the returned index, and then the result is not the overflow |
| `Bands.BandIndexMonotone` | nautilus_channels/telegram.py:157-158 | for two scores of the same sign, the larger never gets a smaller band index, sorted list or not |
| `Bands.SortedBandBounds` | nautilus_channels/telegram.py:158 | on a sorted list the previous band's edge is below the score, and every edge from the returned index on is at least the score |
| `Bands.EmptyListOverflows` | nautilus_channels/telegram.py:157-158 | an empty (or missing) list gives the overflow pair (0, None) |
| `Formatting.Truncate` | nautilus_channels/telegram.py:169 | `int(close_price)` is the integer between 0 and the price that is less than 1 away from it |
| `Formatting.NatToString` | nautilus_channels/telegram.py:169 | the price digits are at least one decimal digit, with no leading zero |
| `Formatting.ParseNatToString` | nautilus_channels/telegram.py:169 | reading the digits back gives the number |
| `Formatting.Group` | nautilus_channels/telegram.py:169 | grouping never shortens the digits and keeps the leading digit first; the three lemmas below pin it |
| `Formatting.RemoveCommasOfGroup` | nautilus_channels/telegram.py:169 | removing the thousands separators gives the digits back |
| `Formatting.GroupLength` | nautilus_channels/telegram.py:169 | grouping adds one comma per full group of three below the leading group |
| `Formatting.GroupCommaPositions` | nautilus_channels/telegram.py:169 | commas stand exactly at the positions a positive multiple of four from the end, so every group after the first has three digits |
| `Formatting.GroupThousands` | nautilus_channels/telegram.py:169 | the `:,` rendering is non-empty and starts with `-` exactly for a negative number |
| `Formatting.GroupThousandsRoundTrip` | nautilus_channels/telegram.py:169 | the `:,` rendering reads back as the same integer |
| `Formatting.RoundHalfEven` | nautilus_channels/telegram.py:169 | the rounded value is within 1/2 of the input and even at a tie |
| `Formatting.FormatSigned2` | nautilus_channels/telegram.py:169 | the `:+.2f` rendering has at least five characters, starts with `-` for a negative score and `+` otherwise, and has the point third from the end |
| `Formatting.FormatSigned2Value` | nautilus_channels/telegram.py:169 | the `:+.2f` rendering starts with `-` exactly for a negative score and `+` otherwise, has a point before two final digits, and reads back within 0.005 of the score's magnitude |
| `Formatting.SymbolChar` | nautilus_channels/telegram.py:168 | BTCUSDT shows as ₿, ETHUSDT as Ξ, every other symbol as itself |
| `Formatting.JoinFields` | nautilus_channels/telegram.py:169 | the f-string's fields stand in order sign, space, glyph, space, price, ` Score: `, score, space, text, at the offsets their lengths fix |
| `Formatting.ScoreLine` | nautilus_channels/telegram.py:169 | the unwrapped line holds the band sign, the symbol glyph, the `:,` truncated price, ` Score: `, the `:+.2f` score and the band text, each at its own offset |
| `Formatting.FormatScoreMessage` | nautilus_channels/telegram.py:166-170 | the message is the score line wrapped in `*` on both sides when the band is bold, and the bare score line when it is not |
| `Formatting.BitcoinBreakoutMessage` | nautilus_channels/telegram.py:166-170 | price 65000.4, score 1.2345, bold band "↑"/"breakout", BTCUSDT give `*↑ ₿ 65,000 Score: +1.23 breakout*` |
| `Notifications.PrimaryScore` | nautilus_channels/telegram.py:140-142 | the primary score is absent exactly when there is no score column or the first column's value is `None`, and else is that value |
| `Notifications.NotificationNeeded` | nautilus_channels/telegram.py:164 | notify exactly when the previous index is not the new index (unset counts as different) |
| `Notifications.ScoreModel.IsNotificationNeeded` | nautilus_channels/telegram.py:160-164 | after the call `prev_band_no` is the new index whatever the answer; the answer is whether the old value differed; the band lists are untouched |
| `Notifications.ScoreStep` | nautilus_channels/telegram.py:136-153 | stops with NoScore exactly when there is no score column or the first value is `None`, and with OverflowBand exactly for the overflow band, leaving `prev_band_no` as it was in both cases; a real band is recorded; a message is produced exactly when the band is real and differs from the recorded one, and it is the formatted message for that band |
| `Notifications.SendScore` | nautilus_channels/telegram.py:136-153 | the early-return sequence yields the decision and the new `prev_band_no` of ScoreStep on the old state; the band lists are unchanged; at most one message per call |
| `Notifications.FirstBandNotifies` | nautilus_channels/telegram.py:162-164 | the first evaluation that finds a real band notifies |
| `Notifications.SameBandTwiceIsSilent` | nautilus_channels/telegram.py:145-164 | two consecutive evaluations in the same real band: the second is silent |
| `Notifications.SkippedEventLeavesNoTrace` | nautilus_channels/telegram.py:140-147 | an event without a score or with an overflow score leaves the next evaluation's outcome exactly as if it had not happened |
| `Notifications.EmptyPositiveBandsNeverNotify` | nautilus_channels/telegram.py:145-158 | with no positive bands, any series of positive scores only overflows, never notifies and leaves `prev_band_no` unchanged |
| `Notifications.ScoreModel.constructor` | nautilus_channels/telegram.py:162 | a fresh model holds the given band lists and no recorded band, which `model.get("prev_band_no")` reads as `None` |
| `Notifications.Run` | nautilus_channels/telegram.py:136-153 | repeated `send_score` calls on one model give one decision per event, the state threaded from each call to the next |
| `Notifications.RunStepAt` | nautilus_channels/telegram.py:136-153 | the k-th decision of a series is the decision of one evaluation from the band recorded by the first k events |
| `Notifications.RunNotifiesExactlyOnChange` | nautilus_channels/telegram.py:141-153 | in any series, the k-th event alerts exactly when it has a primary score, its band is real, and that band differs from the one recorded before it |
| `Notifications.ThreeBandScenario` | nautilus_channels/telegram.py:145-164 | edges 1, 2, 3 and scores 0.5, 1.5, 1.8, 2.5 notify for bands 0 and 1, stay silent at 1.8, notify for band 2, and leave 2 recorded |
| `Notifications.SignFlipToSameIndexIsSilent` | nautilus_channels/telegram.py:157-164 | moving from positive band 0 to negative band 0 raises no alert, because both lists share one recorded index |

## Left out

- `TelegramChannel` and its bot wiring are not modelled: bot and dispatcher setup, the `/start` and echo handlers, `send_message`, `run` and `run_background` (telegram.py:30-87). They are network I/O and concurrency.
- `_send_telegram_message` and the actual send (telegram.py:130-133, 153) are network I/O. `SendScore` returns the message instead.
- nautilus_channels/channel.py is an abstract base class with no-op hooks that only log, so it has no logic to verify.
- `__init__` and `on_start` (telegram.py:104-128) are not modelled. They do non-empty checks on configuration, framework cache lookup, subscription and logging.
- `send_diagram` and `_prepare_chart_data` (telegram.py:172-187) are not modelled. They are chart rendering through pandas and matplotlib, plus a photo upload.
- `send_transaction_message` (telegram.py:189-195) is not modelled. It calls a function the repository does not define.
- The `@handle_exceptions` decorator and the dataframe row access (`iloc[-1]`, `row[...]`) are not modelled. Their behaviour is not defined in the repository. The close price and the score-column values are inputs instead, so a column missing from the row or an empty frame is not modelled.
- Notifications.PrimaryScore and Notifications.ScoreStep: a score cell is either `None` or a real; other Python values in a cell (strings, NaN) are not modelled.
- Float behaviour is not modelled: NaN, infinities, negative zero (which Python renders as `-0.00`) and IEEE rounding of arithmetic. Values are exact reals.
- A band dictionary without an `"edge"` key is not modelled (Python raises a `TypeError` on the comparison). A present `sign` or `text` key whose value is not a string is not modelled either.
- The unused `band` argument of `_is_notification_needed` is dropped from `ScoreModel.IsNotificationNeeded`.
- Other keys of the model dictionary (`score_column_names`, chart settings) are not fields of `ScoreModel`. The gate never writes them.
