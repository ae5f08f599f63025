# DonutSMP farm calculator bot, modelled in Dafny

The bot answers three kinds of requests on a Discord server, and this
project models the logic behind them:

- **The calculator conversation.** `!calculator` in a channel (or `/calculate`
  in a direct message) starts it. The bot shows a numbered menu of the farm
  catalog's categories followed by a synthetic "bones" entry, then reads one
  answer per step. Each answer comes from the same author in the same channel
  and must arrive within 30 seconds.
  - The bones branch asks for a spawner count (2 bones per spawner per minute)
    and whether to show the hourly figure (60 times as much).
  - A farm branch lists the category's farms. It then asks for a farm id, a
    module count and a sell multiplier, and shows modules x income x
    multiplier. Totals of at least 1 are shown in millions, smaller ones in
    thousands.
  - A bad answer or an expired wait ends the conversation with "Invalid input
    or timeout."; an unknown farm id ends it with "Invalid farm ID.".
- **The farm catalog.** The catalog maps a category to farm ids, and each farm
  id to a farm's name and hourly income. Both levels are insertion-ordered
  dictionaries. `/addfarm` (administrators only) creates a category if it is
  missing and then sets one farm. `/listfarms` shows the whole catalog.
- **`/ping`.** The caller needs the "Mention Everyone" permission. Each user may
  ping at most once per 60 seconds. A ping mentions one of five fixed roles.

Modules:

- `Wrappers`: `Option`.
- `Text`: the string operations the conversation applies to every answer.
  - `strip()`, with Python's white-space set.
  - `lower()`.
  - `int()` and `float()` on decimal text.
  - The rendering of integers, which `int()` inverts.
- `Dict`: Python's insertion-ordered `dict`, as an association list.
  - `Get`, `Keys` and `Put` (assignment).
  - Put's laws: every other key keeps its binding, a new key is appended, and
    assigning a key twice keeps the second value.
- `FarmCatalog`: the catalog.
  - The `/addfarm` upsert `Upsert`, with what it keeps and changes.
  - The class `FarmStore`, whose `AddFarm` method updates the catalog in place.
  - The loops that build farm menus and the `/listfarms` listing.
- `Calculator`: the conversation.
  - A `Phase` datatype.
  - `Transition`, the specification of one step, and `Run`, its fold over a
    sequence of events.
  - The class `CalculatorSession`, whose `Step` method advances one running
    conversation in place. It is proved to agree with `Transition`. Its work
    on an accepted answer is split into one method per phase (`AnswerStep`,
    `ChooseCategoryStep` and the like), each proved to compute the matching
    case of `Transition`; their promises to a caller are those of `Step`.
  - Lemmas about single steps, whole conversations and a changing catalog.
- `Cooldown`: the `/ping` cooldown.
  - `Decide`, the specification of one call.
  - The class `PingCooldowns`, whose `Ping` method updates the `user -> last
    call` map in place.
  - Lemmas about consecutive calls.

The waits are modelled as events: a conversation step receives either a
`Message(author, channel, text)` or a `Timeout`. Each step also receives the
catalog as it stands when the event arrives, because the conversation reads
the live catalog. Timestamps are whole seconds.

The model follows the code where it behaves in ways a reader might not
expect:

- Small totals are shown as `int(total * 1000)`, which truncates toward zero
  rather than rounding.
- The menu labels `"bones"` and dispatches to the bones branch by the
  category's name. A catalog category that is itself named "bones" therefore
  shows and behaves as the bones calculator.
- A user with no cooldown record counts as last seen at time 0, not as "never
  seen". A first call before time 60 would be refused (`Cooldown.FirstCall`).
- A `KeyError` arises only for a category that is gone before the bot binds
  its farms, or a farm that is gone before the bot reads its income. The
  handler does not catch it, so nothing is sent; the model's ending for this is
  `KeyErrorRaised`. No command removes anything from the catalog, so this
  cannot happen: `Calculator.StepKeepsCoherent` and `Calculator.RunNeverRaises`
  prove it.

## Model

| member | source | states |
|---|---|---|
| Text.Strip | donutsmp-farm-calculator/bot.py:59 | `s.strip()` starts and ends with a non-space character and is no longer than `s` |
| Text.StripOfPadded | donutsmp-farm-calculator/bot.py:59 | stripping removes exactly the surrounding white space: a trimmed text padded with any white space on either side strips back to itself |
| Text.StripTrimmed | donutsmp-farm-calculator/bot.py:83 | a text without surrounding white space, such as a farm id typed as it is, strips to itself |
| Text.Lower | donutsmp-farm-calculator/bot.py:71 | `lower()` keeps the length and maps each character on its own, A-Z to a-z |
| Text.LowerEqualsWord | donutsmp-farm-calculator/bot.py:71 | for a word without capitals, `s.lower() == word` holds exactly when `s` spells the word with each letter in either case |
| Text.NatTextValue | donutsmp-farm-calculator/bot.py:59 | the decimal digits of a natural number denote that number |
| Text.IntTextTrimmed | donutsmp-farm-calculator/bot.py:59 | the rendering of an integer has no surrounding white space, so strip leaves it unchanged |
| Text.ParseIntText | donutsmp-farm-calculator/bot.py:67 | round trip: `int(str(n)) == n` for every integer, negative ones included |
| Text.DigitsValueLeadingZero | donutsmp-farm-calculator/bot.py:59 | a leading zero does not change the value of a string of digits |
| Text.ParseIntSpellings | donutsmp-farm-calculator/bot.py:59 | `int()` reads every integer back from its rendering padded with white space (after strip), and a natural number also from its `+`-signed and its zero-led spelling |
| Text.ParseRealOfInt | donutsmp-farm-calculator/bot.py:89 | every text that `int()` accepts, `float()` accepts with the same value |
| Text.ParseRealText | donutsmp-farm-calculator/bot.py:93 | `float(str(n)) == n` for every integer |
| Dict.Keys | donutsmp-farm-calculator/bot.py:47 | `list(d.keys())` has one key per entry, in the entries' order |
| Dict.Get | donutsmp-farm-calculator/bot.py:84 | a lookup finds a value exactly when the key is among the keys |
| Dict.PutSpec | donutsmp-farm-calculator/bot.py:118-120 | after `d[k] = v`: `k` is bound to `v`; every other key keeps its binding; the key order is unchanged for a present key and gains `k` at the end for a new one |
| Dict.PutKeepsDistinct | donutsmp-farm-calculator/bot.py:120 | assignment never creates a second entry for a key |
| Dict.GetAt | donutsmp-farm-calculator/bot.py:78-79 | in a dict without repeated keys, looking up the key of the i-th entry finds that entry's value |
| Dict.PutPut | donutsmp-farm-calculator/bot.py:120 | assigning the same key twice is the same as assigning only the second value |
| FarmCatalog.Upsert | donutsmp-farm-calculator/bot.py:118-120 | afterwards `FARMS[category][fid]` is the new farm; every other category and every other farm of the category is unchanged; a missing category is appended to the category order and a new farm id to its category's order |
| FarmCatalog.UpsertExtends | donutsmp-farm-calculator/bot.py:118-120 | the upsert removes no category and no farm |
| FarmCatalog.UpsertWellFormed | donutsmp-farm-calculator/bot.py:118-120 | the upsert keeps category names unique, and farm ids unique within each category |
| FarmCatalog.UpsertOverwrites | donutsmp-farm-calculator/bot.py:120 | adding the same farm id twice leaves the catalog as if only the second call had happened |
| FarmCatalog.FarmStore.constructor | donutsmp-farm-calculator/bot.py:13 | the store starts with the catalog read at start-up, which has no repeated category or farm id, and keeps that as its invariant |
| FarmCatalog.FarmStore.AddFarm | donutsmp-farm-calculator/bot.py:113-124 | an administrator's call answers "Added" and replaces the catalog by its upsert; anyone else's call answers "must be an admin" and leaves the catalog unchanged; either way no category or farm id repeats afterwards |
| FarmCatalog.FarmLinesListCategory | donutsmp-farm-calculator/bot.py:78-79 | a farm menu has one line per farm, in the category's order, each with that farm's stored name and income |
| FarmCatalog.BuildFarmMenu | donutsmp-farm-calculator/bot.py:76-79 | the loop over `farms.items()` produces the farm menu lines |
| FarmCatalog.ListFarms | donutsmp-farm-calculator/bot.py:126-133 | the nested loop of `/listfarms` produces one section per category in catalog order, each with that category's farm menu |
| Calculator.MenuShape | donutsmp-farm-calculator/bot.py:47-51 | the opening menu has one entry per catalog category plus one; the entries are numbered 1..N+1 in catalog order; the last entry is the bones calculator |
| Calculator.BuildCategoryMenu | donutsmp-farm-calculator/bot.py:49-51 | the `enumerate(..., start=1)` loop produces the numbered, labelled menu |
| Calculator.CalculatorSession.constructor | donutsmp-farm-calculator/bot.py:46-52 | a new conversation snapshots the catalog's categories plus "bones", sends the numbered menu and waits for a category |
| Calculator.CalculatorSession.Step | donutsmp-farm-calculator/bot.py:54-104 | one event moves the conversation to the phase, and sends the replies, that `Transition` prescribes; the transcript grows by exactly those replies |
| Calculator.TruncateTowardZero | donutsmp-farm-calculator/bot.py:100 | `int(x)` is the integer next to x on the side of zero |
| Calculator.FormatIncomeRange | donutsmp-farm-calculator/bot.py:97-100 | the figure is in millions exactly when the total is at least 1, so 1 itself is shown in millions, and then equals the total; otherwise it is the total times 1000 truncated toward zero, between 0 and 999 for a non-negative total |
| Calculator.IncomeExamples | donutsmp-farm-calculator/bot.py:96-100 | 1 module at rate 2 with multiplier 0.4 shows 800 thousand; with 0.6 it shows 1.2 million; a total of exactly 1 shows 1 million |
| Calculator.AffirmativeWords | donutsmp-farm-calculator/bot.py:71 | the hourly question accepts exactly "yes" and "y", in any mix of case |
| Calculator.ChoosingMenuEntry | donutsmp-farm-calculator/bot.py:57-62 | any answer that `int()` reads as the number shown for menu entry i (" 3", "+3", "03" alike) selects that entry: the bones prompt for the bones label, the category's farm menu otherwise |
| Calculator.CategoryAnswerRejected | donutsmp-farm-calculator/bot.py:58-60 | the category answer ends the conversation with the generic error and nothing else exactly when it is not an integer from 1 to N |
| Calculator.MenuNumberAnswered | donutsmp-farm-calculator/bot.py:57-80 | any answer that `int()` reads as k, for 1 <= k <= N, picks the k-th category: the bones prompt, or the farm menu of a category that is in the catalog |
| Calculator.TimeoutRejects | donutsmp-farm-calculator/bot.py:103-104 | an expired wait in any phase that waits ends the conversation with the generic error |
| Calculator.SpawnersAnswered | donutsmp-farm-calculator/bot.py:64-69 | any spawner count that `int()` reads as n gives 2n bones a minute and the hourly question |
| Calculator.SpawnersRejected | donutsmp-farm-calculator/bot.py:67 | a spawner count that `int()` rejects ends the conversation with the generic error |
| Calculator.HourlyAnswered | donutsmp-farm-calculator/bot.py:69-73 | "yes" or "y" in any case shows 60 times the per-minute figure; any other answer ends the conversation with no message |
| Calculator.UnknownFarmIdEnds | donutsmp-farm-calculator/bot.py:82-85 | a farm id that is not exactly a key of the category ends the conversation with "Invalid farm ID." and, whatever follows, no module prompt |
| Calculator.FarmIdAnswered | donutsmp-farm-calculator/bot.py:82-87 | any answer whose stripped text is a farm id of the chosen category leads to the modules question for that farm |
| Calculator.ModulesAnswered | donutsmp-farm-calculator/bot.py:88-91 | a numeric module count leads to the multiplier question |
| Calculator.ModulesRejected | donutsmp-farm-calculator/bot.py:89 | a module count that `float()` rejects ends the conversation with the generic error |
| Calculator.MultiplierAnswered | donutsmp-farm-calculator/bot.py:92-101 | a numeric multiplier shows modules x the farm's current income x multiplier, and ends the conversation |
| Calculator.MultiplierRejected | donutsmp-farm-calculator/bot.py:93 | a multiplier that `float()` rejects ends the conversation with the generic error, before the farm is looked up |
| Calculator.StepRank | donutsmp-farm-calculator/bot.py:57-93 | each consumed event (an accepted answer or an expired wait) strictly lowers the phase's rank |
| Calculator.StepClosing | donutsmp-farm-calculator/bot.py:46-104 | a step sends a closing message (result or error) exactly when it ends the conversation with an announced ending, and then as its last reply, matching the ending |
| Calculator.ClosingCountOne | donutsmp-farm-calculator/bot.py:46-104 | a transcript of at most one message has one closing message exactly when that message closes |
| Calculator.ClosingCountAppend | donutsmp-farm-calculator/bot.py:46-104 | the closing messages of two transcripts add up |
| Calculator.RunAfterEnd | donutsmp-farm-calculator/bot.py:74-104 | a finished conversation ignores every later event and sends nothing more |
| Calculator.RunIgnoresOthers | donutsmp-farm-calculator/bot.py:54-55 | messages from other authors or other channels neither advance nor end the conversation: it behaves as if they had not been sent |
| Calculator.RunFinishes | donutsmp-farm-calculator/bot.py:46-104 | a conversation has ended once it has consumed as many events as its phase's rank, so a fresh one ends after at most four |
| Calculator.RunClosesOnce | donutsmp-farm-calculator/bot.py:46-104 | a whole conversation sends exactly one closing message when it ends with an announced ending and none otherwise, and that message is its last and matches the ending |
| Calculator.RunCons | donutsmp-farm-calculator/bot.py:46-104 | a run over a first event and more is the first step followed by the run of the rest |
| Calculator.RunSingle | donutsmp-farm-calculator/bot.py:46-104 | a run over one event is one step |
| Calculator.BonesAnswers | donutsmp-farm-calculator/bot.py:64-74 | a spawner count that `int()` reads as n, then "yes"/"y", sends 2n bones a minute and 120n an hour; any other hourly answer sends only the per-minute figure |
| Calculator.BonesConversation | donutsmp-farm-calculator/bot.py:57-74 | the whole bones conversation: a menu answer that `int()` reads as the bones entry, a spawner count and the hourly answer send exactly the bones prompt, the per-minute figure and, on "yes"/"y", the hourly figure |
| Calculator.IncomeAnswers | donutsmp-farm-calculator/bot.py:87-101 | numeric modules and multiplier answers send the multiplier prompt and then the income of modules x income x multiplier |
| Calculator.FarmAnswers | donutsmp-farm-calculator/bot.py:82-101 | an answer that strips to a farm id, then numeric modules and multiplier, send the two prompts and the income of that farm |
| Calculator.FarmConversation | donutsmp-farm-calculator/bot.py:57-101 | the whole farm conversation, with any spelling of the menu number and of the farm id that the code accepts, sends exactly the farm menu, the two prompts and modules x income x multiplier |
| Calculator.StartIsCoherent | donutsmp-farm-calculator/bot.py:47 | every non-bones category of a fresh menu is in the catalog |
| Calculator.StepKeepsCoherent | donutsmp-farm-calculator/bot.py:75-95 | however the catalog has grown since the previous step, a step keeps every category and farm that the conversation refers to present, and never raises `KeyError` |
| Calculator.RunNeverRaises | donutsmp-farm-calculator/bot.py:75-95 | with the catalog fixed, a conversation that starts coherent never raises `KeyError` |
| Calculator.StartsCalculatorWords | donutsmp-farm-calculator/bot.py:38-44 | a conversation starts exactly on a non-bot message whose stripped text spells `!calculator` in any case |
| Cooldown.Decide | donutsmp-farm-calculator/bot.py:145-165 | without the permission: refused, nothing changes; otherwise refused with `60 - (now - last)` seconds exactly when `now - last < 60`, nothing changing; else the user's record becomes `now` whatever the role lookup finds, no other user's record changes, and the reply is the role mention or "Role not found." |
| Cooldown.PingCooldowns.Ping | donutsmp-farm-calculator/bot.py:144-165 | the command answers and updates `ping_cooldowns` in place as `Decide` prescribes |
| Cooldown.PingCooldowns.constructor | donutsmp-farm-calculator/bot.py:29 | the cooldown record starts empty, so every user starts as last seen at 0 |
| Cooldown.OfferedKindsFound | donutsmp-farm-calculator/bot.py:137-143 | every kind the command offers has a role id, so "Role not found." never follows an offered choice |
| Cooldown.WaitBounds | donutsmp-farm-calculator/bot.py:153-154 | for whole-second clocks that have not gone back, a refusal says between 1 and 60 seconds remain |
| Cooldown.FirstCall | donutsmp-farm-calculator/bot.py:152-153 | a user without a record counts as last seen at 0: refused before time 60 and accepted from then on |
| Cooldown.SecondCallWithinWindow | donutsmp-farm-calculator/bot.py:150-157 | a second call within 60 seconds of an accepted one is refused with the time left, and does not restart the window |
| Cooldown.CallAfterWindow | donutsmp-farm-calculator/bot.py:150-157 | once 60 seconds have passed since an accepted call, the next call is accepted and restarts the window |
| Cooldown.UsersIndependent | donutsmp-farm-calculator/bot.py:151-157 | a call by one user does not change what another user's call gets |

## Left out

- The Discord transport: the client, intents, command registration, the
  `on_ready` presence, and the DM that `/calculate` opens. `/calculate` runs the
  same conversation with the DM as its channel.
- The asyncio wait with its 30-second timeout. It is an abstract `Timeout`
  event. A `Message` event stands for a message that arrives while a wait is
  pending; one sent while the bot is still sending its previous prompt is never
  read by the conversation, and the model does not represent it.
- Several conversations running at once. Each one sees every message, and the
  model describes one conversation.
- Reading `config.json` at start-up and writing it back in `/addfarm`. These
  are file I/O.
- `/message`, `/raminfo` and `/help`. They are message relay, host queries and
  a static help text.
- The exact wording, emoji and layout of the messages. Replies are datatype
  values that carry the numbers and names shown.
- Float formatting (`:.2f`, `,` grouping, `str()` of a float income). Amounts
  are exact reals; the 2-decimal display is not modelled.
- Floating-point arithmetic. `modules * income * multiplier` is computed on
  exact reals, so binary rounding, overflow, `inf` and `nan` are not modelled.
- Text.ParseInt: models Python's `int()` for an optional sign and ASCII
  digits. It does not accept underscores between digits or non-ASCII digits.
- Text.ParseReal: models Python's `float()` for decimal numerals with an
  optional sign and point. It does not accept exponents, `inf`/`nan`,
  underscores or non-ASCII digits.
- Text.Lower: lower-cases ASCII letters only. Python's full Unicode case
  mapping is not modelled.
- Cooldown.WaitBounds: holds for whole-second clocks only. With the
  fractional `time.time()` the bot can answer "wait 0s", for a call 59.5
  seconds after an accepted one, because it truncates the time left.
- Cooldown.Decide: uses whole-second timestamps. With these, `int(60 - (now -
  last))` needs no truncation; `time.time()`'s fractional seconds are not
  modelled.
- The owner id constant and the bot token. Nothing in the modelled code uses
  them.
- The local binding `farms = FARMS[selected_cat]` (bot.py:76). The model looks
  the chosen category up in the catalog again at each later step. The two agree
  on every reachable state, because `/addfarm` never removes or replaces a
  category's dictionary, so the bound dictionary is the catalog's own and sees
  its updates.
