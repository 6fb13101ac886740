# Terminal adventure game engine — Dafny model

This project models the `Game` class of a console adventure game. A player walks a
nested map of locations. Each location's content is a list of monsters (strings such as
`Rat_exp10_tm50`) and doors (objects whose first key names the destination). Attacking a
monster adds its `exp` reward to the experience and its `tm` cost to the elapsed time.
Going through a door adds the destination's `tm` cost and replaces the current content
with the door's nested content. The game ends in these cases:

- the time budget `1234567890.0987654321` is spent;
- the player is in a dead end;
- the player quits or types an unknown choice;
- the first passage leads to a `Hatch` location, which decides the game on 280 experience.

Modules:

- `Tokens` (tokens.dfy): the text work. It covers the `exp(\d+)` and `tm(\d.+)` searches
  as explicit leftmost, greedy scans. It also reads the captured text as an exact decimal
  (`real`), and models the `in` substring test and `isalpha`/`isdigit`.
- `Locations` (locations.dfy): the `Entry` datatype for a location's content, and the
  classification `MobsOf`/`PassagesOf` that `create_location` performs.
- `Rules` (rules.dfy): one pass of the `user_input` loop as a function on a `Snapshot` of
  the game's fields (`AttackResult`, `MoveResult`, `EnterResult`, `TurnResult`), a script
  of turns (`Play`), and the lemmas about them.
- `Engine` (engine.dfy): `class Game` with the source's fields, updated in place.
  `Attack`, `Move`, `Enter`, `Turn` and `UserInput` are proved to leave the fields equal
  to the `Rules` function of the old fields. The constructor, `ReadMap`, `CreateLocation`
  and `WriteResult` state their effect on each field directly.

In these places the model follows the code, whose behaviour may surprise a reader:

- The logged row carries `location_name[0]` after the destination is appended and the
  front dropped. With the usual one-name queue, that is the destination, not the location
  just left.
- Selection `0` is accepted and acts on the last monster or passage, because Python's
  index `-1` wraps. It is not rejected.
- A one-digit cost such as `Rat_exp10_tm5` is not read, because `tm(\d.+)` needs two
  characters. The program then fails after adding the reward, so the model ends the turn
  as `Crashed`.
- Content values that are neither strings nor objects are skipped by the classifier, but
  they still take a position. They are not a loading error.
- A parsed cost may be zero, so elapsed time never decreases but need not strictly grow.
- The status display at the start of each turn reads `location_name[0]`. On an empty name
  queue it raises IndexError, so such a turn ends as `Crashed` before the choice is read.

## Model

| member | source | states |
|---|---|---|
| Tokens.AlphaAndDigitsExclusive | game_engine.py:172-173 | no string is both `isalpha` and `isdigit`, so the guard at line 172 holds for every choice |
| Tokens.DigitsRoundTrip | game_engine.py:127-131 | `int()` of a digit string inverts the decimal spelling of a natural number |
| Tokens.ReadDecimal | game_engine.py:133-135 | `Decimal` of a digits[.digits] text is exact and never negative; other texts are refused |
| Tokens.ReadDecimalShape | game_engine.py:133-135 | a text that reads starts with a digit and holds only digits and at most one point |
| Tokens.ReadDigits | game_engine.py:133 | every digit string reads exactly as its value, leading zeros included |
| Tokens.ReadNatSpelling | game_engine.py:133 | the spelling of a whole number reads back as that number |
| Tokens.ReadDigitsFraction | game_engine.py:135 | `w.f` reads exactly as w plus f / 10^len(f) for any digit strings w (non-empty, leading zeros allowed) and f |
| Tokens.FractionBelowOne | game_engine.py:135 | the fractional part of a read decimal lies in [0, 1) |
| Tokens.Search | game_engine.py:132 | `re.search` finds the leftmost position where the pattern matches, and None only when none does |
| Tokens.Group | game_engine.py:132-134 | `re.search(...)[1]` exists exactly when the pattern matches at some position |
| Tokens.ExpGroupSpec | game_engine.py:27 | the `exp` group comes from the leftmost match and is the maximal non-empty digit run after `exp` |
| Tokens.TmGroupSpec | game_engine.py:28 | the `tm` group starts at the digit after the leftmost matching `tm`, runs to the end of the line and has at least two characters |
| Tokens.ExpValue | game_engine.py:132-133 | the reward exists exactly when `exp(\d+)` matches, and is then the value of the group's digits |
| Tokens.TmValue | game_engine.py:134-135 | a cost exists exactly when `tm(\d.+)` matches and its group (at least two characters) is a decimal, and is never negative |
| Tokens.TmCostReads | game_engine.py:134-135 | the cost of an entry whose `tm` group is digits w or w.f is exactly w plus f / 10^len(f) |
| Tokens.OneDigitCostUnread | game_engine.py:132-135 | `Rat_exp10_tm5` gives reward 10 and no readable time cost |
| Tokens.HasInfixIff | game_engine.py:153 | `'Hatch' in name` holds exactly when the marker occurs at some position |
| Locations.PassagesAreDoors | game_engine.py:77-81 | every (position, key) listed is a door of the content carrying that first key |
| Locations.DoorsAreListed | game_engine.py:77-81 | every door of the content is listed with its position and first key |
| Locations.PassagesInEntryOrder | game_engine.py:77-81 | passages are listed in strictly increasing position, so in entry order and each once |
| Locations.MobsAreMonsters | game_engine.py:77-79 | a name is listed as a monster exactly when it is a string entry of the content |
| Locations.MobsOfConcat | game_engine.py:77-79 | monsters are listed in entry order: classifying a concatenation lists the parts' monsters one after the other |
| Locations.ClassifiedCount | game_engine.py:77-81 | each entry lands in at most one list, and in exactly one when no entry is of another JSON type |
| Rules.BudgetReadsExactly | game_engine.py:10 | `Decimal(REMAINING_TIME)` is exactly 1234567890.0987654321 |
| Rules.Pick | game_engine.py:131 | `list[k - 1]` takes index (k - 1) mod n, so selection 0 takes the last element |
| Rules.AttackResult | game_engine.py:116-135 | an attack changes at most experience and time, never lowers them, ends only by a crash, and changes nothing when refused |
| Rules.MoveResult | game_engine.py:136-169 | a move keeps experience, never lowers time, and changes nothing unless a passage is entered or the program fails |
| Rules.EnterResult | game_engine.py:161-169 | entering a door classifies its content afresh and keeps the name queue's length; it fails exactly when the name queue is empty |
| Rules.TurnResult | game_engine.py:104-110 | each turn records remaining time as the budget minus the elapsed time, and ends on TimeUp exactly when that is not positive |
| Rules.Play | game_engine.py:104-173 | the loop stops only on an ending outcome, which it reports; when nothing is reported the first turn did not end the loop; an empty script changes nothing |
| Rules.SpentBudgetEndsEveryTurn | game_engine.py:105-110 | a turn ends on TimeUp exactly when remaining time is not positive, and then changes nothing else |
| Rules.NamelessTurnCrashes | game_engine.py:89-108 | with time left, a turn on an empty name queue fails in the status display and changes nothing else; only that and the two actions can fail |
| Rules.QuitEnds | game_engine.py:170-171 | with time left, choice 3 ends the loop as Quit with only the remaining time recorded (or fails first on an empty name queue) |
| Rules.OtherChoicesEnd | game_engine.py:170-173 | any choice other than 1, 2 or 3 ends the loop with nothing changed (or fails first on an empty name queue) |
| Rules.RejectedExactly | game_engine.py:124-152 | with a non-empty list, a selection is rejected exactly when it is alphabetic or above the list's length, and a rejection changes nothing |
| Rules.ZeroAttacksLast | game_engine.py:127-131 | attacking with selection 0 is attacking the last monster |
| Rules.ZeroMovesLast | game_engine.py:150-159 | moving with selection 0 is moving through the last passage |
| Rules.AttackGains | game_engine.py:130-135 | an accepted attack adds exactly the monster's reward and cost and keeps all lists; with no reward it fails with nothing changed, and with a reward but no cost it fails after adding the reward |
| Rules.AttackRepeats | game_engine.py:121-135 | the monster is not consumed: the same attack works again with the same gains |
| Rules.EmptyLists | game_engine.py:116-142 | attack with no monsters and move with no passages but monsters change nothing; a dead end is exactly no passages and no monsters |
| Rules.WinCheckUsesFirstPassage | game_engine.py:153-157 | when the first passage's key contains Hatch, every accepted selection is Won exactly when experience is at least 280, and changes nothing |
| Rules.MoveEnters | game_engine.py:158-169 | an ordinary accepted move adds the destination's cost, takes the door's content, reclassifies it, appends the destination to the name queue and drops its front, logs one row with the new front name, and changes nothing else; an unreadable cost changes nothing, and an empty name queue fails after the update |
| Rules.TurnKeepsConsistent | game_engine.py:159-169 | every turn keeps each passage record pointing at a door and leaves the row being built empty |
| Rules.TurnKeepsClassified | game_engine.py:165-167 | every turn keeps the monster and passage lists equal to the classification of the current content |
| Rules.TurnTimeGrows | game_engine.py:133-161 | no turn decreases elapsed time or experience |
| Rules.PlayMonotone | game_engine.py:104-173 | over any script of turns, consistency and classification persist, and time and experience never decrease |
| Rules.SpentBudgetEndsPlay | game_engine.py:104-110 | with the budget spent, the loop ends at its first turn on TimeUp |
| Engine.Game.constructor | game_engine.py:22-37 | a new game has no experience, no elapsed time, no content, names, lists or rows |
| Engine.Game.ReadMap | game_engine.py:45-48 | appends the root location's content and all top-level keys, or fails as KeyError with nothing appended |
| Engine.Game.CreateLocation | game_engine.py:71-81 | appends exactly `MobsOf` and `PassagesOf` of the current content to the existing lists and changes nothing else |
| Engine.Game.WriteResult | game_engine.py:66-69 | extends the row with the front name, the experience and the date, then logs it; fails as IndexError on an empty name queue |
| Engine.Game.Attack | game_engine.py:116-135 | leaves the fields and outcome equal to `AttackResult` of the old fields |
| Engine.Game.Move | game_engine.py:136-160 | leaves the fields and outcome equal to `MoveResult` of the old fields |
| Engine.Game.Enter | game_engine.py:161-169 | leaves the fields and outcome equal to `EnterResult` of the old fields |
| Engine.Keys | game_engine.py:48 | the names appended are the map's top-level keys, in file order |
| Engine.Lookup | game_engine.py:47 | `map[key]` exists exactly when the key is a top-level key, and is the content stored under it |
| Engine.Game.Turn | game_engine.py:104-173 | leaves the fields and outcome equal to `TurnResult` of the old fields |
| Engine.Game.UserInput | game_engine.py:104-173 | runs turns until one ends the loop or the script runs out, and leaves the fields and result equal to `Play` of the old fields |

## Left out

- File I/O in `read_map`, `create_file` and `write_result_in_file` (game_engine.py:39-69). JSON decoding and CSV writing are library calls. The decoded map is a parameter of `ReadMap`; the result file is the `log` field. The CSV header row is not modelled, and neither are the `map`, `writer` and `field_names` fields.
- JSON shapes the `Entry` datatype cannot hold: an object with no keys (Python raises IndexError in `create_location`), and a door whose value is not a list. Only the first key of an object is kept, as the code uses only that one.
- `datetime.datetime.now()` in the result row: it is wall-clock time, so it appears as the placeholder `DateField`.
- The output of the `print` method and the messages (game_engine.py:83-96 and the `print` calls), with its floating-point `timedelta` conversion. The one effect of `print` on the game is modelled: its `location_name[0]` raises IndexError on an empty name queue, and the turn ends as `Crashed`.
- `input()` and the restart loop of `run` (game_engine.py:175-195). The player's inputs are method arguments, and a script of them drives `UserInput`. Note that `run` stops only when remaining time is `< 0` (line 186), while the turn loop stops at `<= 0`.
- Rules.Selection: only selections made of letters alone or digits alone are modelled; every other selection is excluded by precondition. Some of the excluded inputs are accepted by the code as numbers, because `int()` ignores surrounding blanks and takes a sign or underscores (`' 3'`, `'+3'`, `'1_0'`); `'-5'` gives a negative index, and `'1a'` or the empty string make `int()` raise.
- Non-ASCII characters: `isalpha`, `isdigit` and `\d` are modelled on ASCII letters and digits only.
- Tokens.ReadDecimal: reads digits, optionally followed by a point and more digits. Python's `Decimal` also accepts exponents, underscores and surrounding blanks, which only a `tm` group such as `12 ` could contain; the model treats those as unreadable.
- Python `Decimal`'s 28-significant-digit rounding context: experience and time are exact `real`s. This assumes the values stay well within that precision; the budget has 20 digits.
- An exception ends the program. For the exceptions the model covers (an unreadable reward or cost, an empty name queue in the status display or in the logged row), it returns the outcome `Crashed` with the fields as the code left them. It does not model the traceback, nor the exceptions of the inputs excluded above.
