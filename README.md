# TourneyBot — a verified model of team partitioning and the reroll/confirm session

TourneyBot is a Discord bot. Mentioned with "create" by a member in a voice
channel, it takes the user names of the channel's members. It splits them
into four teams (8, 10 or 12 players only) and posts the teams with a 🔁 and
a ✅ reaction. The member who asked may reroll the teams with 🔁 or confirm
them with ✅; confirming posts "team vs team" matchups. An admin-only `setup`
command renames a member to `First "username" L`, cutting the user name
so as to stay within Discord's 32-character nickname limit (see Findings
for the inputs where the code does not).

This project models that core in Dafny:

- `wrappers.dfy`: `Option` and `Result`.
- `strings.dfy`: the Python string operations the bot relies on, with their
  round trips:
  - `sep.join`;
  - `str.split(c)` and `str.split()` on Python's whitespace;
  - ASCII `lower()`;
  - `str(n)`.
- `tournament.py` becomes module `Tournament`.
  - `random.shuffle` is CPython's Fisher–Yates shuffle. It runs in place
    on an array. The caller supplies its draws (`draws[i] <= i`, the index
    swapped with position i). Drawing `i` everywhere is the identity shuffle
    the tests patch in.
  - `teamCreator` is a method. It shuffles the caller's array and then
    groups it with the pure `Partition`. `InvalidTournamentException`
    becomes `Err(TooFewPlayers)` or `Err(UnsupportedSize)`, with the
    source's messages.
  - `tournamentGenerator` shuffles the caller's team array and pairs
    neighbours into lines.
- The setup command's decisions become module `Nickname`: the "already set
  up" predicate, the nickname budget and the role removal.
- `DudeBot` becomes class `TourneyBot.DudeBot`.
  - Its fields are `current_team_message`, `teams`, `tournament_creator`,
    `players` and the bot's own id.
  - `players` and `teams` are arrays because the source shuffles those
    lists in place.
  - A Discord message is its id and channel. The id of a message the bot
    sends is an input.
  - Every Discord call the bot makes (send, delete, add or remove a
    reaction) is appended to `outbox` in order.
- `workflow.dfy` replays the end-to-end test of `tests/testTourneyBot.py`
  for any 8-name roster, using only the handlers' contracts.

Behaviours of the code the model keeps:

- With an odd number of teams, `tournamentGenerator` reads past the end of
  the list and raises `IndexError`; it does not drop the last team.
  `TournamentGenerator` therefore requires an even count. The bot always
  holds an even number of teams when a ✅ can be accepted (`DudeBot.Valid`):
  four after every successful create or reroll, and none at all when
  the client has not partitioned yet. With none, the ✅ posts an empty code
  block (`Workflow.ReactionHandling`).
- "create" has no "already pending" check. A successful create overwrites
  the pending announcement, the teams and the creator.
- A failed create is not free of side effects. `players` is already
  replaced by the new names, so a later 🔁 on the still-pending
  announcement deletes it and then raises (`Workflow.FailedCreateThenReroll`).
- ✅ clears only the pending announcement. It keeps `teams`, `players` and
  `tournament_creator`, and it shuffles `teams` in place.

## Model

| member | source | states |
|---|---|---|
| `Strings.JoinWith` | src/tourneyBot.py:184-189 | `sep.join(parts)`; no contract of its own: `SplitOnJoinWith` and `Tournament.MatchupsLines` state what the joined text holds |
| `Strings.SplitWords` | src/tourneyBot.py:220 | every piece of `content.split()` is a non-empty run without whitespace, and there are no pieces exactly when the text is all whitespace |
| `Strings.SplitWordsSkipsSpace` | src/tourneyBot.py:220 | leading whitespace does not change `split()` |
| `Strings.SplitWordsInterleave` | src/tourneyBot.py:220 | words with any whitespace around them and non-empty whitespace between them split back into exactly those words |
| `Strings.SplitWordsDecomposes` | src/tourneyBot.py:220 | conversely, every text is its `split()` words with such whitespace gaps around and between them |
| `Strings.Lower` | src/tourneyBot.py:224 | `lower()` keeps the length (ASCII letters only, see Left out) |
| `Strings.DecimalString` | src/tourneyBot.py:186 | `str(n)` is non-empty, all digits, without a leading zero |
| `Strings.SplitOnJoinWith` | src/tourneyBot.py:184-189 | a newline-joined text splits back into its lines when no line holds a newline |
| `Strings.ParseDecimalString` | src/tourneyBot.py:186 | the team number `str(i + 1)` reads back as i + 1 |
| `Tournament.Shuffle` | src/tournament.py:25 | the in-place Fisher–Yates shuffle leaves the array equal to `Shuffled` of its old contents |
| `Tournament.ShuffledIsPermutation` | src/tournament.py:25 | the shuffle keeps the length and the multiset of the list |
| `Tournament.IdentityShuffle` | tests/testTournament.py:6 | drawing every position itself leaves the list unchanged |
| `Tournament.Partition` | src/tournament.py:22-36 | the grouping of the already shuffled list; no contract of its own: `PartitionOutcome`, `PartitionShape` and `PartitionTeamAt` state its outcome, team sizes and teams |
| `Tournament.PartitionOutcome` | src/tournament.py:22-36 | success exactly for 8, 10 or 12 players; "too few" exactly below 8; "not supported" exactly for the other sizes |
| `Tournament.PartitionShape` | src/tournament.py:27-34 | always four teams; sizes 2,2,2,2 / 3,3,2,2 / 3,3,3,3; the teams laid end to end give the shuffled list |
| `Tournament.PartitionTeamAt` | src/tournament.py:27-34 | team k is the k-th consecutive pair (8), the k-th triple (12), triples from 0-5 then pairs from 6-9 (10) |
| `Tournament.TeamCreatorKeepsEveryPlayer` | src/tournament.py:25-34 | on success every input player occurs in the teams exactly as often as in the input; the list keeps its multiset either way |
| `Tournament.TeamCreator` | src/tournament.py:8-36 | below 8 the list is untouched, otherwise shuffled in place; the result is the partition of the list as it is afterwards |
| `Tournament.MatchupLines` | src/tournament.py:52 | one line per pair of neighbouring teams |
| `Tournament.Matchups` | src/tournament.py:52 | the matchup lines joined by newlines; `MatchupLineAt` and `MatchupsLines` state each line |
| `Tournament.MatchupLineAt` | src/tournament.py:52 | line k of the matchups is team 2k's names, " vs ", team 2k+1's names |
| `Tournament.MatchupsLines` | src/tournament.py:52 | the matchup text has one line per pair of teams, line k reading "team 2k vs team 2k+1" |
| `Tournament.TournamentGenerator` | src/tournament.py:39-52 | shuffles the team list in place and returns the matchups of the shuffled list |
| `Nickname.SliceTo` | src/tourneyBot.py:98 | Python's `s[:stop]`: a prefix, of length `min(stop, len)` or, for a negative stop, `max(0, len + stop)` |
| `Nickname.TruncatedAsWritten` | src/tourneyBot.py:96-100 | as the code is written: a name that fits is kept; one that does not becomes a prefix plus "...", the prefix `available_space - 3` long or, when that stop is negative, `max(0, len(name) + available_space - 3)` long |
| `Nickname.NicknameAsWritten` | src/tourneyBot.py:93-110 | the nickname as the code builds it from `TruncatedAsWritten`; `NicknameFitsWithRoom` and `NicknameAsWrittenOverflows` state where it agrees with the corrected one and where it overflows |
| `Nickname.Truncated` | src/tourneyBot.py:96-100 | corrected form (see Findings): a name that fits is kept; one that does not becomes a prefix plus "..." of length `max(3, available_space)`, the slice stop clamped at 0 |
| `Nickname.SetupNickname` | src/tourneyBot.py:87-110 | the nickname from the corrected truncation; `NicknameShape` and `SetupNicknameWithinLimit` state its form and its length bound |
| `Nickname.NicknameFitsWithRoom` | src/tourneyBot.py:93-110 | with `available_space >= 3` the nickname is `first "t" last` of at most 31 characters, the fallback never fires, and the source's truncation agrees with the clamped one |
| `Nickname.NicknameShape` | src/tourneyBot.py:87-110 | the nickname is `first "t" last` or `f. "t" last`, where t is the user name, or a prefix of it plus "..." when it does not fit |
| `Nickname.SetupNicknameWithinLimit` | src/tourneyBot.py:105-110 | the nickname never exceeds 32 characters when the last initial has at most 23 |
| `Nickname.NicknameAsWrittenOverflows` | src/tourneyBot.py:97-110 | for a 28-character first name and a 32-character user name the source's nickname has 37 characters |
| `Nickname.IsAlreadySetUp` | src/tourneyBot.py:73-77 | no setup role (a missing role counts as absent) and a nick other than the user name |
| `Nickname.Setup` | src/tourneyBot.py:62-128 | the command's decision: outside a server, already set up, or renamed with the setup role removed when held; `SetupDecision` states it. The rename uses the corrected truncation `SetupNickname`, not the code's (see Left out and Findings) |
| `Nickname.SetupDecision` | src/tourneyBot.py:72-84 | in a server, "already set up" (no setup role, a nick other than the name) gives no rename; any other member is renamed and loses the setup role exactly when holding it |
| `Nickname.SetupMatchesCodeWithRoom` | src/tourneyBot.py:87-117 | whenever at least 3 characters are left for the user name, the rename is exactly the nickname lines 93-110 build |
| `Nickname.SetupIgnoresNick` | src/tourneyBot.py:87 | the new nickname depends on the user name, not on the current nick |
| `TourneyBot.ParseCommand` | src/tourneyBot.py:217-232 | the message is for the bot exactly when its first mention is the bot; help, create or an unknown command only with exactly two words, help and create when the second word lower-cases to "help" and "create" |
| `TourneyBot.CreateCommandWords` | src/tourneyBot.py:217-232 | a mention of the bot and one more word, with any whitespace around and between them, is a create command exactly when the word lower-cases to "create" |
| `TourneyBot.CreateCommandShape` | src/tourneyBot.py:217-232 | conversely, every create command mentions the bot first and is two words set apart by whitespace, the second lower-casing to "create" |
| `TourneyBot.VoiceError` | src/tourneyBot.py:234-253 | each of the three refusals of the voice-channel lookup is an "Error: " text in a code block |
| `TourneyBot.AnnouncementLines` | src/tourneyBot.py:260-265 | one line per team |
| `TourneyBot.Announcement` | src/tourneyBot.py:260-267 | the lines joined by newlines in a code block; `AnnouncementListsEveryTeam` states each line |
| `TourneyBot.AnnouncementListsEveryTeam` | src/tourneyBot.py:184-192 | the announcement is a code block with one line per team; line i is "Team {i+1}: " and team i's names |
| `TourneyBot.DudeBot.constructor` | src/tourneyBot.py:34-39 | no pending message, no teams, no players, creator 0 |
| `TourneyBot.DudeBot.OnReady` | src/tourneyBot.py:158-163 | the bot learns its own id |
| `TourneyBot.DudeBot.Accepts` | src/tourneyBot.py:173-180 | a reaction counts when it is not the bot's own, has the given emoji, and comes from the creator on the pending message; `OnReactionAdd` states its effect |
| `TourneyBot.DudeBot.AddReactions` | src/tourneyBot.py:271-272 | one add-reaction call per tournament emoji, in order |
| `TourneyBot.DudeBot.RemoveReactions` | src/tourneyBot.py:203-204 | one remove-reaction call per tournament emoji, in order |
| `TourneyBot.DudeBot.Reroll` | src/tourneyBot.py:181-196 | delete, re-partition the same roster (shuffled in place), post and make pending the new announcement; on a partition error only the delete and, with 8 or more players, the roster's in-place shuffle have happened, and the error escapes |
| `TourneyBot.DudeBot.Confirm` | src/tourneyBot.py:197-208 | remove the reactions, post the matchups of the in-place shuffled teams, clear the pending message; teams, roster and creator kept |
| `TourneyBot.DudeBot.OnReactionAdd` | src/tourneyBot.py:165-208 | a reaction by the bot, with another emoji, with nothing pending, on another message or by another member changes nothing; otherwise reroll or confirm as above |
| `TourneyBot.DudeBot.CreateTeams` | src/tourneyBot.py:255-274 | the roster is replaced by the channel's names; success overwrites teams, pending message and creator; failure posts the error and keeps them |
| `TourneyBot.DudeBot.OnMessage` | src/tourneyBot.py:210-274 | only a first mention of the bot with exactly two words acts; help posts the help text; create posts a voice-channel error or creates teams |
| `Workflow.StartSession` | tests/testTourneyBot.py:84-90 | after the creator's create for 8 names, the creator, the pending message, the four pairs and the posted calls are as expected |
| `Workflow.OthersAreIgnored` | tests/testTourneyBot.py:101-110 | reactions by another member, or by the bot, change nothing |
| `Workflow.ConfirmTwice` | src/tourneyBot.py:197-208 | the first confirm posts the matchups and clears the pending message; a second confirm is ignored |
| `Workflow.CreateRerollConfirm` | tests/testTourneyBot.py:84-120 | the whole create, reroll, ignored reactions, confirm, repeated confirm sequence and every call it makes on Discord |
| `Workflow.ReactionHandling` | tests/testTourneyBot.py:53-80 | with a pending message, eight players and no teams: the creator's 🔁 posts a new announcement, the creator's ✅ posts an empty code block, anybody else's reaction posts nothing |
| `Workflow.FailedCreateThenReroll` | src/tourneyBot.py:255-274 | a failed create keeps the pending message and creator but replaces the roster; a reroll then deletes and raises "too few" |

## Left out

- Discord client set-up (intents, `setup_hook`'s tree sync, the `on_ready` print, slash-command registration, the admin-role check and `setup_error`) and `main.py`: configuration of the chat library, no logic of the bot.
- Failures and asynchrony of Discord calls (send, delete, add and remove reactions, `member.edit`, `remove_roles`): in the model every call succeeds, so the `discord.Forbidden` and generic exception handlers of `setup` (src/tourneyBot.py:129-137), which only catch failures of those calls, never fire and are not modelled.
- The texts of the help message and of the `setup` replies: the model records that the help message is sent (`SendHelp`) and which `SetupOutcome` the command reaches.
- The voice-channel lookup and the `isinstance`/`hasattr` checks: the caller supplies a `VoiceLookup`, one of the three refusals or the members' user names.
- Randomness: `random.shuffle` takes caller-supplied draws, so every outcome of the shuffle is covered but no distribution is.
- `Strings.Lower` maps only ASCII letters; Python's full Unicode case mapping is not modelled. The bot compares the result with "help" and "create".
- `Tournament.TournamentGenerator`: requires an even number of teams, because for an odd count the source raises `IndexError` on `teams[i+1]`. The bot only calls it with an even number of teams (`DudeBot.Valid`).
- Nickname.Truncated, Nickname.SetupNickname: clamp the slice stop at 0, so a name that does not fit keeps `max(0, available_space - 3)` characters, where the code keeps `len(name) + available_space - 3` when that stop is negative (see Findings). The code as written is `Nickname.TruncatedAsWritten` and `Nickname.NicknameAsWritten`; the two agree whenever at least 3 characters are available.
- Nickname.Setup: renames with the corrected `SetupNickname`, so when fewer than 3 characters are left for the user name it does not give the nickname the code passes to `member.edit` (37 characters on the Findings input, where `Setup` gives at most 32). `Nickname.SetupMatchesCodeWithRoom` shows the two agree in every other case.
- The copy of the setup logic in `tests/testSlashCommands.py`, which reads the nick instead of the user name: the model follows `src/tourneyBot.py`.

## Findings

| source | as written | input that shows it | evidently intended | confidence | as-written member | corrected member |
|---|---|---|---|---|---|---|
| src/tourneyBot.py:97-110 | with `available_space < 3` the stop in `current_name[: available_space - 3]` is negative, so Python keeps all but the last few characters instead of cutting the name down | a 28-character first name, a 32-character user name, last initial "H": 27 characters of the name are kept and even the initial-only fallback is 37 characters long | the name is cut so that the nickname stays within `MAX_NICKNAME_LENGTH` (32) | not executed; high | `Nickname.NicknameAsWrittenOverflows` | `Nickname.SetupNicknameWithinLimit` |
