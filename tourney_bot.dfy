/** The session state of `DudeBot` (src/tourneyBot.py): the pending team
    announcement, the current teams, the member who may reroll or confirm
    them, and the roster they were drawn from, driven by the "create"
    mention and the 🔁 / ✅ reactions.

    Discord is abstracted away: a message is its id and its channel, an id
    for a message the bot sends is supplied by the caller, and every call the
    bot makes on Discord (send, delete, add or remove a reaction) is appended
    to an outbox instead of being performed. */
module TourneyBot {
  import opened Wrappers
  import opened Strings
  import opened Tournament

  type UserId = int
  type MessageId = int
  type ChannelId = int

  const REROLL: string := "\U{1F501}"
  const CONFIRM: string := "\U{2705}"
  const TOURNAMENT_EMOJIS: seq<string> := [REROLL, CONFIRM]

  datatype Message = Message(id: MessageId, channel: ChannelId)

  datatype Reaction = Reaction(emoji: string, message: Message)

  /** The calls the bot makes on Discord, in the order it makes them. */
  datatype Effect =
    | Send(channel: ChannelId, text: string)
    | SendHelp(channel: ChannelId)
    | Delete(message: MessageId)
    | AddReaction(message: MessageId, emoji: string)
    | RemoveReaction(message: MessageId, emoji: string)

  /** What looking up the author's voice channel gives: one of the three
      refusals, or the user names of the channel's members. */
  datatype VoiceLookup = NotAMember | NotInVoice | NoMemberList | Members(names: seq<Player>)

  /** How `on_message` reads a message. */
  datatype Command = NotForBot | WrongArity | Help | Create | Unknown

  /** How `on_reaction_add` ends; `Raised` is an exception escaping the handler. */
  datatype ReactionOutcome = Ignored | Rerolled | Confirmed | Raised(error: TournamentError)

  function CodeBlock(s: string): string
  {
    "```" + s + "```"
  }

  /** Every refusal of the voice-channel lookup is an error in a code block. */
  function VoiceError(v: VoiceLookup): (e: string)
    requires !v.Members?
    ensures |e| > 10 && e[..10] == "```Error: " && e[|e| - 3..] == "```"
  {
    var reason := match v
      case NotAMember => "Command must be used in a server."
      case NotInVoice => "You must be in a voice channel to use this command."
      case NoMemberList => "Cannot get members from this type of voice channel.";
    assert CodeBlock("Error: " + reason) == "```Error: " + (reason + "```");
    CodeBlock("Error: " + reason)
  }

  /** The first mention must be the bot, the content must split into exactly
      two words, and the second word, lower-cased, names the command. */
  function ParseCommand(botId: Option<UserId>, mentions: seq<UserId>, content: string): (cmd: Command)
    ensures cmd != NotForBot <==> mentions != [] && botId == Some(mentions[0])
    ensures cmd.Help? || cmd.Create? || cmd.Unknown? ==> |SplitWords(content)| == 2
    ensures cmd.Help? ==> Lower(SplitWords(content)[1]) == "help"
    ensures cmd.Create? ==> Lower(SplitWords(content)[1]) == "create"
  {
    if mentions == [] || Some(mentions[0]) != botId then NotForBot
    else
      var parts := SplitWords(content);
      if |parts| != 2 then WrongArity
      else if Lower(parts[1]) == "help" then Help
      else if Lower(parts[1]) == "create" then Create
      else Unknown
  }

  /** A message whose first mention is the bot and whose text is the mention
      and one more word, with any whitespace around and between them, is a
      create command exactly when that word is "create" in any ASCII letter
      case. */
  lemma CreateCommandWords(bot: UserId, others: seq<UserId>, mention: string, word: string,
                           gaps: seq<string>)
    requires IsWord(mention) && IsWord(word) && Gaps(gaps, 2)
    ensures ParseCommand(Some(bot), [bot] + others, Interleave([mention, word], gaps)) == Create <==>
              Lower(word) == "create"
  {
    SplitWordsInterleave([mention, word], gaps);
  }

  /** Conversely, every create command is of that form: the bot mentioned
      first, and two words set apart by whitespace, the second "create". */
  lemma CreateCommandShape(botId: Option<UserId>, mentions: seq<UserId>, content: string)
      returns (mention: string, word: string, gaps: seq<string>)
    requires ParseCommand(botId, mentions, content) == Create
    ensures mentions != [] && botId == Some(mentions[0])
    ensures IsWord(mention) && IsWord(word) && Gaps(gaps, 2)
    ensures content == Interleave([mention, word], gaps)
    ensures Lower(word) == "create"
  {
    var words := SplitWords(content);
    gaps := SplitWordsDecomposes(content);
    mention, word := words[0], words[1];
    assert words == [mention, word];
    assert mention in words && word in words;
  }

  /** Line i of an announcement: "Team {i + 1}: " and the names joined by spaces. */
  function AnnouncementLines(teams: seq<Team>): (lines: seq<string>)
    ensures |lines| == |teams|
  {
    seq(|teams|, i requires 0 <= i < |teams| =>
      "Team " + DecimalString(i + 1) + ": " + JoinWith(teams[i], " "))
  }

  /** The team announcement: one line per team, in a code block. */
  function Announcement(teams: seq<Team>): string
  {
    CodeBlock(JoinWith(AnnouncementLines(teams), "\n"))
  }

  /** When no name holds a newline, the announcement has one line per team,
      line i is numbered i + 1 and lists team i. */
  lemma AnnouncementListsEveryTeam(teams: seq<Team>)
    requires |teams| >= 1 && NoNewline(teams)
    ensures var body := JoinWith(AnnouncementLines(teams), "\n");
      && Announcement(teams) == CodeBlock(body)
      && |SplitOn(body, '\n')| == |teams|
      && forall i :: 0 <= i < |teams| ==>
           SplitOn(body, '\n')[i] == "Team " + DecimalString(i + 1) + ": " + JoinWith(teams[i], " ")
           && ParseDecimal(DecimalString(i + 1)) == i + 1
  {
    var lines := AnnouncementLines(teams);
    forall i | 0 <= i < |lines|
      ensures '\n' !in lines[i]
      ensures ParseDecimal(DecimalString(i + 1)) == i + 1
    {
      JoinWithKeepsOut(teams[i], " ", '\n');
      ParseDecimalString(i + 1);
    }
    SplitOnJoinWith(lines, '\n');
  }

  /** `await message.add_reaction(emoji)` for each tournament emoji. */
  function AddedReactions(msg: MessageId): seq<Effect>
  {
    seq(|TOURNAMENT_EMOJIS|, i requires 0 <= i < |TOURNAMENT_EMOJIS| => AddReaction(msg, TOURNAMENT_EMOJIS[i]))
  }

  /** `await message.remove_reaction(emoji, self.user)` for each tournament emoji. */
  function RemovedReactions(msg: MessageId): seq<Effect>
  {
    seq(|TOURNAMENT_EMOJIS|, i requires 0 <= i < |TOURNAMENT_EMOJIS| => RemoveReaction(msg, TOURNAMENT_EMOJIS[i]))
  }

  /** A fresh Python list holding `s`. */
  method ArrayOf<T>(s: seq<T>) returns (a: array<T>)
    ensures fresh(a) && a[..] == s
  {
    a := new T[|s|](i requires 0 <= i < |s| => s[i]);
  }

  class DudeBot {
    var botId: Option<UserId>
    var currentTeamMessage: Option<Message>
    var teams: array<Team>
    var tournamentCreator: UserId
    var players: array<Player>
    var outbox: seq<Effect>

    /** While an announcement is pending the teams can be paired off, so
        confirming does not run past the end of the list. Every successful
        partition gives four teams; an empty list also qualifies. */
    ghost predicate Valid()
      reads this
    {
      currentTeamMessage.Some? ==> teams.Length % 2 == 0
    }

    constructor ()
      ensures Valid()
      ensures botId == None && currentTeamMessage == None && tournamentCreator == 0
      ensures teams[..] == [] && players[..] == [] && outbox == []
      ensures fresh(teams) && fresh(players)
    {
      botId := None;
      currentTeamMessage := None;
      teams := new Team[0];
      tournamentCreator := 0;
      players := new Player[0];
      outbox := [];
    }

    /** `on_ready`: the bot learns its own user id. */
    method OnReady(id: UserId)
      modifies this`botId
      ensures botId == Some(id)
    {
      botId := Some(id);
    }

    /** The guard of a reaction with the given emoji: not the bot's own
        reaction, on the pending announcement, by the member who created it. */
    predicate Accepts(reaction: Reaction, user: UserId, emoji: string)
      reads this
    {
      Some(user) != botId && reaction.emoji == emoji && currentTeamMessage.Some? &&
      reaction.message.id == currentTeamMessage.value.id && user == tournamentCreator
    }

    method AddReactions(msg: MessageId)
      modifies this`outbox
      ensures outbox == old(outbox) + AddedReactions(msg)
    {
      for i := 0 to |TOURNAMENT_EMOJIS|
        invariant outbox == old(outbox) + AddedReactions(msg)[..i]
      {
        outbox := outbox + [AddReaction(msg, TOURNAMENT_EMOJIS[i])];
      }
    }

    method RemoveReactions(msg: MessageId)
      modifies this`outbox
      ensures outbox == old(outbox) + RemovedReactions(msg)
    {
      for i := 0 to |TOURNAMENT_EMOJIS|
        invariant outbox == old(outbox) + RemovedReactions(msg)[..i]
      {
        outbox := outbox + [RemoveReaction(msg, TOURNAMENT_EMOJIS[i])];
      }
    }

    /** The 🔁 branch of `on_reaction_add`, once its guard has passed:
        delete the announcement, re-partition the same roster (shuffling it
        in place), post the new announcement in the reaction's channel and
        make it the pending one. If the roster cannot be partitioned the
        exception escapes after the delete and, with 8 or more players, the
        roster's in-place shuffle; nothing else changes. */
    method Reroll(channel: ChannelId, playerDraws: seq<nat>, newId: MessageId) returns (outcome: ReactionOutcome)
      requires Valid() && currentTeamMessage.Some?
      requires ValidDraws(playerDraws, players.Length)
      modifies this, players
      ensures Valid()
      ensures botId == old(botId) && tournamentCreator == old(tournamentCreator) && players == old(players)
      ensures players[..] == ShuffledRoster(old(players[..]), playerDraws)
      ensures Partition(players[..]).Err? ==>
                && outcome == Raised(Partition(players[..]).error)
                && outbox == old(outbox) + [Delete(old(currentTeamMessage).value.id)]
                && teams == old(teams)
                && currentTeamMessage == old(currentTeamMessage)
      ensures Partition(players[..]).Ok? ==>
                && outcome == Rerolled
                && fresh(teams) && teams[..] == Partition(players[..]).value
                && currentTeamMessage == Some(Message(newId, channel))
                && outbox == old(outbox) + [Delete(old(currentTeamMessage).value.id), Send(channel, Announcement(teams[..]))]
                             + AddedReactions(newId)
    {
      outbox := outbox + [Delete(currentTeamMessage.value.id)];
      var r := TeamCreator(players, playerDraws);
      if r.Err? {
        return Raised(r.error);
      }
      assert |r.value| == 4 by { PartitionShape(players[..]); }
      var ts := r.value;
      teams := ArrayOf(ts);
      outbox := outbox + [Send(channel, Announcement(ts))];
      currentTeamMessage := Some(Message(newId, channel));
      AddReactions(newId);
      outcome := Rerolled;
    }

    /** The ✅ branch of `on_reaction_add`, once its guard has passed: remove
        the bot's reactions, post the matchups (shuffling the team list in
        place) and clear the pending announcement, keeping teams, roster and
        creator. */
    method Confirm(teamDraws: seq<nat>)
      requires Valid() && currentTeamMessage.Some?
      requires ValidDraws(teamDraws, teams.Length)
      modifies this, teams
      ensures Valid()
      ensures botId == old(botId) && tournamentCreator == old(tournamentCreator) && players == old(players)
      ensures currentTeamMessage == None
      ensures teams == old(teams) && teams[..] == Shuffled(old(teams[..]), teamDraws)
      ensures outbox == old(outbox) + RemovedReactions(old(currentTeamMessage).value.id)
                        + [Send(old(currentTeamMessage).value.channel, CodeBlock(Matchups(teams[..])))]
    {
      var cur := currentTeamMessage.value;
      RemoveReactions(cur.id);
      var text := TournamentGenerator(teams, teamDraws);
      outbox := outbox + [Send(cur.channel, CodeBlock(text))];
      currentTeamMessage := None;
    }

    /** `on_reaction_add`: a 🔁 or ✅ passing the guard rerolls or confirms;
        anything else is ignored. */
    method OnReactionAdd(reaction: Reaction, user: UserId, playerDraws: seq<nat>, teamDraws: seq<nat>,
                         newId: MessageId) returns (outcome: ReactionOutcome)
      requires Valid()
      requires ValidDraws(playerDraws, players.Length) && ValidDraws(teamDraws, teams.Length)
      modifies this, players, teams
      ensures Valid()
      ensures botId == old(botId) && tournamentCreator == old(tournamentCreator) && players == old(players)
      ensures !old(Accepts(reaction, user, REROLL)) && !old(Accepts(reaction, user, CONFIRM)) ==>
                && outcome == Ignored
                && unchanged(this) && unchanged(players) && unchanged(teams)
      ensures old(Accepts(reaction, user, REROLL)) ==>
                && players[..] == ShuffledRoster(old(players[..]), playerDraws)
                && (outcome == Rerolled <==> Partition(players[..]).Ok?)
                && (outcome.Raised? <==> Partition(players[..]).Err?)
                && (outcome == Rerolled ==>
                      && fresh(teams) && teams[..] == Partition(players[..]).value
                      && currentTeamMessage == Some(Message(newId, reaction.message.channel))
                      && outbox == old(outbox) + [Delete(reaction.message.id),
                                                  Send(reaction.message.channel, Announcement(teams[..]))]
                                   + AddedReactions(newId))
                && (outcome.Raised? ==>
                      && outcome.error == Partition(players[..]).error
                      && outbox == old(outbox) + [Delete(reaction.message.id)]
                      && teams == old(teams) && unchanged(teams)
                      && currentTeamMessage == old(currentTeamMessage))
      ensures old(Accepts(reaction, user, CONFIRM)) ==>
                && outcome == Confirmed
                && currentTeamMessage == None
                && unchanged(players)
                && teams == old(teams) && teams[..] == Shuffled(old(teams[..]), teamDraws)
                && outbox == old(outbox) + RemovedReactions(reaction.message.id)
                             + [Send(old(currentTeamMessage).value.channel, CodeBlock(Matchups(teams[..])))]
    {
      outcome := Ignored;
      if Some(user) == botId {
        return;
      }
      if reaction.emoji == REROLL && currentTeamMessage.Some? &&
         reaction.message.id == currentTeamMessage.value.id && user == tournamentCreator
      {
        outcome := Reroll(reaction.message.channel, playerDraws, newId);
        return;
      }
      if reaction.emoji == CONFIRM && currentTeamMessage.Some? &&
         reaction.message.id == currentTeamMessage.value.id && user == tournamentCreator
      {
        Confirm(teamDraws);
        outcome := Confirmed;
      }
    }

    /** The "create" branch of `on_message` once the author's voice channel
        has given its members' names: the roster is replaced by them before
        partitioning; on success the teams, the pending announcement and the
        creator are overwritten (there is no check for an announcement
        already pending), on failure only the roster has changed and the
        error is posted. */
    method CreateTeams(names: seq<Player>, author: UserId, channel: ChannelId, draws: seq<nat>, newId: MessageId)
      requires Valid()
      requires ValidDraws(draws, |names|)
      modifies this
      ensures Valid()
      ensures botId == old(botId)
      ensures fresh(players) && players[..] == ShuffledRoster(names, draws)
      ensures Partition(players[..]).Err? ==>
                && outbox == old(outbox) + [Send(channel, CodeBlock("Error: " + Partition(players[..]).error.Message()))]
                && currentTeamMessage == old(currentTeamMessage) && teams == old(teams)
                && tournamentCreator == old(tournamentCreator)
      ensures Partition(players[..]).Ok? ==>
                && fresh(teams) && teams[..] == Partition(players[..]).value
                && currentTeamMessage == Some(Message(newId, channel))
                && tournamentCreator == author
                && outbox == old(outbox) + [Send(channel, Announcement(teams[..]))] + AddedReactions(newId)
    {
      players := ArrayOf(names);
      var r := TeamCreator(players, draws);
      if r.Ok? {
        assert |r.value| == 4 by { PartitionShape(players[..]); }
        var ts := r.value;
        teams := ArrayOf(ts);
        outbox := outbox + [Send(channel, Announcement(ts))];
        currentTeamMessage := Some(Message(newId, channel));
        tournamentCreator := author;
        AddReactions(newId);
      } else {
        outbox := outbox + [Send(channel, CodeBlock("Error: " + r.error.Message()))];
      }
    }

    /** `on_message`: reads the command; "help" posts the help text, "create"
        posts the voice-channel error or creates teams; anything else is
        ignored. */
    method OnMessage(mentions: seq<UserId>, content: string, author: UserId, channel: ChannelId,
                     voice: VoiceLookup, draws: seq<nat>, newId: MessageId) returns (command: Command)
      requires Valid()
      requires voice.Members? ==> ValidDraws(draws, |voice.names|)
      modifies this
      ensures Valid()
      ensures command == ParseCommand(old(botId), mentions, content)
      ensures botId == old(botId)
      ensures command != Help && command != Create ==> unchanged(this)
      ensures command == Help || (command == Create && !voice.Members?) ==>
                && outbox == old(outbox) + [if command == Help then SendHelp(channel) else Send(channel, VoiceError(voice))]
                && currentTeamMessage == old(currentTeamMessage) && teams == old(teams)
                && tournamentCreator == old(tournamentCreator) && players == old(players)
      ensures command == Create && voice.Members? ==>
                && fresh(players) && players[..] == ShuffledRoster(voice.names, draws)
                && (Partition(players[..]).Err? ==>
                      && outbox == old(outbox) + [Send(channel, CodeBlock("Error: " + Partition(players[..]).error.Message()))]
                      && currentTeamMessage == old(currentTeamMessage) && teams == old(teams)
                      && tournamentCreator == old(tournamentCreator))
                && (Partition(players[..]).Ok? ==>
                      && fresh(teams) && teams[..] == Partition(players[..]).value
                      && currentTeamMessage == Some(Message(newId, channel))
                      && tournamentCreator == author
                      && outbox == old(outbox) + [Send(channel, Announcement(teams[..]))] + AddedReactions(newId))
    {
      command := ParseCommand(botId, mentions, content);
      if mentions == [] || Some(mentions[0]) != botId {
        return;
      }
      var parts := SplitWords(content);
      if |parts| != 2 {
        return;
      }
      var word := Lower(parts[1]);
      if word == "help" {
        outbox := outbox + [SendHelp(channel)];
      } else if word == "create" {
        if !voice.Members? {
          outbox := outbox + [Send(channel, VoiceError(voice))];
          return;
        }
        CreateTeams(voice.names, author, channel, draws, newId);
      }
    }
  }
}
