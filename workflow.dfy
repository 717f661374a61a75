/** Client scenarios for `DudeBot`, following the end-to-end workflow of
    tests/testTourneyBot.py with the identity shuffle, for any roster of
    eight names: everything below is derived from the handlers' contracts
    alone. */
module Workflow {
  import opened Wrappers
  import opened Strings
  import opened Tournament
  import opened TourneyBot

  const BOT: UserId := 123
  const CREATOR: UserId := 456
  const OTHER: UserId := 789
  const CHANNEL: ChannelId := 1

  /** A fresh bot, ready, after the creator's create command for eight names. */
  method StartSession(names: seq<Player>, mention: string, word: string, keep8: seq<nat>) returns (bot: DudeBot)
    requires |names| == 8 && IdentityDraws(keep8, 8)
    requires IsWord(mention) && IsWord(word) && Lower(word) == "create"
    ensures fresh(bot) && fresh(bot.players) && fresh(bot.teams) && bot.Valid()
    ensures bot.botId == Some(BOT) && bot.tournamentCreator == CREATOR
    ensures bot.currentTeamMessage == Some(Message(11, CHANNEL))
    ensures bot.players[..] == names && bot.teams[..] == Pairs(names, 0, 4)
    ensures bot.outbox == [Send(CHANNEL, Announcement(Pairs(names, 0, 4)))] + AddedReactions(11)
  {
    IdentityShuffle(names, keep8);
    assert ShuffledRoster(names, keep8) == names;
    bot := new DudeBot();
    bot.OnReady(BOT);
    assert ParseCommand(Some(BOT), [BOT], mention + " " + word) == Create by {
      CreateCommandWords(BOT, [], mention, word, ["", " ", ""]);
      InterleaveTwo(mention, word, "", " ", "");
      assert "" + mention + " " + word + "" == mention + " " + word;
      assert [BOT] + [] == [BOT];
    }
    var command := bot.OnMessage([BOT], mention + " " + word, CREATOR, CHANNEL, Members(names), keep8, 11);
  }

  /** The creator confirms the pending announcement twice: the first
      confirm posts the matchups of the teams in their order (identity
      shuffle), the second finds nothing pending. */
  method ConfirmTwice(bot: DudeBot, keep8: seq<nat>, keep4: seq<nat>) returns (first: ReactionOutcome, second: ReactionOutcome)
    requires bot.Valid() && bot.botId == Some(BOT) && bot.tournamentCreator == CREATOR
    requires bot.currentTeamMessage == Some(Message(12, CHANNEL))
    requires IdentityDraws(keep4, bot.teams.Length) && ValidDraws(keep8, bot.players.Length)
    modifies bot, bot.players, bot.teams
    ensures first == Confirmed && second == Ignored
    ensures bot.currentTeamMessage == None && bot.tournamentCreator == CREATOR
    ensures bot.teams[..] == old(bot.teams[..])
    ensures bot.outbox == old(bot.outbox) + [RemoveReaction(12, REROLL), RemoveReaction(12, CONFIRM),
                                             Send(CHANNEL, CodeBlock(Matchups(bot.teams[..])))]
  {
    IdentityShuffle(bot.teams[..], keep4);
    first := bot.OnReactionAdd(Reaction(CONFIRM, Message(12, CHANNEL)), CREATOR, keep8, keep4, 13);
    assert RemovedReactions(12) == [RemoveReaction(12, REROLL), RemoveReaction(12, CONFIRM)];
    second := bot.OnReactionAdd(Reaction(CONFIRM, Message(12, CHANNEL)), CREATOR, keep8, keep4, 13);
  }

  /** Reactions on the pending announcement by another member, and by the
      bot itself, are all ignored and change nothing. */
  method OthersAreIgnored(bot: DudeBot, keep8: seq<nat>, keep4: seq<nat>) returns (outcomes: seq<ReactionOutcome>)
    requires bot.Valid() && bot.botId == Some(BOT) && bot.tournamentCreator == CREATOR
    requires bot.currentTeamMessage == Some(Message(12, CHANNEL))
    requires ValidDraws(keep4, bot.teams.Length) && ValidDraws(keep8, bot.players.Length)
    modifies bot, bot.players, bot.teams
    ensures outcomes == [Ignored, Ignored, Ignored]
    ensures unchanged(bot) && unchanged(bot.players) && unchanged(bot.teams)
  {
    var o1 := bot.OnReactionAdd(Reaction(REROLL, Message(12, CHANNEL)), OTHER, keep8, keep4, 13);
    var o2 := bot.OnReactionAdd(Reaction(CONFIRM, Message(12, CHANNEL)), OTHER, keep8, keep4, 13);
    var o3 := bot.OnReactionAdd(Reaction(CONFIRM, Message(12, CHANNEL)), BOT, keep8, keep4, 13);
    outcomes := [o1, o2, o3];
  }

  /** Create by the creator, reroll by the creator, reroll and confirm by
      someone else and a reaction by the bot itself (all ignored), confirm by
      the creator, then a second confirm (ignored: nothing is pending). */
  method CreateRerollConfirm(names: seq<Player>, mention: string, word: string, keep8: seq<nat>, keep4: seq<nat>)
    returns (creator: UserId, pending: Option<Message>, outcomes: seq<ReactionOutcome>, sent: seq<Effect>)
    requires |names| == 8 && IdentityDraws(keep8, 8) && IdentityDraws(keep4, 4)
    requires IsWord(mention) && IsWord(word) && Lower(word) == "create"
    ensures creator == CREATOR && pending == None
    ensures outcomes == [Rerolled, Ignored, Ignored, Ignored, Confirmed, Ignored]
    ensures var teams := Pairs(names, 0, 4);
      sent == [Send(CHANNEL, Announcement(teams)), AddReaction(11, REROLL), AddReaction(11, CONFIRM),
               Delete(11), Send(CHANNEL, Announcement(teams)), AddReaction(12, REROLL), AddReaction(12, CONFIRM),
               RemoveReaction(12, REROLL), RemoveReaction(12, CONFIRM),
               Send(CHANNEL, CodeBlock(Matchups(teams)))]
  {
    var teams := Pairs(names, 0, 4);
    IdentityShuffle(names, keep8);
    ghost var announce := Send(CHANNEL, Announcement(teams));
    ghost var matchups := Send(CHANNEL, CodeBlock(Matchups(teams)));

    var bot := StartSession(names, mention, word, keep8);
    assert AddedReactions(11) == [AddReaction(11, REROLL), AddReaction(11, CONFIRM)];
    ghost var afterCreate := bot.outbox;
    assert afterCreate == [announce, AddReaction(11, REROLL), AddReaction(11, CONFIRM)];

    var o1 := bot.OnReactionAdd(Reaction(REROLL, Message(11, CHANNEL)), CREATOR, keep8, keep4, 12);
    assert bot.teams[..] == teams && bot.players[..] == names;
    assert bot.teams.Length == |teams| == 4;
    assert AddedReactions(12) == [AddReaction(12, REROLL), AddReaction(12, CONFIRM)];
    ghost var afterReroll := bot.outbox;
    assert afterReroll == afterCreate + [Delete(11), announce, AddReaction(12, REROLL), AddReaction(12, CONFIRM)];

    var ignored := OthersAreIgnored(bot, keep8, keep4);
    var o5, o6 := ConfirmTwice(bot, keep8, keep4);
    assert bot.teams[..] == teams;
    assert bot.outbox == afterReroll + [RemoveReaction(12, REROLL), RemoveReaction(12, CONFIRM), matchups];

    creator, pending := bot.tournamentCreator, bot.currentTeamMessage;
    outcomes := [o1] + ignored + [o5, o6];
    sent := bot.outbox;
  }

  /** A create that fails keeps the pending announcement and its creator but
      has already replaced the roster; a reroll of that announcement then
      deletes it and raises the partition error, leaving it pending. */
  method FailedCreateThenReroll(names: seq<Player>, few: seq<Player>, mention: string, word: string,
                                keep8: seq<nat>, keepFew: seq<nat>)
    returns (pending: Option<Message>, roster: seq<Player>, outcome: ReactionOutcome, sent: seq<Effect>)
    requires |names| == 8 && IdentityDraws(keep8, 8)
    requires |few| < 8 && IdentityDraws(keepFew, |few|)
    requires IsWord(mention) && IsWord(word) && Lower(word) == "create"
    ensures pending == Some(Message(11, CHANNEL))
    ensures roster == few
    ensures outcome == Raised(TooFewPlayers)
    ensures |sent| == 5
    ensures sent[3..] == [Send(CHANNEL, CodeBlock("Error: " + TooFewPlayers.Message())), Delete(11)]
  {
    IdentityShuffle(names, keep8);
    assert ShuffledRoster(names, keep8) == names;
    assert ShuffledRoster(few, keepFew) == few;

    var bot := new DudeBot();
    bot.OnReady(BOT);
    assert ParseCommand(Some(BOT), [BOT], mention + " " + word) == Create by {
      CreateCommandWords(BOT, [], mention, word, ["", " ", ""]);
      InterleaveTwo(mention, word, "", " ", "");
      assert "" + mention + " " + word + "" == mention + " " + word;
      assert [BOT] + [] == [BOT];
    }
    var c1 := bot.OnMessage([BOT], mention + " " + word, CREATOR, CHANNEL, Members(names), keep8, 11);
    assert |bot.outbox| == 3;
    var c2 := bot.OnMessage([BOT], mention + " " + word, OTHER, CHANNEL, Members(few), keepFew, 12);
    assert bot.tournamentCreator == CREATOR && bot.players[..] == few;

    outcome := bot.OnReactionAdd(Reaction(REROLL, Message(11, CHANNEL)), CREATOR, keepFew, [0, 1, 2, 3], 13);
    pending, roster, sent := bot.currentTeamMessage, bot.players[..], bot.outbox;
  }

  /** One row of the reaction test: a client whose pending announcement is
      message 789, created by CREATOR, with eight players and no teams yet.
      The creator's 🔁 posts a new announcement; the creator's ✅ pairs off
      the empty team list and posts an empty code block; a reaction by
      anybody else posts nothing. */
  method ReactionHandling(emoji: string, user: UserId, names: seq<Player>, keep8: seq<nat>)
    returns (outcome: ReactionOutcome, sent: seq<Effect>)
    requires emoji == REROLL || emoji == CONFIRM
    requires user == CREATOR || user == OTHER
    requires |names| == 8 && IdentityDraws(keep8, 8)
    ensures user == OTHER ==> outcome == Ignored && sent == []
    ensures user == CREATOR && emoji == REROLL ==>
              && outcome == Rerolled
              && sent == [Delete(789), Send(CHANNEL, Announcement(Pairs(names, 0, 4)))] + AddedReactions(790)
    ensures user == CREATOR && emoji == CONFIRM ==>
              && outcome == Confirmed
              && sent == RemovedReactions(789) + [Send(CHANNEL, "``````")]
  {
    IdentityShuffle(names, keep8);
    assert ShuffledRoster(names, keep8) == names;
    assert Shuffled<Team>([], []) == [];
    assert CodeBlock(Matchups([])) == "``````";
    var bot := new DudeBot();
    bot.botId := Some(BOT);
    bot.currentTeamMessage := Some(Message(789, CHANNEL));
    bot.tournamentCreator := CREATOR;
    bot.players := ArrayOf(names);
    outcome := bot.OnReactionAdd(Reaction(emoji, Message(789, CHANNEL)), user, keep8, [], 790);
    sent := bot.outbox;
  }
}
