/** The decisions inside the `setup` slash command (src/tourneyBot.py): whether
    a member counts as already set up, and the nickname
    `FirstName "name" LastInitial` squeezed into Discord's 32-character limit. */
module Nickname {
  import opened Wrappers

  type RoleId = int

  const MAX_NICKNAME_LENGTH: nat := 32

  /** The parts of a guild member the command reads. */
  datatype Member = Member(name: string, nick: Option<string>, roles: seq<RoleId>)

  /** What the command does with a member: refuse outside a server, report an
      already set-up member, or rename and maybe drop the setup role. */
  datatype SetupOutcome =
    | NotInServer
    | AlreadySetUp
    | Renamed(nick: string, removeSetupRole: bool)

  function Min(a: int, b: int): int { if a <= b then a else b }
  function Max(a: int, b: int): int { if a <= b then b else a }

  /** Python's `s[:stop]`: a negative stop counts back from the end. */
  function SliceTo(s: string, stop: int): (r: string)
    ensures r <= s
    ensures |r| == if stop >= 0 then Min(stop, |s|) else Max(0, |s| + stop)
  {
    if stop >= 0 then s[..Min(stop, |s|)] else s[..Max(0, |s| + stop)]
  }

  /** `MAX_NICKNAME_LENGTH - (len(first_name) + 5 + len(last_initial))` */
  function AvailableSpace(first: string, last: string): int
  {
    MAX_NICKNAME_LENGTH - (|first| + 5 + |last|)
  }

  function Format(first: string, middle: string, last: string): string
  {
    first + " \"" + middle + "\" " + last
  }

  /** The nickname from an already truncated middle part, with the source's
      fallback to the first initial when the full form is over the limit. */
  function Assemble(first: string, middle: string, last: string): string
  {
    var full := Format(first, middle, last);
    if |full| > MAX_NICKNAME_LENGTH then SliceTo(first, 1) + ". \"" + middle + "\" " + last else full
  }

  /** The middle part as the source computes it: `name[:available_space - 3] + "..."`
      when the name is too long. With less than 3 characters available the
      slice stop is negative and Python cuts from the END of the name. */
  function TruncatedAsWritten(name: string, available: int): (t: string)
    ensures |name| <= available ==> t == name
    ensures |name| > available ==>
              && |t| == 3 + (if available >= 3 then available - 3 else Max(0, |name| + available - 3))
              && t == name[..|t| - 3] + "..."
  {
    if |name| > available then SliceTo(name, available - 3) + "..." else name
  }

  function NicknameAsWritten(first: string, name: string, last: string): string
  {
    Assemble(first, TruncatedAsWritten(name, AvailableSpace(first, last)), last)
  }

  /** The middle part with the slice stop clamped at zero, so a name that does
      not fit keeps `max(0, available - 3)` of its characters. */
  function Truncated(name: string, available: int): (t: string)
    ensures |name| <= available ==> t == name
    ensures |name| > available ==> |t| == Max(3, available) && t == name[..|t| - 3] + "..."
  {
    if |name| > available then SliceTo(name, Max(0, available - 3)) + "..." else name
  }

  /** The nickname the setup command gives: first name, the member's user
      name (not the nick) in quotes, last initial. */
  function SetupNickname(first: string, name: string, last: string): string
  {
    Assemble(first, Truncated(name, AvailableSpace(first, last)), last)
  }

  /** With at least 3 characters available the nickname is the full form with
      at most 31 characters, the initial-only fallback never fires, and the
      source's truncation agrees with the clamped one. */
  lemma NicknameFitsWithRoom(first: string, name: string, last: string)
    requires AvailableSpace(first, last) >= 3
    ensures NicknameAsWritten(first, name, last) == SetupNickname(first, name, last)
    ensures SetupNickname(first, name, last) ==
              Format(first, Truncated(name, AvailableSpace(first, last)), last)
    ensures |SetupNickname(first, name, last)| <= MAX_NICKNAME_LENGTH - 1
  {
  }

  /** The nickname is `first "t" last`, or `f. "t" last` with f the first
      name's initial when that is over the limit, where t is the whole user
      name if it fits and otherwise a prefix of it followed by "...". */
  lemma NicknameShape(first: string, name: string, last: string)
    ensures var t := Truncated(name, AvailableSpace(first, last));
      var nick := SetupNickname(first, name, last);
      && (nick == Format(first, t, last) || nick == Format(SliceTo(first, 1) + ".", t, last))
      && (|name| <= AvailableSpace(first, last) ==> t == name)
      && (|name| > AvailableSpace(first, last) ==>
            exists k :: 0 <= k <= |name| && t == name[..k] + "...")
  {
  }

  /** The clamped nickname never exceeds 32 characters as long as the last
      initial has at most 23 (the command asks for a single letter). */
  lemma SetupNicknameWithinLimit(first: string, name: string, last: string)
    requires |last| <= 23
    ensures |SetupNickname(first, name, last)| <= MAX_NICKNAME_LENGTH
  {
  }

  /** A first name of 28 characters, a 32-character user name and the last
      initial "H": the available space is -2, the source slices `name[:-5]`,
      keeps 27 characters, and even the initial-only fallback is 37
      characters long. */
  lemma NicknameAsWrittenOverflows()
    ensures var first := "Abcdefghijklmnopqrstuvwxyzab";
      var name := "abcdefghijklmnopqrstuvwxyz012345";
      && |first| == 28 && |name| == 32
      && |NicknameAsWritten(first, name, "H")| == 37
      && |SetupNickname(first, name, "H")| <= MAX_NICKNAME_LENGTH
  {
  }

  function HasRole(m: Member, role: Option<RoleId>): bool
  {
    role.Some? && role.value in m.roles
  }

  /** The setup role is absent and the member carries a nickname other than
      their user name. A missing setup role (`get_role` gives `None`) counts
      as absent. */
  predicate IsAlreadySetUp(m: Member, setupRole: Option<RoleId>)
  {
    !HasRole(m, setupRole) && m.nick.Some? && m.nick.value != m.name
  }

  /** The `setup` command: `inGuild` is whether the interaction came from a
      server, `setupRole` what `guild.get_role(SETUP_ROLE_ID)` returned. */
  function Setup(inGuild: bool, setupRole: Option<RoleId>, m: Member, first: string, last: string): SetupOutcome
  {
    if !inGuild then NotInServer
    else if IsAlreadySetUp(m, setupRole) then AlreadySetUp
    else Renamed(SetupNickname(first, m.name, last), HasRole(m, setupRole))
  }

  /** A member that is already set up is neither renamed nor loses a role;
      any other member in a server is renamed, and loses the setup role
      exactly when they hold it. */
  lemma SetupDecision(inGuild: bool, setupRole: Option<RoleId>, m: Member, first: string, last: string)
    requires inGuild
    ensures Setup(inGuild, setupRole, m, first, last).AlreadySetUp? <==> IsAlreadySetUp(m, setupRole)
    ensures Setup(inGuild, setupRole, m, first, last).Renamed? <==> !IsAlreadySetUp(m, setupRole)
    ensures Setup(inGuild, setupRole, m, first, last).Renamed? ==>
              (Setup(inGuild, setupRole, m, first, last).removeSetupRole <==> HasRole(m, setupRole))
  {
  }

  /** Wherever at least 3 characters are left for the user name, the rename
      is exactly the nickname the code as written builds. */
  lemma SetupMatchesCodeWithRoom(setupRole: Option<RoleId>, m: Member, first: string, last: string)
    requires !IsAlreadySetUp(m, setupRole) && AvailableSpace(first, last) >= 3
    ensures Setup(true, setupRole, m, first, last) ==
              Renamed(NicknameAsWritten(first, m.name, last), HasRole(m, setupRole))
  {
    NicknameFitsWithRoom(first, m.name, last);
  }

  /** The new nickname depends on the user name only, never on the current
      nick: two members that differ only in their nick and are both renamed
      get the same nickname. */
  lemma SetupIgnoresNick(setupRole: Option<RoleId>, m: Member, nick: Option<string>, first: string, last: string)
    requires !IsAlreadySetUp(m, setupRole) && !IsAlreadySetUp(m.(nick := nick), setupRole)
    ensures Setup(true, setupRole, m, first, last) == Setup(true, setupRole, m.(nick := nick), first, last)
  {
  }
}
