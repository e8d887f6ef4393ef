/**
  The two decision chains that turn a chat message into a speech job:
  `check_muted_user_tts` (automatic speech for a muted member) and the guard
  part of the `!s` command. Both read the bot's session maps and the
  message and change nothing; the voice lookup and the enqueue that follow a
  positive decision live in the `Bot` module.
 */
module Eligibility {
  import opened Wrappers
  import opened PyText
  import opened Ids

  /** The channel of a member's voice state, and whether it is a plain voice channel (not a stage). */
  datatype ChannelRef = ChannelRef(id: ChannelId, isVoiceChannel: bool)

  /** `member.voice`: where the member is and their two mute flags. */
  datatype VoiceState = VoiceState(channel: Option<ChannelRef>, selfMute: bool, mute: bool)

  /**
    A message author. `isMember` is `isinstance(author, discord.Member)`; a
    webhook or system author is not a member and has no voice state.
   */
  datatype Author = Author(id: UserId, displayName: string, isMember: bool, voice: Option<VoiceState>)

  datatype Message = Message(guild: Option<GuildId>, channel: ChannelId, author: Author, content: string)

  /** Why a message is not spoken, one per early return, in the order they are tried. */
  datatype Reason =
    | NoGuild | NoVoiceClient | NotMonitored | WrongChannel | NotMember | NotInVoice
    | NotConnected | NotColocated | NotMuted | IsCommand | Blank

  /** Ignore the message, or speak `text` in `guild` with the voice of `author`. */
  datatype Decision = Ignore(reason: Reason) | Convert(author: UserId, guild: GuildId, text: string)

  /** The text spoken for a muted member's message: the content as it came, untrimmed. */
  function AutoSpeech(displayName: string, content: string): string
  {
    displayName + " says: " + content
  }

  /** The text spoken for `!s text`: note the trailing blank. */
  function CommandSpeech(displayName: string, text: string): string
  {
    displayName + " says: " + text + " "
  }

  /**
    `check_muted_user_tts` up to its final call. `voiceClients` maps a guild
    to the voice channel its client joined on `!join` (later moves of the bot
    are not tracked), `monitored` a guild to its text channel, and `connected` is what that client's `is_connected()` reports.
   */
  function CheckMutedUserTts(m: Message, voiceClients: map<GuildId, ChannelId>,
                             monitored: map<GuildId, ChannelId>, connected: bool): (d: Decision)
  {
    if m.guild.None? then Ignore(NoGuild)
    else if m.guild.value !in voiceClients then Ignore(NoVoiceClient)
    else if m.guild.value !in monitored then Ignore(NotMonitored)
    else if m.channel != monitored[m.guild.value] then Ignore(WrongChannel)
    else if !m.author.isMember then Ignore(NotMember)
    else if m.author.voice.None? then Ignore(NotInVoice)
    else if !connected then Ignore(NotConnected)
    else if m.author.voice.value.channel.None?
         || m.author.voice.value.channel.value.id != voiceClients[m.guild.value]
    then Ignore(NotColocated)
    else if !(m.author.voice.value.selfMute || m.author.voice.value.mute) then Ignore(NotMuted)
    else if StartsWith(m.content, "!") then Ignore(IsCommand)
    else if AllSpace(m.content) then Ignore(Blank)
    else Convert(m.author.id, m.guild.value, AutoSpeech(m.author.displayName, m.content))
  }

  /**
    The test of the gate named `r` on its own. A gate whose test reads what
    an earlier gate establishes (the guild, its voice client, the author's
    voice state) passes vacuously when that is missing, so each gate can
    fail while every other one passes.
   */
  ghost predicate Passes(r: Reason, m: Message, voiceClients: map<GuildId, ChannelId>,
                         monitored: map<GuildId, ChannelId>, connected: bool)
  {
    match r
    case NoGuild => m.guild.Some?
    case NoVoiceClient => m.guild.Some? ==> m.guild.value in voiceClients
    case NotMonitored => m.guild.Some? ==> m.guild.value in monitored
    case WrongChannel =>
      m.guild.Some? && m.guild.value in monitored ==> monitored[m.guild.value] == m.channel
    case NotMember => m.author.isMember
    case NotInVoice => m.author.voice.Some?
    case NotConnected => connected
    case NotColocated =>
      m.guild.Some? && m.guild.value in voiceClients && m.author.voice.Some? ==>
        m.author.voice.value.channel.Some?
        && m.author.voice.value.channel.value.id == voiceClients[m.guild.value]
    case NotMuted => m.author.voice.Some? ==> m.author.voice.value.selfMute || m.author.voice.value.mute
    case IsCommand => !StartsWith(m.content, "!")
    case Blank => !AllSpace(m.content)
  }

  /** The position of each gate in the chain. */
  function GateIndex(r: Reason): nat
  {
    match r
    case NoGuild => 0
    case NoVoiceClient => 1
    case NotMonitored => 2
    case WrongChannel => 3
    case NotMember => 4
    case NotInVoice => 5
    case NotConnected => 6
    case NotColocated => 7
    case NotMuted => 8
    case IsCommand => 9
    case Blank => 10
  }

  /** Every gate at a position below `k` passes. */
  ghost predicate PassesBefore(k: nat, m: Message, voiceClients: map<GuildId, ChannelId>,
                               monitored: map<GuildId, ChannelId>, connected: bool)
  {
    && (k > 0 ==> Passes(NoGuild, m, voiceClients, monitored, connected))
    && (k > 1 ==> Passes(NoVoiceClient, m, voiceClients, monitored, connected))
    && (k > 2 ==> Passes(NotMonitored, m, voiceClients, monitored, connected))
    && (k > 3 ==> Passes(WrongChannel, m, voiceClients, monitored, connected))
    && (k > 4 ==> Passes(NotMember, m, voiceClients, monitored, connected))
    && (k > 5 ==> Passes(NotInVoice, m, voiceClients, monitored, connected))
    && (k > 6 ==> Passes(NotConnected, m, voiceClients, monitored, connected))
    && (k > 7 ==> Passes(NotColocated, m, voiceClients, monitored, connected))
    && (k > 8 ==> Passes(NotMuted, m, voiceClients, monitored, connected))
    && (k > 9 ==> Passes(IsCommand, m, voiceClients, monitored, connected))
    && (k > 10 ==> Passes(Blank, m, voiceClients, monitored, connected))
  }

  /** `PassesBefore` is what it says: every gate with a smaller position passes. */
  lemma PassesBeforeMeans(k: nat, m: Message, voiceClients: map<GuildId, ChannelId>,
                          monitored: map<GuildId, ChannelId>, connected: bool)
    ensures PassesBefore(k, m, voiceClients, monitored, connected)
        <==> forall e :: GateIndex(e) < k ==> Passes(e, m, voiceClients, monitored, connected)
  {
    if PassesBefore(k, m, voiceClients, monitored, connected) {
      forall e | GateIndex(e) < k ensures Passes(e, m, voiceClients, monitored, connected) {
        match e
        case NoGuild =>
        case NoVoiceClient =>
        case NotMonitored =>
        case WrongChannel =>
        case NotMember =>
        case NotInVoice =>
        case NotConnected =>
        case NotColocated =>
        case NotMuted =>
        case IsCommand =>
        case Blank =>
      }
    } else {
      var e :=
        if k > 0 && !Passes(NoGuild, m, voiceClients, monitored, connected) then NoGuild
        else if k > 1 && !Passes(NoVoiceClient, m, voiceClients, monitored, connected) then NoVoiceClient
        else if k > 2 && !Passes(NotMonitored, m, voiceClients, monitored, connected) then NotMonitored
        else if k > 3 && !Passes(WrongChannel, m, voiceClients, monitored, connected) then WrongChannel
        else if k > 4 && !Passes(NotMember, m, voiceClients, monitored, connected) then NotMember
        else if k > 5 && !Passes(NotInVoice, m, voiceClients, monitored, connected) then NotInVoice
        else if k > 6 && !Passes(NotConnected, m, voiceClients, monitored, connected) then NotConnected
        else if k > 7 && !Passes(NotColocated, m, voiceClients, monitored, connected) then NotColocated
        else if k > 8 && !Passes(NotMuted, m, voiceClients, monitored, connected) then NotMuted
        else if k > 9 && !Passes(IsCommand, m, voiceClients, monitored, connected) then IsCommand
        else Blank;
      assert GateIndex(e) < k && !Passes(e, m, voiceClients, monitored, connected);
    }
  }

  /**
    A message is converted exactly when every gate passes, and then the job
    is for the author's id, in the message's guild, with the text
    `display_name + " says: " + content`.
   */
  lemma ConvertIffAllGatesPass(m: Message, voiceClients: map<GuildId, ChannelId>,
                               monitored: map<GuildId, ChannelId>, connected: bool)
    ensures CheckMutedUserTts(m, voiceClients, monitored, connected).Convert?
        <==> forall r :: Passes(r, m, voiceClients, monitored, connected)
    ensures CheckMutedUserTts(m, voiceClients, monitored, connected).Convert? ==>
      CheckMutedUserTts(m, voiceClients, monitored, connected)
        == Convert(m.author.id, m.guild.value, m.author.displayName + " says: " + m.content)
  {
    PassesBeforeMeans(11, m, voiceClients, monitored, connected);
    assert CheckMutedUserTts(m, voiceClients, monitored, connected).Convert?
        <==> PassesBefore(11, m, voiceClients, monitored, connected);
  }

  /**
    The message is ignored for reason `r` exactly when gate `r` fails and
    every gate before it passes: the chain short-circuits on the first
    failure, in the order of `GateIndex`.
   */
  lemma IgnoredAtFirstFailingGate(m: Message, voiceClients: map<GuildId, ChannelId>,
                                  monitored: map<GuildId, ChannelId>, connected: bool, r: Reason)
    ensures CheckMutedUserTts(m, voiceClients, monitored, connected) == Ignore(r)
        <==> !Passes(r, m, voiceClients, monitored, connected)
             && forall e :: GateIndex(e) < GateIndex(r) ==> Passes(e, m, voiceClients, monitored, connected)
  {
    PassesBeforeMeans(GateIndex(r), m, voiceClients, monitored, connected);
    IgnoredWhereChainStops(m, voiceClients, monitored, connected, r);
  }

  lemma IgnoredWhereChainStops(m: Message, voiceClients: map<GuildId, ChannelId>,
                               monitored: map<GuildId, ChannelId>, connected: bool, r: Reason)
    ensures CheckMutedUserTts(m, voiceClients, monitored, connected) == Ignore(r)
        <==> !Passes(r, m, voiceClients, monitored, connected)
             && PassesBefore(GateIndex(r), m, voiceClients, monitored, connected)
  {
    match r
    case NoGuild =>
    case NoVoiceClient =>
    case NotMonitored =>
    case WrongChannel =>
    case NotMember =>
    case NotInVoice =>
    case NotConnected =>
    case NotColocated =>
    case NotMuted =>
    case IsCommand =>
    case Blank =>
  }

  /**
    Failing any single gate while all the others pass yields no job, and the
    reported reason is that gate.
   */
  lemma SingleFailingGate(m: Message, voiceClients: map<GuildId, ChannelId>,
                          monitored: map<GuildId, ChannelId>, connected: bool, r: Reason)
    requires !Passes(r, m, voiceClients, monitored, connected)
    requires forall e :: e != r ==> Passes(e, m, voiceClients, monitored, connected)
    ensures CheckMutedUserTts(m, voiceClients, monitored, connected) == Ignore(r)
  {
    IgnoredAtFirstFailingGate(m, voiceClients, monitored, connected, r);
  }

  /**
    The gates are independent: for each one there is a message and a session
    state on which it is the only gate that fails, so `SingleFailingGate`
    covers all eleven early returns.
   */
  lemma EveryGateCanFailAlone(r: Reason)
    ensures exists m: Message, vc: map<GuildId, ChannelId>, mon: map<GuildId, ChannelId>, c: bool ::
      !Passes(r, m, vc, mon, c) && forall e :: e != r ==> Passes(e, m, vc, mon, c)
  {
    var alice := Author(1, "Alice", true, Some(VoiceState(Some(ChannelRef(70, true)), true, false)));
    var m := Message(Some(5), 11, alice, "hello");
    var vc, mon, c := map[5 := 70], map[5 := 11], true;
    match r {
      case NoGuild => m := m.(guild := None);
      case NoVoiceClient => vc := map[];
      case NotMonitored => mon := map[];
      case WrongChannel => m := m.(channel := 12);
      case NotMember => m := m.(author := alice.(isMember := false));
      case NotInVoice => m := m.(author := alice.(voice := None));
      case NotConnected => c := false;
      case NotColocated =>
        m := m.(author := alice.(voice := Some(VoiceState(Some(ChannelRef(71, true)), true, false))));
      case NotMuted =>
        m := m.(author := alice.(voice := Some(VoiceState(Some(ChannelRef(70, true)), false, false))));
      case IsCommand => m := m.(content := "!hi");
      case Blank => m := m.(content := " ");
    }
    assert !("!" <= "hello") && !IsSpace("hello"[0]) && !IsSpace("!hi"[0]);
    assert !Passes(r, m, vc, mon, c);
    forall e | e != r ensures Passes(e, m, vc, mon, c) {
      match e
      case NoGuild =>
      case NoVoiceClient =>
      case NotMonitored =>
      case WrongChannel =>
      case NotMember =>
      case NotInVoice =>
      case NotConnected =>
      case NotColocated =>
      case NotMuted =>
      case IsCommand =>
      case Blank =>
    }
  }

  /**
    The guards of `speak_text_command`: a guild, a connected client for it,
    and the monitored channel of that guild. No member, voice-state or mute
    check is made.
   */
  function SpeakCommandDecision(guild: Option<GuildId>, channel: ChannelId, author: Author, text: string,
                                voiceClients: map<GuildId, ChannelId>,
                                monitored: map<GuildId, ChannelId>, connected: bool): (d: Decision)
  {
    if guild.None? then Ignore(NoGuild)
    else if guild.value !in voiceClients || !connected then Ignore(NotConnected)
    else if guild.value !in monitored || channel != monitored[guild.value] then Ignore(WrongChannel)
    else Convert(author.id, guild.value, CommandSpeech(author.displayName, text))
  }

  /**
    `!s` speaks exactly when the guild has a connected client and the command
    came from its monitored channel, whatever the author's voice state, and
    the text is `display_name + " says: " + text + " "`.
   */
  lemma SpeakCommandGuards(guild: Option<GuildId>, channel: ChannelId, author: Author, text: string,
                           voiceClients: map<GuildId, ChannelId>,
                           monitored: map<GuildId, ChannelId>, connected: bool)
    ensures SpeakCommandDecision(guild, channel, author, text, voiceClients, monitored, connected).Convert?
        <==> guild.Some? && guild.value in voiceClients && connected
             && guild.value in monitored && monitored[guild.value] == channel
    ensures SpeakCommandDecision(guild, channel, author, text, voiceClients, monitored, connected).Convert? ==>
      SpeakCommandDecision(guild, channel, author, text, voiceClients, monitored, connected)
        == Convert(author.id, guild.value, author.displayName + " says: " + text + " ")
    ensures forall v :: (SpeakCommandDecision(guild, channel, author.(voice := v), text, voiceClients, monitored, connected).Convert?
        == SpeakCommandDecision(guild, channel, author, text, voiceClients, monitored, connected).Convert?)
  {
  }

  /**
    Whenever a muted member's message would be spoken automatically, the
    same member's `!s` in the same channel would be spoken too: the command
    path is the weaker gate.
   */
  lemma AutoImpliesCommand(m: Message, text: string, voiceClients: map<GuildId, ChannelId>,
                           monitored: map<GuildId, ChannelId>, connected: bool)
    requires CheckMutedUserTts(m, voiceClients, monitored, connected).Convert?
    ensures SpeakCommandDecision(m.guild, m.channel, m.author, text, voiceClients, monitored, connected).Convert?
  {
  }

  /**
    A self-muted member co-located with the bot, writing "hello" in the
    monitored channel, is spoken as "Alice says: hello"; the same message in
    another channel is ignored for the channel.
   */
  lemma MonitoredChannelScenario()
    ensures
      var alice := Author(1, "Alice", true, Some(VoiceState(Some(ChannelRef(70, true)), true, false)));
      var vc := map[5 := 70];
      var mon := map[5 := 11];
      CheckMutedUserTts(Message(Some(5), 11, alice, "hello"), vc, mon, true)
        == Convert(1, 5, "Alice says: hello")
      && CheckMutedUserTts(Message(Some(5), 12, alice, "hello"), vc, mon, true) == Ignore(WrongChannel)
  {
    var hello := "hello";
    assert !("!" <= hello);
    assert !IsSpace(hello[0]);
  }
}
