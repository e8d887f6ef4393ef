/**
  The `TTSBot` object and the command handlers that update it. Its five
  dictionaries are fields that the methods reassign; the calls into Discord,
  edge-tts and the file system are inputs or ghost logs:

  - `connected` / a `Tick` is what the voice client reports,
  - `audio` is the temporary file the synthesizer filled, or `None` when it raised,
  - `connectOk` is whether `voice_channel.connect()` succeeded,
  - `requests`, `played` and `released` record the synthesis requests, the
    paths handed to `voice_client.play` and the paths handed to `os.unlink`,
  - `saves` counts the calls of `save_user_voices`.
 */
module Bot {
  import opened Wrappers
  import opened Ids
  import opened Voices
  import opened Eligibility
  import opened Playback

  /** One call of the synthesizer: the text to speak and the voice to speak it in. */
  datatype SynthRequest = SynthRequest(text: string, voice: VoiceName)

  /** The replies of `!voice`. */
  datatype VoiceReply = CurrentVoice(voice: VoiceName) | VoiceSet(voice: VoiceName) | InvalidVoice

  /** The outcomes of `!join`; `Silent` is the early return for a non-member author. */
  datatype JoinReply = Silent | NotInGuild | NotInVoiceChannel | ConnectFailed | Joined(channel: ChannelId)

  /** The outcomes of `!leave`. */
  datatype LeaveReply = LeaveNotInGuild | Left | NotActive

  /** `audio_players.get(guild, False)` */
  function PlayerFlag(players: map<GuildId, bool>, guild: GuildId): bool
  {
    guild in players && players[guild]
  }

  class TtsBot {
    var voiceClients: map<GuildId, ChannelId>
    var monitoredChannels: map<GuildId, ChannelId>
    var userVoices: map<UserId, VoiceName>
    var audioQueues: map<GuildId, seq<AudioPath>>
    var audioPlayers: map<GuildId, bool>
    var saves: nat
    ghost var requests: seq<SynthRequest>
    ghost var played: seq<AudioPath>
    ghost var released: seq<AudioPath>

    /**
      Every guild with a voice client has a monitored channel and a queue,
      and no other guild has a monitored channel.
     */
    ghost predicate Valid()
      reads this
    {
      voiceClients.Keys == monitoredChannels.Keys && voiceClients.Keys <= audioQueues.Keys
    }

    /** `TTSBot()`, with `loaded` the map `load_user_voices` read (empty when the file is absent or unreadable). */
    constructor (loaded: map<UserId, VoiceName>)
      ensures Valid()
      ensures voiceClients == map[] && monitoredChannels == map[] && audioQueues == map[] && audioPlayers == map[]
      ensures userVoices == loaded && saves == 0
      ensures requests == [] && played == [] && released == []
    {
      voiceClients, monitoredChannels, audioQueues, audioPlayers := map[], map[], map[], map[];
      userVoices, saves := loaded, 0;
      requests, played, released := [], [], [];
    }

    /** `get_user_voice`: the stored voice, after storing and saving the default for a new user. */
    method GetUserVoice(user: UserId) returns (voice: VoiceName)
      modifies this`userVoices, this`saves
      ensures voice == VoiceOf(old(userVoices), user)
      ensures userVoices == WithDefault(old(userVoices), user)
      ensures saves == old(saves) + (if user in old(userVoices) then 0 else 1)
      ensures AllInCatalog(old(userVoices)) ==> AllInCatalog(userVoices) && voice in AvailableVoices
    {
      if user !in userVoices {
        userVoices := userVoices[user := DefaultVoice(user)];
        saves := saves + 1;
      }
      voice := userVoices[user];
    }

    /** `set_voice`: without a name, the current voice; with a name, the choice if it is in the catalog. */
    method SetVoice(user: UserId, name: Option<VoiceName>) returns (reply: VoiceReply)
      modifies this`userVoices, this`saves
      ensures name.None? ==>
        reply == CurrentVoice(VoiceOf(old(userVoices), user))
        && userVoices == WithDefault(old(userVoices), user)
        && saves == old(saves) + (if user in old(userVoices) then 0 else 1)
      ensures name.Some? ==>
        userVoices == Choose(old(userVoices), user, name.value)
        && reply == (if name.value in AvailableVoices then VoiceSet(name.value) else InvalidVoice)
        && saves == old(saves) + (if name.value in AvailableVoices then 1 else 0)
      ensures AllInCatalog(old(userVoices)) ==> AllInCatalog(userVoices)
    {
      if name.None? {
        var current := GetUserVoice(user);
        reply := CurrentVoice(current);
        return;
      }
      if name.value in AvailableVoices {
        userVoices := userVoices[user := name.value];
        saves := saves + 1;
        reply := VoiceSet(name.value);
      } else {
        reply := InvalidVoice;
      }
    }

    /**
      One iteration of the `start_audio_player` loop for `guild`, the client
      reporting `t`. When the guild's queue has been deleted (by `!leave`),
      reading it raises; when playing the dequeued path raises, the path is
      neither played nor unlinked. Either way the `finally` clause clears
      the flag.
     */
    method PlayerStep(guild: GuildId, t: Tick) returns (it: Iteration)
      modifies this`audioQueues, this`audioPlayers, this`played, this`released
      ensures guild !in old(audioQueues) ==>
        it == Exit && audioQueues == old(audioQueues) && audioPlayers == old(audioPlayers)[guild := false]
        && played == old(played) && released == old(released)
      ensures guild in old(audioQueues) ==>
        && it == Iterate(old(audioQueues)[guild], t)
        && audioQueues == old(audioQueues)[guild := Remaining(old(audioQueues)[guild], it)]
        && audioPlayers == (if Ends(it) then old(audioPlayers)[guild := false] else old(audioPlayers))
        && played == old(played) + PlayedBy(it) && released == old(released) + ReleasedBy(it)
    {
      if guild !in audioQueues {
        audioPlayers := audioPlayers[guild := false];
        return Exit;
      }
      var q := audioQueues[guild];
      if q == [] && !t.connected {
        audioPlayers := audioPlayers[guild := false];
        return Exit;
      }
      if q == [] {
        return Wait;
      }
      var audioFile := q[0];
      audioQueues := audioQueues[guild := q[1..]];
      if audioFile == "" {
        return Skip;
      }
      if t.connected && !t.playing {
        if t.playFails {
          audioPlayers := audioPlayers[guild := false];
          return Fail(audioFile);
        }
        played := played + [audioFile];
        it := Play(audioFile);
      } else {
        it := Drop(audioFile);
      }
      released := released + [audioFile];
    }

    /**
      `start_audio_player`: nothing when the guild's flag is already set;
      otherwise set it and run the loop on the ticks.
     */
    method StartAudioPlayer(guild: GuildId, ticks: seq<Tick>) returns (started: bool)
      modifies this`audioQueues, this`audioPlayers, this`played, this`released
      ensures started == !PlayerFlag(old(audioPlayers), guild)
      ensures !started ==>
        audioQueues == old(audioQueues) && audioPlayers == old(audioPlayers)
        && played == old(played) && released == old(released)
      ensures started && guild in old(audioQueues) ==>
        var r := RunLoop(old(audioQueues)[guild], ticks);
        audioQueues == old(audioQueues)[guild := r.rest]
        && audioPlayers == old(audioPlayers)[guild := !r.exited]
        && played == old(played) + r.played && released == old(released) + r.released
      ensures started && guild !in old(audioQueues) ==>
        audioQueues == old(audioQueues) && audioPlayers == old(audioPlayers)[guild := ticks == []]
        && played == old(played) && released == old(released)
    {
      started := !PlayerFlag(audioPlayers, guild);
      if started {
        audioPlayers := audioPlayers[guild := true];
        var _ := RunAudioPlayer(guild, ticks);
      }
    }

    /**
      The `while` loop of `start_audio_player`, one iteration per tick, until
      it ends (the `finally` clause then clears the flag) or the ticks run
      out (the loop is then still running, `running` is true and the flag
      is left as it was).
     */
    method RunAudioPlayer(guild: GuildId, ticks: seq<Tick>) returns (running: bool)
      modifies this`audioQueues, this`audioPlayers, this`played, this`released
      ensures guild in old(audioQueues) ==>
        var r := RunLoop(old(audioQueues)[guild], ticks);
        running == !r.exited
        && audioQueues == old(audioQueues)[guild := r.rest]
        && played == old(played) + r.played && released == old(released) + r.released
      ensures guild !in old(audioQueues) ==>
        running == (ticks == []) && audioQueues == old(audioQueues)
        && played == old(played) && released == old(released)
      ensures audioPlayers == if running then old(audioPlayers) else old(audioPlayers)[guild := false]
    {
      if guild !in audioQueues {
        running := true;
        if ticks != [] {
          var _ := PlayerStep(guild, ticks[0]);
          running := false;
        }
      } else {
        running := DrainQueue(guild, ticks);
      }
    }

    /** The loop of `RunAudioPlayer` on a guild whose queue exists. */
    method DrainQueue(guild: GuildId, ticks: seq<Tick>) returns (running: bool)
      requires guild in audioQueues
      modifies this`audioQueues, this`audioPlayers, this`played, this`released
      ensures var r := RunLoop(old(audioQueues)[guild], ticks);
        running == !r.exited
        && audioQueues == old(audioQueues)[guild := r.rest]
        && played == old(played) + r.played && released == old(released) + r.released
      ensures audioPlayers == if running then old(audioPlayers) else old(audioPlayers)[guild := false]
    {
      running := true;
      ghost var q0 := audioQueues[guild];
      ghost var acc := Idle(q0);
      TracksStart(q0, ticks);
      var i := 0;
      while running && i < |ticks|
        invariant 0 <= i <= |ticks|
        invariant guild in audioQueues && audioQueues == old(audioQueues)[guild := acc.rest]
        invariant audioPlayers == if running then old(audioPlayers) else old(audioPlayers)[guild := false]
        invariant played == old(played) + acc.played && released == old(released) + acc.released
        invariant Tracks(q0, ticks, i, acc, running)
        decreases |ticks| - i
      {
        var it := PlayerStep(guild, ticks[i]);
        TracksStep(q0, ticks, i, acc, it);
        acc := Then(acc, StepRun(acc.rest, it));
        running := !Ends(it);
        i := i + 1;
      }
      if running {
        TracksDone(q0, ticks, acc);
      }
    }

    /**
      What `speak_text` does once the synthesizer has run: enqueue the file
      it produced (nothing when it raised) and, when the guild's flag is not
      set, run the player on the ticks.
     */
    twostate predicate SpeakTextEffect(guild: GuildId, audio: Option<AudioPath>, ticks: seq<Tick>)
      reads this
    {
      if audio.None? then
        audioQueues == old(audioQueues) && audioPlayers == old(audioPlayers)
        && played == old(played) && released == old(released)
      else
        var q := Enqueue(old(audioQueues), guild, audio.value);
        if PlayerFlag(old(audioPlayers), guild) then
          audioQueues == q && audioPlayers == old(audioPlayers)
          && played == old(played) && released == old(released)
        else
          var r := RunLoop(q[guild], ticks);
          audioQueues == q[guild := r.rest] && audioPlayers == old(audioPlayers)[guild := !r.exited]
          && played == old(played) + r.played && released == old(released) + r.released
    }

    /** `speak_text(voice_client, text, voice, guild)`. */
    method SpeakText(guild: GuildId, text: string, voice: VoiceName, audio: Option<AudioPath>, ticks: seq<Tick>)
      modifies this`requests, this`audioQueues, this`audioPlayers, this`played, this`released
      ensures requests == old(requests) + [SynthRequest(text, voice)]
      ensures SpeakTextEffect(guild, audio, ticks)
    {
      requests := requests + [SynthRequest(text, voice)];
      if audio.None? {
        return;
      }
      audioQueues := Enqueue(audioQueues, guild, audio.value);
      if !PlayerFlag(audioPlayers, guild) {
        var _ := StartAudioPlayer(guild, ticks);
      }
    }

    /**
      `check_muted_user_tts(message)`, with `connected` what the guild's
      client reports. An ignored message changes nothing; a converted one
      looks up (and possibly assigns) the author's voice and speaks.
     */
    method CheckMutedUserTts(m: Message, connected: bool, audio: Option<AudioPath>, ticks: seq<Tick>)
      returns (d: Decision)
      modifies this`userVoices, this`saves, this`requests, this`audioQueues, this`audioPlayers,
               this`played, this`released
      ensures d == Eligibility.CheckMutedUserTts(m, voiceClients, monitoredChannels, connected)
      ensures d.Ignore? ==>
        userVoices == old(userVoices) && saves == old(saves) && requests == old(requests)
        && audioQueues == old(audioQueues) && audioPlayers == old(audioPlayers)
        && played == old(played) && released == old(released)
      ensures d.Convert? ==>
        userVoices == WithDefault(old(userVoices), d.author)
        && saves == old(saves) + (if d.author in old(userVoices) then 0 else 1)
        && requests == old(requests) + [SynthRequest(d.text, VoiceOf(old(userVoices), d.author))]
        && SpeakTextEffect(d.guild, audio, ticks)
    {
      d := Eligibility.CheckMutedUserTts(m, voiceClients, monitoredChannels, connected);
      if d.Convert? {
        var voice := GetUserVoice(d.author);
        SpeakText(d.guild, d.text, voice, audio, ticks);
      }
    }

    /** `speak_text_command` (`!s text`), with `connected` what the guild's client reports. */
    method SpeakTextCommand(guild: Option<GuildId>, channel: ChannelId, author: Author, text: string,
                            connected: bool, audio: Option<AudioPath>, ticks: seq<Tick>)
      returns (d: Decision)
      modifies this`userVoices, this`saves, this`requests, this`audioQueues, this`audioPlayers,
               this`played, this`released
      ensures d == SpeakCommandDecision(guild, channel, author, text, voiceClients, monitoredChannels, connected)
      ensures d.Ignore? ==>
        userVoices == old(userVoices) && saves == old(saves) && requests == old(requests)
        && audioQueues == old(audioQueues) && audioPlayers == old(audioPlayers)
        && played == old(played) && released == old(released)
      ensures d.Convert? ==>
        userVoices == WithDefault(old(userVoices), author.id)
        && saves == old(saves) + (if author.id in old(userVoices) then 0 else 1)
        && requests == old(requests) + [SynthRequest(d.text, VoiceOf(old(userVoices), author.id))]
        && SpeakTextEffect(d.guild, audio, ticks)
    {
      d := SpeakCommandDecision(guild, channel, author, text, voiceClients, monitoredChannels, connected);
      if d.Convert? {
        var voice := GetUserVoice(author.id);
        SpeakText(d.guild, d.text, voice, audio, ticks);
      }
    }

    /**
      `join_voice_channel`: after the author checks, connect; on success
      record the client and the monitored channel, keep an existing queue
      (or create an empty one) and clear the player flag.
     */
    method JoinVoiceChannel(author: Author, guild: Option<GuildId>, textChannel: ChannelId, connectOk: bool)
      returns (reply: JoinReply)
      requires Valid()
      modifies this`voiceClients, this`monitoredChannels, this`audioQueues, this`audioPlayers
      ensures Valid()
      ensures !author.isMember ==> reply == Silent
      ensures author.isMember && guild.None? ==> reply == NotInGuild
      ensures author.isMember && guild.Some?
              && (author.voice.None? || author.voice.value.channel.None?
                  || !author.voice.value.channel.value.isVoiceChannel)
              ==> reply == NotInVoiceChannel
      ensures reply.Joined? || reply == ConnectFailed <==>
        author.isMember && guild.Some? && author.voice.Some? && author.voice.value.channel.Some?
        && author.voice.value.channel.value.isVoiceChannel
      ensures reply.Joined? <==> (reply.Joined? || reply == ConnectFailed) && connectOk
      ensures reply.Joined? ==>
        var g := guild.value;
        reply.channel == author.voice.value.channel.value.id
        && voiceClients == old(voiceClients)[g := reply.channel]
        && monitoredChannels == old(monitoredChannels)[g := textChannel]
        && audioQueues == (if g in old(audioQueues) then old(audioQueues) else old(audioQueues)[g := []])
        && audioPlayers == old(audioPlayers)[g := false]
      ensures !reply.Joined? ==>
        voiceClients == old(voiceClients) && monitoredChannels == old(monitoredChannels)
        && audioQueues == old(audioQueues) && audioPlayers == old(audioPlayers)
    {
      if !author.isMember {
        return Silent;
      }
      if guild.None? {
        return NotInGuild;
      }
      if author.voice.None? {
        return NotInVoiceChannel;
      }
      if author.voice.value.channel.None? || !author.voice.value.channel.value.isVoiceChannel {
        return NotInVoiceChannel;
      }
      var voiceChannel := author.voice.value.channel.value.id;
      var g := guild.value;
      if !connectOk {
        return ConnectFailed;
      }
      voiceClients := voiceClients[g := voiceChannel];
      monitoredChannels := monitoredChannels[g := textChannel];
      if g !in audioQueues {
        audioQueues := audioQueues[g := []];
      }
      audioPlayers := audioPlayers[g := false];
      reply := Joined(voiceChannel);
    }

    /** The unlink loop of `leave`: every file still queued for `g` is released, front first. */
    method ReleaseQueued(g: GuildId)
      requires g in audioQueues
      modifies this`audioQueues, this`released
      ensures audioQueues == old(audioQueues)[g := []]
      ensures released == old(released) + old(audioQueues)[g]
    {
      ghost var q0 := audioQueues[g];
      ghost var n := 0;
      while audioQueues[g] != []
        invariant g in audioQueues && audioQueues == old(audioQueues)[g := audioQueues[g]]
        invariant 0 <= n <= |q0| && audioQueues[g] == q0[n..]
        invariant released == old(released) + q0[..n]
        decreases |audioQueues[g]|
      {
        var audioFile := audioQueues[g][0];
        audioQueues := audioQueues[g := audioQueues[g][1..]];
        released := released + [audioFile];
        assert q0[..n + 1] == q0[..n] + [audioFile];
        n := n + 1;
      }
      assert q0[..n] == q0;
    }

    /**
      `leave_voice_channel`: for an active guild, forget its client and
      monitored channel, unlink every path still queued, and delete its
      queue and player flag. Other guilds are untouched.
     */
    method LeaveVoiceChannel(guild: Option<GuildId>) returns (reply: LeaveReply)
      requires Valid()
      modifies this`voiceClients, this`monitoredChannels, this`audioQueues, this`audioPlayers, this`released
      ensures Valid()
      ensures guild.None? ==> reply == LeaveNotInGuild
      ensures guild.Some? ==> (reply == Left <==> guild.value in old(voiceClients))
      ensures reply == Left ==>
        var g := guild.value;
        voiceClients == old(voiceClients) - {g} && monitoredChannels == old(monitoredChannels) - {g}
        && audioQueues == old(audioQueues) - {g} && audioPlayers == old(audioPlayers) - {g}
        && released == old(released) + (if g in old(audioQueues) then old(audioQueues)[g] else [])
      ensures reply != Left ==>
        voiceClients == old(voiceClients) && monitoredChannels == old(monitoredChannels)
        && audioQueues == old(audioQueues) && audioPlayers == old(audioPlayers) && released == old(released)
    {
      if guild.None? {
        return LeaveNotInGuild;
      }
      var g := guild.value;
      if g !in voiceClients {
        return NotActive;
      }
      voiceClients := voiceClients - {g};
      if g in monitoredChannels {
        monitoredChannels := monitoredChannels - {g};
      }
      if g in audioQueues {
        ReleaseQueued(g);
        audioQueues := audioQueues - {g};
      }
      if g in audioPlayers {
        audioPlayers := audioPlayers[g := false];
        audioPlayers := audioPlayers - {g};
      }
      reply := Left;
    }
  }

  /**
    Leaving an active guild and joining it again starts it over: an empty
    queue, a cleared player flag and the new monitored channel, whatever was
    queued before, which has all been released.
   */
  method RejoinStartsEmpty(bot: TtsBot, g: GuildId, author: Author, textChannel: ChannelId)
    requires bot.Valid() && g in bot.voiceClients
    requires author.isMember && author.voice.Some? && author.voice.value.channel.Some?
    requires author.voice.value.channel.value.isVoiceChannel
    modifies bot
    ensures bot.Valid()
    ensures g in bot.audioQueues && bot.audioQueues[g] == [] && !PlayerFlag(bot.audioPlayers, g)
    ensures g in bot.monitoredChannels && bot.monitoredChannels[g] == textChannel
    ensures bot.released == old(bot.released) + old(bot.audioQueues)[g]
  {
    var left := bot.LeaveVoiceChannel(Some(g));
    var joined := bot.JoinVoiceChannel(author, Some(g), textChannel, true);
  }
}
