# discord-tts core, modelled in Dafny

This project models the stateful core of the discord-tts bot (`main.py`). The bot reads chat messages aloud in a Discord voice channel:

- For members who are muted in the bot's voice channel, it automatically speaks the messages they write in the monitored text channel.
- For anyone, it speaks the text of `!s <text>` in that channel.

Each user gets a voice: the stored choice, or a deterministic default picked from the user id.

The model has six modules:

- `Wrappers` and `Ids`: `Option` and the id types (guilds, channels and users are `int`, as in Python).
- `PyText`: the two Python string operations the guards use.
  - `str.startswith` is `StartsWith`.
  - `str.isspace`/`str.strip` are `IsSpace`, `StripLeft`, `StripRight` and `Strip`, with the whitespace set of Python's `str.isspace`.
- `Voices`: the 6-name default list and the 9-name catalog of `!voice`.
  - `WithDefault` is the lazy default assignment of `get_user_voice`.
  - `Choose` is the validated choice of `set_voice`.
- `Eligibility`: the guard chain of `check_muted_user_tts` and the guards of `speak_text_command`, as pure functions.
  - They take records of the message, the author and its voice state, plus the `voice_clients` and `monitored_channels` maps.
  - They return `Ignore(reason)` or `Convert(author, guild, text)`.
  - `Passes(r, …)` states each gate's own test. A test that reads what an earlier gate establishes passes vacuously when that is missing, so every gate can be the only one that fails.
- `Playback`: one iteration of the `start_audio_player` loop as the pure function `Iterate`, and whole runs as `RunLoop` over a trace of `Tick`s.
  - A `Tick` is what `is_connected()` and `is_playing()` report at that iteration, and whether building the FFmpeg source or calling `play` raises there.
  - A run records what was dequeued (`taken`), what started playing (`played`), what was handed to `os.unlink` (`released`), the path left on disk when playing raised (`leaked`), and how many ticks it used.
- `Bot`: the class `TtsBot`.
  - It holds the five dictionaries of `TTSBot` as map fields. Each queue is a `seq` of paths.
  - It has a `saves` counter for `save_user_voices`.
  - It has ghost logs of synthesis requests, played paths and released (unlinked) paths.
  - Methods for `get_user_voice`, `set_voice`, `speak_text`, `start_audio_player`, `check_muted_user_tts`, `speak_text_command`, `join` and `leave` update those fields. Each is proved against the pure functions above.

Inputs stand in for the outside world:

- the `audio` parameter is the file the synthesizer produced, or `None` when `edge_tts` raised;
- `connectOk` is whether `voice_channel.connect()` succeeded;
- `connected` and the ticks are what the voice client reports.

Auto-converted speech uses `message.content` untrimmed (main.py:221); `!s` adds a trailing space (main.py:397).

## Model

| member | source | states |
|---|---|---|
| Voices.DefaultVoice | main.py:63-71 | the default for a user is an entry of the 6-name default list, hence also of the 9-name catalog |
| Voices.LookupStoresDefault | main.py:59-73 | a user with no entry gets `voices[user_id % 6]`, which is stored and returned; a user with an entry gets it back and the map is unchanged |
| Voices.LookupIdempotent | main.py:59-73 | looking a user up twice stores nothing more and returns the same voice |
| Voices.LookupFrame | main.py:61-72 | a lookup never adds, removes or changes another user's entry |
| Voices.ChooseValidates | main.py:335-353 | a name in the catalog overwrites only that user's entry; any other name leaves the map unchanged |
| Voices.CatalogPreserved | main.py:335-348 | if every stored voice is in the catalog, that stays true after a lookup or a choice, and every lookup returns a catalog voice |
| PyText.StripEmptyIffAllSpace | main.py:214 | `strip()` of a string is empty exactly when all its characters are whitespace, so the blank test may be read either way |
| Eligibility.ConvertIffAllGatesPass | main.py:170-221 | a message is converted exactly when every gate passes (guild, voice client, monitored channel, same text channel, member, voice state, connected, same voice channel, muted, not a command, not blank), and the text is `display_name + " says: " + content` |
| Eligibility.IgnoredAtFirstFailingGate | main.py:170-215 | a message is ignored for gate `r` exactly when `r` fails and every earlier gate passes |
| Eligibility.SingleFailingGate | main.py:170-215 | failing any single gate, with all others passing, yields no job, and yields exactly that gate as the reason |
| Eligibility.EveryGateCanFailAlone | main.py:170-215 | each of the eleven gates is independent: some message and session state fail it and pass all the others |
| Eligibility.SpeakCommandGuards | main.py:377-397 | `!s` converts exactly when there is a guild, a connected client and the monitored channel matches; the text is `display_name + " says: " + text + " "`; the author's voice state (mute or channel) plays no part |
| Eligibility.AutoImpliesCommand | main.py:377-393 | every message the auto path would convert would also pass the `!s` guards in the same channel |
| Eligibility.MonitoredChannelScenario | main.py:184-221 | a self-muted member in the bot's channel saying "hello" in the monitored channel is spoken as "Alice says: hello"; in another channel it is ignored for the channel |
| Playback.IterationOutcomes | main.py:114-149 | an iteration plays the front non-empty path only while the client is connected and idle and playing does not raise; it fails on that path only when playing raises; it drops the path when the client is disconnected or busy; the loop ends exactly when the queue is empty and the client disconnected, or when playing raised |
| Playback.RunIsFifo | main.py:117-122 | over any run, the dequeued paths followed by the remaining queue are the original queue: paths leave from the front, in order |
| Playback.RunReleasesEachOnce | main.py:122-149 | over any run, the non-empty dequeued paths are the unlinked ones, each once and in order, followed by at most one leaked path: the last one dequeued, whose playing raised and ended the loop; empty paths are skipped without unlinking |
| Playback.RunPlaysInOrder | main.py:129-142 | the played paths are a subsequence of the unlinked ones: no path is played that is not also released, and the order is kept |
| Playback.RunExitConditions | main.py:114-149 | a run uses its ticks in order and stops on the tick where the loop ends: there either the queue is empty and the client disconnected (nothing leaked), or the client is connected and idle and playing raised (one path leaked); it never ends while every tick sees the client connected and playing working |
| Playback.EnqueuedInOrder | main.py:92-95 | enqueuing appends at the tail of that guild's queue (creating it when missing) and leaves other guilds' queues alone; two paths enqueued in turn are dequeued in that order |
| Bot.TtsBot.constructor | main.py:30-47 | a fresh bot has no sessions, no logs and the loaded voice map |
| Bot.TtsBot.GetUserVoice | main.py:59-73 | returns the stored or default voice, stores the default for a new user, saves only then, and keeps every stored voice in the catalog |
| Bot.TtsBot.SetVoice | main.py:324-353 | without a name, replies with the current voice as `get_user_voice` does; with a name, stores and saves it when it is in the catalog and otherwise replies invalid and changes nothing |
| Bot.TtsBot.PlayerStep | main.py:114-149 | one loop iteration updates the queue, flag and logs as `Iterate` says; a deleted queue (after `!leave`) or a raising play ends the loop and clears the flag, the latter with the dequeued path neither played nor unlinked |
| Bot.TtsBot.StartAudioPlayer | main.py:104-149 | does nothing when the flag is already set; otherwise sets it, runs the loop as `RunLoop` says, and leaves the flag false exactly when the loop ended |
| Bot.TtsBot.RunAudioPlayer | main.py:113-149 | the loop's effect is that of `RunLoop` on the guild's queue, and the flag is cleared exactly when it ended |
| Bot.TtsBot.DrainQueue | main.py:114-145 | the loop over the ticks leaves the queue, the played and released logs and the flag as `RunLoop` computes them |
| Bot.TtsBot.SpeakText | main.py:75-102 | records one synthesis request; enqueues the file when synthesis succeeded; starts the player only when its flag is not set |
| Bot.TtsBot.CheckMutedUserTts | main.py:156-224 | the decision is the guard chain's; an ignored message changes no state; a converted one assigns the voice, requests synthesis of the formatted text in that voice and speaks it |
| Bot.TtsBot.SpeakTextCommand | main.py:374-398 | the decision is the `!s` guards'; a refusal changes no state; otherwise the voice is looked up and the text spoken |
| Bot.TtsBot.JoinVoiceChannel | main.py:246-284 | the guards run in source order; a successful connect records the client and overwrites the monitored channel, keeps an existing queue (creating an empty one otherwise) and clears the flag; any other outcome changes nothing; the session invariant is kept |
| Bot.TtsBot.ReleaseQueued | main.py:305-312 | the unlink loop empties the guild's queue and releases every queued path, front first |
| Bot.TtsBot.LeaveVoiceChannel | main.py:287-321 | on an active guild, removes the guild from all four maps and releases every still-queued path; otherwise changes nothing; other guilds are untouched; the session invariant is kept |
| Bot.RejoinStartsEmpty | main.py:267-317 | leaving an active guild and joining it again gives an empty queue, a cleared flag and the new monitored channel, with the old queue released |

## Left out

- Discord itself is not modelled. This covers the gateway, intents, command registration, `on_ready`, `on_message` dispatch (including its bot-author check) and the text of every `ctx.send` reply. These are I/O; the replies are the `JoinReply`, `LeaveReply`, `VoiceReply` and `Reason` values.
- `help_tts`, `voices` and `!test` are static text or a synthesis test, not bookkeeping.
- Reading and writing `user_voices.json` is file I/O and JSON parsing:
  - `load_user_voices`: the map it reads is the constructor's `loaded` parameter.
  - `save_user_voices`: modelled as the `saves` counter.
- The `edge_tts` call and temporary files are a foreign call:
  - the file it fills is the `audio` input;
  - a synthesis that raises is `audio == None`, so nothing is enqueued;
  - the temporary file that is then left behind is not tracked.
- `FFmpegPCMAudio`, `voice_client.play`, `connect()` and `disconnect()` are foreign calls.
  - The connect outcome is `connectOk`. An exception raised by `connect()` (for instance, already connected) is `connectOk == false`.
  - Playing is the `played` log. Whether building the FFmpeg source or calling `play` raises is the tick's `playFails`. Unlinking is the `released` log; a failing or empty-path `os.unlink` inside leave's `try` is still logged as released.
- `asyncio` interleaving is concurrency, which is not modelled:
  - one loop iteration is one atomic step with one `Tick`;
  - the inner `while voice_client.is_playing()` wait is part of that step;
  - the `asyncio.sleep` calls take no time.
- When `speak_text` starts the player, the model runs it to the end of the given ticks inside that call. A loop still running after `!leave` and `!join` is not modelled, nor is a second loop that the cleared flag lets `!join` start beside it. `PlayerStep` models a single iteration of such a stray loop (the KeyError case).
- Bot.TtsBot.StartAudioPlayer: a bounded trace stands in for the unbounded polling loop. When the ticks run out before the loop ends, the flag stays true, as it does while the real loop is still running.
- Voice channels are compared by id. `message.author.voice.channel != voice_client.channel` is modelled as the author's channel being absent or having a different id from the client's channel.
- The bot's own voice channel is the one recorded in `voiceClients` on `!join`. discord.py updates `voice_client.channel` when the bot is moved to another channel; the model does not track such moves. After a move, muted members in the new channel would be spoken and those in the old one ignored, and the model decides the other way round.
