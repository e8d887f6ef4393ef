/**
  Voice preference assignment of `TTSBot`: the six default voices handed out
  by user id, the nine-voice catalog an explicit choice is checked against,
  and the map updates `get_user_voice` and `set_voice` make to `user_voices`.
 */
module Voices {
  import opened Ids

  type VoiceName = string

  /** The defaults `get_user_voice` picks from, in order. */
  const DefaultVoices: seq<VoiceName> := [
    "en-US-AriaNeural",
    "en-US-JennyNeural",
    "en-US-GuyNeural",
    "en-US-AndrewNeural",
    "en-US-EmmaNeural",
    "en-US-BrianNeural"
  ]

  /** The catalog `set_voice` accepts a choice from. */
  const AvailableVoices: seq<VoiceName> := [
    "en-US-AriaNeural",
    "en-US-JennyNeural",
    "en-US-GuyNeural",
    "en-US-AndrewNeural",
    "en-US-EmmaNeural",
    "en-US-BrianNeural",
    "en-GB-SoniaNeural",
    "en-GB-RyanNeural",
    "en-AU-NatashaNeural"
  ]

  /**
    `voices[user_id % len(voices)]`. Python's `%` with a positive divisor
    floors, so its result lies in 0..5 for negative ids too, as Dafny's
    Euclidean `%` does; the default is therefore always one of the six and,
    through them, a catalog voice.
   */
  function DefaultVoice(user: UserId): (v: VoiceName)
    ensures v in DefaultVoices
    ensures v in AvailableVoices
  {
    DefaultVoices[user % |DefaultVoices|]
  }

  /** Every stored voice is a catalog voice. */
  ghost predicate AllInCatalog(voices: map<UserId, VoiceName>)
  {
    forall u :: u in voices ==> voices[u] in AvailableVoices
  }

  /** What `get_user_voice(user)` returns on the map `voices`. */
  function VoiceOf(voices: map<UserId, VoiceName>, user: UserId): VoiceName
  {
    if user in voices then voices[user] else DefaultVoice(user)
  }

  /** The map `get_user_voice(user)` leaves behind: the default filled in when missing. */
  function WithDefault(voices: map<UserId, VoiceName>, user: UserId): (m: map<UserId, VoiceName>)
  {
    if user in voices then voices else voices[user := DefaultVoice(user)]
  }

  /** The map `set_voice(voice_name=name)` leaves behind. */
  function Choose(voices: map<UserId, VoiceName>, user: UserId, name: VoiceName): (m: map<UserId, VoiceName>)
  {
    if name in AvailableVoices then voices[user := name] else voices
  }

  /**
    A user with no entry gets `DefaultVoices[user % 6]`, and that value is
    now stored for them; a user with an entry gets it back and the map does
    not change.
   */
  lemma LookupStoresDefault(voices: map<UserId, VoiceName>, user: UserId)
    ensures user !in voices ==>
      VoiceOf(voices, user) == DefaultVoices[user % 6]
      && WithDefault(voices, user) == voices[user := DefaultVoices[user % 6]]
    ensures user in voices ==>
      VoiceOf(voices, user) == voices[user] && WithDefault(voices, user) == voices
    ensures user in WithDefault(voices, user)
      && WithDefault(voices, user)[user] == VoiceOf(voices, user)
  {
  }

  /** Looking up twice gives the same voice and the same map as looking up once. */
  lemma LookupIdempotent(voices: map<UserId, VoiceName>, user: UserId)
    ensures VoiceOf(WithDefault(voices, user), user) == VoiceOf(voices, user)
    ensures WithDefault(WithDefault(voices, user), user) == WithDefault(voices, user)
  {
  }

  /** A lookup never touches other users' entries and never removes one. */
  lemma LookupFrame(voices: map<UserId, VoiceName>, user: UserId, other: UserId)
    requires other != user
    ensures other in WithDefault(voices, user) <==> other in voices
    ensures other in voices ==> WithDefault(voices, user)[other] == voices[other]
    ensures voices.Keys <= WithDefault(voices, user).Keys
  {
  }

  /** A catalog name overwrites only the chooser's entry; any other name changes nothing. */
  lemma ChooseValidates(voices: map<UserId, VoiceName>, user: UserId, name: VoiceName)
    ensures name in AvailableVoices ==>
      user in Choose(voices, user, name) && Choose(voices, user, name)[user] == name
      && VoiceOf(Choose(voices, user, name), user) == name
    ensures name !in AvailableVoices ==> Choose(voices, user, name) == voices
    ensures forall u :: u != user ==>
      (u in Choose(voices, user, name) <==> u in voices)
      && (u in voices ==> Choose(voices, user, name)[u] == voices[u])
  {
  }

  /** Neither operation can bring a non-catalog voice into a catalog-only map. */
  lemma CatalogPreserved(voices: map<UserId, VoiceName>, user: UserId, name: VoiceName)
    requires AllInCatalog(voices)
    ensures AllInCatalog(WithDefault(voices, user))
    ensures AllInCatalog(Choose(voices, user, name))
    ensures VoiceOf(voices, user) in AvailableVoices
  {
  }
}
