/**
 * The FluidSynth and libsmf objects the plugin allocates and frees, seen from
 * outside: which synths, players and MIDI files are alive, and the little of
 * their state the plugin's decisions depend on. Every call that can fail
 * takes its failure as a boolean input.
 */
module Engine {

  /** An address handed out by FluidSynth or libsmf; NULL is 0. */
  type Ptr = nat

  const NULL: Ptr := 0

  /**
   * A fluid_synth_t: the number of soundfonts it holds, whether MIDI channel
   * state from earlier playback remains, and whether voices are still sounding.
   */
  datatype Synth = Synth(fonts: nat, channelState: bool, voices: bool)

  /** A synth that carries nothing over from earlier playback. */
  predicate Quiet(s: Synth)
  {
    !s.channelState && !s.voices
  }

  /** A fluid_player_t: the synth it drives, whether a MIDI file was added, whether playback began. */
  datatype Player = Player(synth: Ptr, hasFile: bool, started: bool)

  /** All live objects, and the next address the allocator hands out. */
  datatype Engine = Engine(synths: map<Ptr, Synth>, players: map<Ptr, Player>, smfs: set<Ptr>, next: Ptr)

  /** Every live object has a non-NULL address below the allocator's mark. */
  ghost predicate Valid(e: Engine)
  {
    0 < e.next
    && (forall q :: q in e.synths ==> 0 < q < e.next)
    && (forall q :: q in e.players ==> 0 < q < e.next)
    && (forall q :: q in e.smfs ==> 0 < q < e.next)
  }

  /** An address that no live object uses. */
  ghost predicate Unused(e: Engine, q: Ptr)
  {
    q !in e.synths && q !in e.players && q !in e.smfs
  }

  /** Nothing allocated yet. */
  function Start(): (e: Engine)
    ensures Valid(e)
  {
    Engine(map[], map[], {}, 1)
  }

  /** new_fluid_synth: a synth with no soundfont and no state, or NULL. */
  function NewSynth(e: Engine, fails: bool): (r: (Engine, Ptr))
    requires Valid(e)
    ensures Valid(r.0)
    ensures fails <==> r.1 == NULL
    ensures !fails ==> Unused(e, r.1)
  {
    if fails then (e, NULL)
    else (e.(synths := e.synths[e.next := Synth(0, false, false)], next := e.next + 1), e.next)
  }

  /** delete_fluid_synth */
  function DeleteSynth(e: Engine, s: Ptr): (r: Engine)
    requires Valid(e) && s in e.synths
    ensures Valid(r)
  {
    e.(synths := e.synths - {s})
  }

  /**
   * fluid_synth_system_reset, modelled as clearing MIDI channel state only.
   * Together with AllSoundsOff, which is modelled as silencing the voices, it
   * makes a synth Quiet, so the model needs both calls, as the C makes both.
   */
  function SystemReset(e: Engine, s: Ptr): (r: Engine)
    requires Valid(e) && s in e.synths
    ensures Valid(r)
  {
    e.(synths := e.synths[s := e.synths[s].(channelState := false)])
  }

  /** fluid_synth_all_sounds_off(synth, -1), modelled as silencing every voice on every channel. */
  function AllSoundsOff(e: Engine, s: Ptr): (r: Engine)
    requires Valid(e) && s in e.synths
    ensures Valid(r)
  {
    e.(synths := e.synths[s := e.synths[s].(voices := false)])
  }

  /** fluid_synth_sfcount */
  function SfCount(e: Engine, s: Ptr): nat
    requires s in e.synths
  {
    e.synths[s].fonts
  }

  /** fluid_synth_sfload: one more soundfont, or FLUID_FAILED and no change. */
  function SfLoad(e: Engine, s: Ptr, fails: bool): (r: (Engine, bool))
    requires Valid(e) && s in e.synths
    ensures Valid(r.0)
  {
    if fails then (e, false)
    else (e.(synths := e.synths[s := e.synths[s].(fonts := e.synths[s].fonts + 1)]), true)
  }

  /** new_fluid_player: a player bound to synth s, or NULL. */
  function NewPlayer(e: Engine, s: Ptr, fails: bool): (r: (Engine, Ptr))
    requires Valid(e) && s in e.synths
    ensures Valid(r.0)
    ensures fails <==> r.1 == NULL
    ensures !fails ==> Unused(e, r.1)
  {
    if fails then (e, NULL)
    else (e.(players := e.players[e.next := Player(s, false, false)], next := e.next + 1), e.next)
  }

  /** delete_fluid_player */
  function DeletePlayer(e: Engine, q: Ptr): (r: Engine)
    requires Valid(e) && q in e.players
    ensures Valid(r)
  {
    e.(players := e.players - {q})
  }

  /** fluid_player_add: the MIDI file is queued, or FLUID_FAILED and no change. */
  function PlayerAdd(e: Engine, q: Ptr, fails: bool): (r: (Engine, bool))
    requires Valid(e) && q in e.players
    ensures Valid(r.0)
  {
    if fails then (e, false)
    else (e.(players := e.players[q := e.players[q].(hasFile := true)]), true)
  }

  /**
   * fluid_player_play: playback begins, and from then on the synth it drives
   * carries channel state and sounding voices; or FLUID_FAILED and no change.
   */
  function PlayerPlay(e: Engine, q: Ptr, fails: bool): (r: (Engine, bool))
    requires Valid(e) && q in e.players && e.players[q].synth in e.synths
    ensures Valid(r.0)
  {
    if fails then (e, false)
    else
      var s := e.players[q].synth;
      (e.(players := e.players[q := e.players[q].(started := true)],
          synths := e.synths[s := e.synths[s].(channelState := true, voices := true)]), true)
  }

  /** smf_load: a parsed MIDI file, or NULL. */
  function SmfLoad(e: Engine, fails: bool): (r: (Engine, Ptr))
    requires Valid(e)
    ensures Valid(r.0)
    ensures fails <==> r.1 == NULL
    ensures !fails ==> Unused(e, r.1)
  {
    if fails then (e, NULL)
    else (e.(smfs := e.smfs + {e.next}, next := e.next + 1), e.next)
  }

  /** smf_delete */
  function SmfDelete(e: Engine, m: Ptr): (r: Engine)
    requires Valid(e) && m in e.smfs
    ensures Valid(r)
  {
    e.(smfs := e.smfs - {m})
  }
}
