/**
 * One opened MIDI file (struct fluidsynth_data): how it is built, step by step
 * with unwinding on failure, and how it is torn down; and what playing tracks
 * one after another does to the synth cache.
 */
module Session {
  import opened Optional
  import opened Engine
  import opened Pool

  /** Why opening failed; the file name or soundfont path is what the message quotes. */
  datatype Cause =
    | CantCreateSynth
    | CantLoadSoundfont(path: string)
    | CantCreatePlayer
    | CantLoadMidi(file: string)
    | CantPlayMidi(file: string)
    | CantLoadSmf(file: string)

  /** struct decoder_error as this plugin fills it: untouched, or one fatal error. */
  datatype ErrorRecord = NoError | Fatal(cause: Cause)

  /** The fields of struct fluidsynth_data. */
  datatype Data = Data(synth: Ptr, player: Ptr, smf: Ptr, error: ErrorRecord)

  /**
   * The process-wide settings fluidsynth_init leaves behind: the soundfont to
   * load (NULL when none is configured and the engine has no default), the
   * sample rate, and whether the plugin was built with libsmf (HAVE_SMF).
   */
  datatype Config = Config(soundfont: Option<string>, rate: int, haveSmf: bool)

  /** Whether each fallible call of the construction would fail if it were made. */
  datatype Outcomes = Outcomes(
    synthFails: bool, sfloadFails: bool, playerFails: bool,
    addFails: bool, playFails: bool, smfFails: bool)

  /**
   * What a session holds is alive and its own: its synth is one the sessions
   * hold, its player drives that synth and no other player does, its MIDI
   * file is loaded.
   */
  ghost predicate Held(p: Pool, owned: set<Ptr>, d: Data)
  {
    (d.synth != NULL ==> d.synth in owned)
    && (d.player != NULL ==>
          d.synth != NULL && d.player in p.engine.players && p.engine.players[d.player].synth == d.synth)
    && (d.synth != NULL ==>
          forall q :: q in p.engine.players && p.engine.players[q].synth == d.synth ==> q == d.player)
    && (d.smf != NULL ==> d.smf in p.engine.smfs)
  }

  /** The soundfonts of the synth Acquire will hand out: the parked one's, or none for a new one. */
  ghost function AcquiredFonts(p: Pool): nat
  {
    if p.slot != NULL && p.slot in p.engine.synths then p.engine.synths[p.slot].fonts else 0
  }

  /** A soundfont is configured and the synth about to be used holds none. */
  ghost predicate NeedsLoad(p: Pool, cfg: Config)
  {
    cfg.soundfont.Some? && AcquiredFonts(p) == 0
  }

  /** No call that the construction actually makes fails. */
  ghost predicate Succeeds(p: Pool, cfg: Config, o: Outcomes)
  {
    !(p.slot == NULL && o.synthFails)
    && !(NeedsLoad(p, cfg) && o.sfloadFails)
    && !o.playerFails && !o.addFails && !o.playFails
    && !(cfg.haveSmf && o.smfFails)
  }

  /** The error record a failure leaves, or the untouched record when there is none. */
  function ErrorOf(failure: Option<Cause>): ErrorRecord
  {
    if failure.None? then NoError else Fatal(failure.value)
  }

  /**
   * The first call of make_fluidsynth_data that fails, in the order the calls
   * are made, with the name its error message quotes; None when none fails.
   */
  ghost function FirstFailure(p: Pool, cfg: Config, file: string, o: Outcomes): Option<Cause>
  {
    if p.slot == NULL && o.synthFails then Some(CantCreateSynth)
    else LaterFailure(NeedsLoad(p, cfg), cfg, file, o)
  }

  /** The first failing call once a synth is in hand; loads says whether a soundfont load is attempted. */
  function LaterFailure(loads: bool, cfg: Config, file: string, o: Outcomes): Option<Cause>
    requires loads ==> cfg.soundfont.Some?
  {
    if loads && o.sfloadFails then Some(CantLoadSoundfont(cfg.soundfont.value))
    else if o.playerFails then Some(CantCreatePlayer)
    else PlayFailure(cfg, file, o)
  }

  /** The first failing call once the player exists: add, play, then (with libsmf) the libsmf load. */
  function PlayFailure(cfg: Config, file: string, o: Outcomes): Option<Cause>
  {
    if o.addFails then Some(CantLoadMidi(file))
    else if o.playFails then Some(CantPlayMidi(file))
    else if cfg.haveSmf && o.smfFails then Some(CantLoadSmf(file))
    else None
  }

  /**
   * free_fluidsynth_data: delete the player, then give the synth back to the
   * cache, then delete the MIDI file; every field ends NULL and the error
   * record is kept. On a session that holds nothing it changes nothing, so a
   * second call is harmless.
   */
  ghost function Free(p: Pool, owned: set<Ptr>, d: Data): (r: (Pool, Data))
    requires Inv(p, owned) && Held(p, owned, d)
    ensures r.1 == Data(NULL, NULL, NULL, d.error)
    ensures Inv(r.0, owned - {d.synth})
    ensures r.0.engine.players == p.engine.players - {d.player}
    ensures r.0.engine.smfs == p.engine.smfs - {d.smf}
    ensures d.synth != NULL && p.slot == NULL ==>
              r.0.slot == d.synth && r.0.engine.synths.Keys == p.engine.synths.Keys
              && r.0.engine.synths[d.synth].fonts == p.engine.synths[d.synth].fonts
    ensures d.synth != NULL && p.slot != NULL ==>
              r.0.slot == p.slot && r.0.engine.synths == p.engine.synths - {d.synth}
    ensures d.synth == NULL ==> r.0.slot == p.slot && r.0.engine.synths == p.engine.synths
    ensures d.synth == NULL && d.player == NULL && d.smf == NULL ==> r == (p, d)
    ensures forall t :: t in owned && t != d.synth ==> r.0.engine.synths[t] == p.engine.synths[t]
  {
    var (e1, d1) :=
      if d.player != NULL then (DeletePlayer(p.engine, d.player), d.(player := NULL)) else (p.engine, d);
    var (p2, d2) :=
      if d1.synth != NULL then (Return(Pool(e1, p.slot), owned, d1.synth), d1.(synth := NULL))
      else (Pool(e1, p.slot), d1);
    if d2.smf != NULL then (Pool(SmfDelete(p2.engine, d2.smf), p2.slot), d2.(smf := NULL)) else (p2, d2)
  }

  /** What a failed construction leaves: a fatal error, no field set, no new player or MIDI file. */
  ghost predicate Unwound(p: Pool, owned: set<Ptr>, r: (Pool, Data))
  {
    && r.1.error.Fatal?
    && r.1.synth == NULL && r.1.player == NULL && r.1.smf == NULL
    && Inv(r.0, owned)
    && (forall t :: t in owned && t in p.engine.synths ==> r.0.engine.synths[t] == p.engine.synths[t])
    && r.0.engine.players == p.engine.players && r.0.engine.smfs == p.engine.smfs
  }

  /** What a successful construction leaves: the untouched error record and every field set and held. */
  ghost predicate Built(p: Pool, owned: set<Ptr>, cfg: Config, r: (Pool, Data))
  {
    && r.1.error == NoError
    && r.1.synth != NULL && r.1.synth !in owned
    && r.1.player != NULL && r.1.player !in p.engine.players
    && (r.1.smf != NULL <==> cfg.haveSmf) && r.1.smf !in p.engine.smfs
    && Inv(r.0, owned + {r.1.synth}) && Held(r.0, owned + {r.1.synth}, r.1)
    && (forall t :: t in owned && t in p.engine.synths ==> r.0.engine.synths[t] == p.engine.synths[t])
    && r.0.engine.players - {r.1.player} == p.engine.players
    && r.0.engine.players[r.1.player] == Player(r.1.synth, true, true)
    && r.0.engine.smfs == p.engine.smfs + NonNull(r.1.smf)
    && r.0.slot == NULL
  }

  lemma AddThenRemove<V>(m: map<Ptr, V>, k: Ptr, v: V)
    requires k !in m
    ensures m[k := v] - {k} == m
  {
  }

  /** Where make_fluidsynth_data stands once player q exists for the acquired synth s. */
  ghost predicate PlayerReady(p: Pool, owned: set<Ptr>, s: Ptr, q: Ptr)
  {
    && Inv(p, owned + {s}) && s != NULL && s !in owned && p.slot == NULL
    && q in p.engine.players && p.engine.players[q] == Player(s, false, false)
    && (forall q' :: q' in p.engine.players && p.engine.players[q'].synth == s ==> q' == q)
  }

  /**
   * The last steps of make_fluidsynth_data, up to the first failure: add the
   * file, start playing, load the file with libsmf. The result is where the
   * steps stopped, with the error recorded and nothing freed yet.
   */
  ghost function PlaySteps(p: Pool, owned: set<Ptr>, s: Ptr, q: Ptr, cfg: Config, file: string, o: Outcomes)
    : (r: (Pool, Data))
    requires PlayerReady(p, owned, s, q)
    ensures r.1.synth == s && r.1.player == q && r.0.slot == NULL
    ensures Inv(r.0, owned + {s}) && Held(r.0, owned + {s}, r.1)
  {
    var d := Data(s, q, NULL, NoError);
    var (e4, added) := PlayerAdd(p.engine, q, o.addFails);
    if !added then (Pool(e4, NULL), d.(error := Fatal(CantLoadMidi(file))))
    else
      var (e5, playing) := PlayerPlay(e4, q, o.playFails);
      if !playing then (Pool(e5, NULL), d.(error := Fatal(CantPlayMidi(file))))
      else if !cfg.haveSmf then (Pool(e5, NULL), d)
      else
        var (e6, smf) := SmfLoad(e5, o.smfFails);
        if smf == NULL then (Pool(e6, NULL), d.(error := Fatal(CantLoadSmf(file))))
        else (Pool(e6, NULL), d.(smf := smf))
  }

  /** What the last steps allocate: no synth, only a MIDI file the session holds; q stays the only new player. */
  lemma PlayStepsAllocate(p: Pool, owned: set<Ptr>, s: Ptr, q: Ptr, cfg: Config, file: string, o: Outcomes)
    requires PlayerReady(p, owned, s, q)
    ensures var r := PlaySteps(p, owned, s, q, cfg, file, o);
            && r.0.engine.players.Keys == p.engine.players.Keys
            && r.0.engine.players - {q} == p.engine.players - {q}
            && r.1.smf !in p.engine.smfs && r.0.engine.smfs == p.engine.smfs + NonNull(r.1.smf)
            && r.0.engine.synths.Keys == p.engine.synths.Keys
            && r.0.engine.synths[s].fonts == p.engine.synths[s].fonts
            && (forall t :: t in p.engine.synths && t != s ==> r.0.engine.synths[t] == p.engine.synths[t])
  {
    var (e4, added) := PlayerAdd(p.engine, q, o.addFails);
    if added {
      var (e5, playing) := PlayerPlay(e4, q, o.playFails);
      assert e5.synths.Keys == p.engine.synths.Keys;
      if playing && cfg.haveSmf {
        var (e6, smf) := SmfLoad(e5, o.smfFails);
        assert NULL !in p.engine.smfs;
      }
    }
  }

  /**
   * The last steps succeed exactly when none of their calls fails; a failure
   * loads no MIDI file, and success leaves the player playing and, with
   * libsmf, the file loaded.
   */
  lemma PlayStepsOutcome(p: Pool, owned: set<Ptr>, s: Ptr, q: Ptr, cfg: Config, file: string, o: Outcomes)
    requires PlayerReady(p, owned, s, q)
    ensures var r := PlaySteps(p, owned, s, q, cfg, file, o);
            && r.1.error == ErrorOf(PlayFailure(cfg, file, o))
            && (r.1.error == NoError <==> !o.addFails && !o.playFails && !(cfg.haveSmf && o.smfFails))
            && (r.1.error.Fatal? ==> r.1.smf == NULL && !r.1.error.cause.CantLoadSoundfont?)
            && (r.1.error == NoError ==>
                  (r.1.smf != NULL <==> cfg.haveSmf) && r.0.engine.players[q] == Player(s, true, true))
  {
  }

  /** Where make_fluidsynth_data stands once synth s is acquired: no player drives it yet. */
  ghost predicate SynthReady(p: Pool, owned: set<Ptr>, s: Ptr)
  {
    && Inv(p, owned + {s}) && s != NULL && s !in owned && p.slot == NULL
    && (forall q :: q in p.engine.players ==> p.engine.players[q].synth != s)
  }

  /** The soundfont step loads one: a soundfont is configured and s holds none. */
  ghost predicate Loads(p: Pool, s: Ptr, cfg: Config)
  {
    cfg.soundfont.Some? && s in p.engine.synths && p.engine.synths[s].fonts == 0
  }

  /** The engine after the soundfont step, and whether it succeeded. */
  ghost function LoadSoundfont(p: Pool, s: Ptr, cfg: Config, o: Outcomes): (r: (Engine, bool))
    requires Valid(p.engine) && s in p.engine.synths
    ensures Valid(r.0) && r.0.players == p.engine.players && r.0.smfs == p.engine.smfs
    ensures r.0.synths.Keys == p.engine.synths.Keys
    ensures forall t :: t in r.0.synths && t != s ==> r.0.synths[t] == p.engine.synths[t]
    ensures r.0.synths[s] == p.engine.synths[s].(fonts := p.engine.synths[s].fonts + (if Loads(p, s, cfg) && !o.sfloadFails then 1 else 0))
    ensures r.1 == !(Loads(p, s, cfg) && o.sfloadFails)
  {
    if cfg.soundfont.Some? && SfCount(p.engine, s) == 0 then SfLoad(p.engine, s, o.sfloadFails)
    else (p.engine, true)
  }

  /**
   * The steps of make_fluidsynth_data once synth s is acquired, up to the
   * first failure: load the soundfont if one is configured and s holds none,
   * create the player, and go on with PlaySteps.
   */
  ghost function LoadSteps(p: Pool, owned: set<Ptr>, s: Ptr, cfg: Config, file: string, o: Outcomes)
    : (r: (Pool, Data))
    requires SynthReady(p, owned, s)
    ensures r.1.synth == s && r.0.slot == NULL
    ensures Inv(r.0, owned + {s}) && Held(r.0, owned + {s}, r.1)
  {
    var d := Data(s, NULL, NULL, NoError);
    var (e2, loaded) := LoadSoundfont(p, s, cfg, o);
    if !loaded then (Pool(e2, NULL), d.(error := Fatal(CantLoadSoundfont(cfg.soundfont.value))))
    else
      var (e3, q) := NewPlayer(e2, s, o.playerFails);
      if q == NULL then (Pool(e3, NULL), d.(error := Fatal(CantCreatePlayer)))
      else
        assert PlayerReady(Pool(e3, NULL), owned, s, q);
        PlaySteps(Pool(e3, NULL), owned, s, q, cfg, file, o)
  }

  /**
   * What the steps after acquiring s allocate: at most a player and a MIDI
   * file, both new and both held; s keeps its fonts plus a loaded soundfont.
   */
  lemma LoadStepsAllocate(p: Pool, owned: set<Ptr>, s: Ptr, cfg: Config, file: string, o: Outcomes)
    requires SynthReady(p, owned, s)
    ensures var r := LoadSteps(p, owned, s, cfg, file, o);
            && r.1.player !in p.engine.players && r.0.engine.players - {r.1.player} == p.engine.players
            && r.1.smf !in p.engine.smfs && r.0.engine.smfs == p.engine.smfs + NonNull(r.1.smf)
            && r.0.engine.synths.Keys == p.engine.synths.Keys
            && r.0.engine.synths[s].fonts
               == p.engine.synths[s].fonts + (if Loads(p, s, cfg) && !o.sfloadFails then 1 else 0)
            && (forall t :: t in p.engine.synths && t != s ==> r.0.engine.synths[t] == p.engine.synths[t])
  {
    var (e2, loaded) := LoadSoundfont(p, s, cfg, o);
    assert NULL !in p.engine.players && NULL !in p.engine.smfs;
    if loaded {
      var (e3, q) := NewPlayer(e2, s, o.playerFails);
      if q != NULL {
        assert PlayerReady(Pool(e3, NULL), owned, s, q);
        PlayStepsAllocate(Pool(e3, NULL), owned, s, q, cfg, file, o);
        AddThenRemove(e2.players, q, Player(s, false, false));
      }
    }
  }

  /**
   * The steps after acquiring s succeed exactly when none of their calls
   * fails; the error names the soundfont exactly when loading it failed.
   */
  lemma LoadStepsOutcome(p: Pool, owned: set<Ptr>, s: Ptr, cfg: Config, file: string, o: Outcomes)
    requires SynthReady(p, owned, s)
    ensures var r := LoadSteps(p, owned, s, cfg, file, o);
            && r.1.error == ErrorOf(LaterFailure(Loads(p, s, cfg), cfg, file, o))
            && (r.1.error == NoError <==>
                  !(Loads(p, s, cfg) && o.sfloadFails) && !o.playerFails
                  && !o.addFails && !o.playFails && !(cfg.haveSmf && o.smfFails))
            && (r.1.error.Fatal? ==> r.1.smf == NULL)
            && (r.1.error.Fatal? ==> (r.1.error.cause.CantLoadSoundfont? <==> Loads(p, s, cfg) && o.sfloadFails))
            && (r.1.error.Fatal? && r.1.error.cause.CantLoadSoundfont? ==>
                  r.1.error.cause.path == cfg.soundfont.value)
            && (r.1.error == NoError ==>
                  && r.1.player != NULL && (r.1.smf != NULL <==> cfg.haveSmf)
                  && r.0.engine.players[r.1.player] == Player(s, true, true))
  {
    var (e2, loaded) := LoadSoundfont(p, s, cfg, o);
    if loaded {
      var (e3, q) := NewPlayer(e2, s, o.playerFails);
      if q != NULL {
        assert PlayerReady(Pool(e3, NULL), owned, s, q);
        PlayStepsOutcome(Pool(e3, NULL), owned, s, q, cfg, file, o);
      }
    }
  }

  /** When no call after acquiring s fails, the session is built around s. */
  lemma LoadStepsBuild(p: Pool, owned: set<Ptr>, s: Ptr, cfg: Config, file: string, o: Outcomes)
    requires SynthReady(p, owned, s)
    requires !(Loads(p, s, cfg) && o.sfloadFails) && !o.playerFails
    requires !o.addFails && !o.playFails && !(cfg.haveSmf && o.smfFails)
    ensures var r := LoadSteps(p, owned, s, cfg, file, o);
            && Built(p, owned, cfg, r) && r.1.synth == s
            && r.0.engine.synths[s].fonts == p.engine.synths[s].fonts + (if Loads(p, s, cfg) then 1 else 0)
  {
    LoadStepsAllocate(p, owned, s, cfg, file, o);
    LoadStepsOutcome(p, owned, s, cfg, file, o);
  }

  /**
   * The steps of make_fluidsynth_data up to the first failure: acquire a
   * synth, then LoadSteps. What the result holds is its own.
   */
  ghost function Attempt(p: Pool, owned: set<Ptr>, cfg: Config, file: string, o: Outcomes): (r: (Pool, Data))
    requires Inv(p, owned)
    ensures r.1.synth !in owned
    ensures Inv(r.0, owned + NonNull(r.1.synth)) && Held(r.0, owned + NonNull(r.1.synth), r.1)
  {
    var (p1, s) := Acquire(p, owned, o.synthFails);
    if s == NULL then (p1, Data(NULL, NULL, NULL, Fatal(CantCreateSynth)))
    else LoadSteps(p1, owned, s, cfg, file, o)
  }

  /**
   * make_fluidsynth_data: acquire a synth, load the soundfont if one is
   * configured and the synth holds none, create a player, add the file, start
   * playing, load the file with libsmf; the first failure records a fatal
   * error, and then everything acquired so far is freed.
   */
  ghost function Make(p: Pool, owned: set<Ptr>, cfg: Config, file: string, o: Outcomes): (r: (Pool, Data))
    requires Inv(p, owned)
    ensures r.1.error.Fatal? ==> r.1.synth == NULL && r.1.player == NULL && r.1.smf == NULL
    ensures r.1.synth !in owned
  {
    var a := Attempt(p, owned, cfg, file, o);
    if a.1.error.Fatal? then Free(a.0, owned + NonNull(a.1.synth), a.1)
    else a
  }

  /** When no call fails, the steps build the session around the synth the cache handed out. */
  lemma AttemptBuilds(p: Pool, owned: set<Ptr>, cfg: Config, file: string, o: Outcomes)
    requires Inv(p, owned) && Succeeds(p, cfg, o)
    ensures var a := Attempt(p, owned, cfg, file, o);
            && Built(p, owned, cfg, a)
            && a.1.synth == Acquire(p, owned, o.synthFails).1
            && a.0.engine.synths[a.1.synth].fonts == (if NeedsLoad(p, cfg) then 1 else AcquiredFonts(p))
  {
    var (p1, s) := Acquire(p, owned, o.synthFails);
    assert SynthReady(p1, owned, s);
    assert Loads(p1, s, cfg) == NeedsLoad(p, cfg) && p1.engine.synths[s].fonts == AcquiredFonts(p);
    LoadStepsBuild(p1, owned, s, cfg, file, o);
  }

  /**
   * When a call fails, the steps stop with a fatal error naming that call and
   * no MIDI file; besides the acquired synth they hold at most a new player.
   */
  lemma AttemptStops(p: Pool, owned: set<Ptr>, cfg: Config, file: string, o: Outcomes)
    requires Inv(p, owned) && !Succeeds(p, cfg, o)
    ensures var a := Attempt(p, owned, cfg, file, o);
            && a.1.error.Fatal? && a.1.smf == NULL
            && a.1.error == ErrorOf(FirstFailure(p, cfg, file, o))
            && (forall t :: t in owned ==> a.0.engine.synths[t] == p.engine.synths[t])
            && (a.1.error.cause == CantCreateSynth <==> p.slot == NULL && o.synthFails)
            && (a.1.error.cause.CantLoadSoundfont? <==>
                  NeedsLoad(p, cfg) && o.sfloadFails && !(p.slot == NULL && o.synthFails))
            && (a.1.error.cause.CantLoadSoundfont? ==> a.1.error.cause.path == cfg.soundfont.value)
            && (a.1.synth == NULL <==> p.slot == NULL && o.synthFails)
            && (a.1.synth == NULL ==> a.0 == p)
            && (a.1.synth != NULL ==>
                  && a.1.synth == Acquire(p, owned, o.synthFails).1 && a.0.slot == NULL
                  && a.1.player !in p.engine.players && a.0.engine.players - {a.1.player} == p.engine.players
                  && a.0.engine.smfs == p.engine.smfs
                  && a.0.engine.synths[a.1.synth].fonts
                     == AcquiredFonts(p) + (if NeedsLoad(p, cfg) && !o.sfloadFails then 1 else 0))
  {
    var (p1, s) := Acquire(p, owned, o.synthFails);
    if s != NULL {
      assert SynthReady(p1, owned, s);
      assert Loads(p1, s, cfg) == NeedsLoad(p, cfg) && p1.engine.synths[s].fonts == AcquiredFonts(p);
      LoadStepsAllocate(p1, owned, s, cfg, file, o);
      LoadStepsOutcome(p1, owned, s, cfg, file, o);
      assert NULL !in p.engine.smfs;
    }
  }

  /**
   * make_fluidsynth_data when every call it makes succeeds: the session holds
   * the synth the cache handed out, a new playing player and (with libsmf) a
   * new MIDI file, and its error record is untouched; the synth holds a
   * soundfont if one was configured.
   */
  lemma MakeBuilds(p: Pool, owned: set<Ptr>, cfg: Config, file: string, o: Outcomes)
    requires Inv(p, owned) && Succeeds(p, cfg, o)
    ensures var r := Make(p, owned, cfg, file, o);
            && Built(p, owned, cfg, r)
            && r.1.synth == Acquire(p, owned, o.synthFails).1
            && (p.slot != NULL ==> r.1.synth == p.slot)
            && (p.slot == NULL ==> r.1.synth !in p.engine.synths)
            && r.0.engine.synths[r.1.synth].fonts == (if NeedsLoad(p, cfg) then 1 else AcquiredFonts(p))
  {
    AttemptBuilds(p, owned, cfg, file, o);
  }

  /**
   * make_fluidsynth_data when a call fails: every field NULL, and no player or
   * MIDI file left behind. A synth that was handed out is parked again,
   * keeping a soundfont it loaded; when none could be created, nothing changed.
   */
  lemma MakeUnwinds(p: Pool, owned: set<Ptr>, cfg: Config, file: string, o: Outcomes)
    requires Inv(p, owned) && !Succeeds(p, cfg, o)
    ensures var r := Make(p, owned, cfg, file, o);
            && Unwound(p, owned, r)
            && (p.slot == NULL && o.synthFails ==> r.0 == p)
            && (!(p.slot == NULL && o.synthFails) ==>
                  && r.0.slot == Acquire(p, owned, o.synthFails).1
                  && r.0.engine.synths[r.0.slot].fonts
                     == AcquiredFonts(p) + (if NeedsLoad(p, cfg) && !o.sfloadFails then 1 else 0))
  {
    AttemptStops(p, owned, cfg, file, o);
    var a := Attempt(p, owned, cfg, file, o);
    assert owned + NonNull(a.1.synth) - {a.1.synth} == owned;
  }

  /**
   * The error record make_fluidsynth_data leaves names the first call that
   * failed, quoting the soundfont path or the file name as its message does,
   * and stays untouched exactly when every call succeeds.
   */
  lemma MakeReportsFirstFailure(p: Pool, owned: set<Ptr>, cfg: Config, file: string, o: Outcomes)
    requires Inv(p, owned)
    ensures Make(p, owned, cfg, file, o).1.error == ErrorOf(FirstFailure(p, cfg, file, o))
    ensures FirstFailure(p, cfg, file, o).None? <==> Succeeds(p, cfg, o)
  {
    if Succeeds(p, cfg, o) {
      AttemptBuilds(p, owned, cfg, file, o);
    } else {
      AttemptStops(p, owned, cfg, file, o);
    }
  }

  /** Closing a freshly built session parks its synth again and leaves the players and MIDI files as before. */
  lemma CloseBuilt(p: Pool, owned: set<Ptr>, cfg: Config, r: (Pool, Data))
    requires Inv(p, owned) && Built(p, owned, cfg, r)
    ensures var c := Close(r.0, owned + {r.1.synth}, r.1).0;
            && Inv(c, owned)
            && c.engine.players == p.engine.players && c.engine.smfs == p.engine.smfs
            && c.slot == r.1.synth && c.engine.synths.Keys == owned + {r.1.synth}
            && c.engine.synths[c.slot].fonts == r.0.engine.synths[r.1.synth].fonts
            && (forall t :: t in owned ==> c.engine.synths[t] == p.engine.synths[t])
  {
    var d := r.1;
    assert (owned + {d.synth}) - {d.synth} == owned;
    assert NULL !in p.engine.smfs;
    assert (p.engine.smfs + NonNull(d.smf)) - {d.smf} == p.engine.smfs;
    assert r.0.engine.synths.Keys == owned + {d.synth};
  }

  /** Closing a session whose construction failed changes nothing but its error record. */
  lemma CloseUnwound(p: Pool, owned: set<Ptr>, r: (Pool, Data))
    requires Unwound(p, owned, r)
    ensures Close(r.0, owned, r.1) == (r.0, Data(NULL, NULL, NULL, NoError))
  {
  }

  /**
   * fluidsynth_close: free what the session holds and clear its error record
   * (the struct itself is then released).
   */
  ghost function Close(p: Pool, owned: set<Ptr>, d: Data): (r: (Pool, Data))
    requires Inv(p, owned) && Held(p, owned, d)
    ensures r.1 == Data(NULL, NULL, NULL, NoError)
    ensures Inv(r.0, owned - {d.synth})
    ensures r.0.engine.players == p.engine.players - {d.player}
    ensures r.0.engine.smfs == p.engine.smfs - {d.smf}
    ensures d.synth != NULL && p.slot == NULL ==>
              r.0.slot == d.synth && r.0.engine.synths.Keys == p.engine.synths.Keys
              && r.0.engine.synths[d.synth].fonts == p.engine.synths[d.synth].fonts
    ensures d.synth != NULL && p.slot != NULL ==>
              r.0.slot == p.slot && r.0.engine.synths == p.engine.synths - {d.synth}
    ensures d.synth == NULL ==> r.0.slot == p.slot && r.0.engine.synths == p.engine.synths
    ensures d.synth == NULL && d.player == NULL && d.smf == NULL ==> r.0 == p
    ensures forall t :: t in owned && t != d.synth ==> r.0.engine.synths[t] == p.engine.synths[t]
  {
    var (p1, d1) := Free(p, owned, d);
    (p1, d1.(error := NoError))
  }

  /**
   * Opening a file and closing it again, with the other open sessions holding
   * owned: no player or MIDI file is left behind, a parked synth is the one
   * parked afterwards, and a parked synth with a soundfont keeps it.
   */
  ghost function PlayTrack(p: Pool, owned: set<Ptr>, cfg: Config, file: string, o: Outcomes): (r: Pool)
    requires Inv(p, owned)
    ensures Inv(r, owned)
    ensures forall t :: t in owned ==> r.engine.synths[t] == p.engine.synths[t]
    ensures r.engine.players == p.engine.players && r.engine.smfs == p.engine.smfs
    ensures p.slot != NULL ==> r.slot == p.slot && r.engine.synths.Keys == p.engine.synths.Keys
    ensures p.slot != NULL && p.engine.synths[p.slot].fonts > 0 ==>
              r.engine.synths[r.slot].fonts == p.engine.synths[p.slot].fonts
    ensures p.slot == NULL && o.synthFails ==> r == p
    ensures Succeeds(p, cfg, o) && cfg.soundfont.Some? ==> r.slot != NULL && r.engine.synths[r.slot].fonts > 0
  {
    var m := Make(p, owned, cfg, file, o);
    if Succeeds(p, cfg, o) then
      MakeBuilds(p, owned, cfg, file, o);
      CloseBuilt(p, owned, cfg, m);
      Close(m.0, owned + {m.1.synth}, m.1).0
    else
      MakeUnwinds(p, owned, cfg, file, o);
      CloseUnwound(p, owned, m);
      Close(m.0, owned, m.1).0
  }

  /**
   * Opening and closing a file parks the synth the open used whenever there
   * was one: the one the cache handed out, or the one the factory created
   * into the empty slot, whether the open succeeded or failed after that.
   * It keeps its soundfonts, plus the one loaded for this file.
   */
  lemma PlayTrackParked(p: Pool, owned: set<Ptr>, cfg: Config, file: string, o: Outcomes)
    requires Inv(p, owned) && !(p.slot == NULL && o.synthFails)
    ensures var r := PlayTrack(p, owned, cfg, file, o);
            && r.slot == Acquire(p, owned, o.synthFails).1
            && r.engine.synths.Keys == owned + {r.slot}
            && r.engine.synths[r.slot].fonts
               == AcquiredFonts(p) + (if NeedsLoad(p, cfg) && !o.sfloadFails then 1 else 0)
  {
    var m := Make(p, owned, cfg, file, o);
    if Succeeds(p, cfg, o) {
      MakeBuilds(p, owned, cfg, file, o);
      CloseBuilt(p, owned, cfg, m);
    } else {
      MakeUnwinds(p, owned, cfg, file, o);
      CloseUnwound(p, owned, m);
    }
  }

  /**
   * A player opening and closing files one after another, each open meeting
   * the failures os gives: the invariant holds throughout, nothing leaks, and
   * once a synth is parked every later track reuses it, so no further synth
   * is created and a soundfont it holds is never loaded again.
   */
  ghost function PlayAll(p: Pool, owned: set<Ptr>, cfg: Config, files: seq<string>, os: seq<Outcomes>)
    : (r: Pool)
    requires Inv(p, owned) && |files| == |os|
    ensures Inv(r, owned)
    ensures forall t :: t in owned ==> r.engine.synths[t] == p.engine.synths[t]
    ensures r.engine.players == p.engine.players && r.engine.smfs == p.engine.smfs
    ensures p.slot != NULL ==> r.slot == p.slot && r.engine.synths.Keys == p.engine.synths.Keys
    ensures p.slot != NULL && p.engine.synths[p.slot].fonts > 0 ==>
              r.engine.synths[r.slot].fonts == p.engine.synths[p.slot].fonts
    decreases |files|
  {
    if |files| == 0 then p
    else PlayAll(PlayTrack(p, owned, cfg, files[0], os[0]), owned, cfg, files[1..], os[1..])
  }
}
