/**
 * The plugin's mutable state: the session struct each open file owns, and the
 * process-wide globals (the configuration, the engine objects, and the
 * available_synth slot). Every method changes that state as the C does, step
 * by step, and is proved to end where the functions of Pool and Session say.
 */
module Plugin {
  import opened Optional
  import opened Engine
  import opened Pool
  import opened Session

  /** struct fluidsynth_data: what one open MIDI file holds. */
  class FluidsynthData {
    var synth: Ptr
    var player: Ptr
    var smf: Ptr
    var error: ErrorRecord

    /** The fields as a value. */
    function Value(): Data
      reads this
    {
      Data(synth, player, smf, error)
    }

    /** The struct as make_fluidsynth_data sets it up: nothing held, decoder_error_init's empty record. */
    constructor ()
      ensures Value() == Data(NULL, NULL, NULL, NoError)
    {
      synth := NULL;
      player := NULL;
      smf := NULL;
      error := NoError;
    }
  }

  /** The plugin's globals, and the synths that open sessions hold (owned). */
  class FluidSynth {
    const soundfont: Option<string>
    const rate: int
    const haveSmf: bool
    var availableSynth: Ptr
    var engine: Engine
    ghost var owned: set<Ptr>

    /** The configuration as Session reads it. */
    function Configuration(): Config
    {
      Config(soundfont, rate, haveSmf)
    }

    /** The engine together with the slot. */
    ghost function State(): Pool
      reads this
    {
      Pool(engine, availableSynth)
    }

    ghost predicate Valid()
      reads this
    {
      Inv(State(), owned)
    }

    /** The globals after start-up: the configuration read, no synth created, the slot empty. */
    constructor (soundfont: Option<string>, rate: int, haveSmf: bool)
      ensures Valid() && owned == {}
      ensures State() == Pool(Start(), NULL)
      ensures Configuration() == Config(soundfont, rate, haveSmf)
    {
      this.soundfont := soundfont;
      this.rate := rate;
      this.haveSmf := haveSmf;
      availableSynth := NULL;
      engine := Start();
      owned := {};
    }

    /** create_or_recycle_synth */
    method CreateOrRecycleSynth(factoryFails: bool) returns (synth: Ptr)
      requires Valid()
      modifies this
      ensures (State(), synth) == Acquire(old(State()), old(owned), factoryFails)
      ensures owned == old(owned) + NonNull(synth)
      ensures Valid()
    {
      if availableSynth != NULL {
        synth := availableSynth;
        availableSynth := NULL;
        owned := owned + {synth};
        return;
      }
      var (e, s) := NewSynth(engine, factoryFails);
      engine, synth := e, s;
      owned := owned + NonNull(synth);
    }

    /** return_synth */
    method ReturnSynth(synth: Ptr)
      requires Valid() && synth in owned
      requires forall q :: q in engine.players ==> engine.players[q].synth != synth
      modifies this
      ensures State() == Return(old(State()), old(owned), synth)
      ensures owned == old(owned) - {synth}
      ensures Valid()
    {
      if availableSynth == NULL {
        engine := SystemReset(engine, synth);
        engine := AllSoundsOff(engine, synth);
        availableSynth := synth;
        owned := owned - {synth};
        return;
      }
      engine := DeleteSynth(engine, synth);
      owned := owned - {synth};
    }

    /** free_fluidsynth_data */
    method FreeData(data: FluidsynthData)
      requires Valid() && Held(State(), owned, data.Value())
      modifies this, data
      ensures (State(), data.Value()) == Free(old(State()), old(owned), old(data.Value()))
      ensures owned == old(owned) - {old(data.synth)}
      ensures Valid()
    {
      if data.player != NULL {
        engine := DeletePlayer(engine, data.player);
        data.player := NULL;
      }
      if data.synth != NULL {
        ReturnSynth(data.synth);
        data.synth := NULL;
      }
      if data.smf != NULL {
        engine := SmfDelete(engine, data.smf);
        data.smf := NULL;
      }
    }

    /**
     * make_fluidsynth_data; o says which of the calls it makes fail. The steps
     * run up to the first failure, which records a fatal error; then, as every
     * failure branch of the C does, what the session holds is freed.
     */
    method MakeData(file: string, o: Outcomes) returns (data: FluidsynthData)
      requires Valid()
      modifies this
      ensures fresh(data)
      ensures (State(), data.Value()) == Make(old(State()), old(owned), Configuration(), file, o)
      ensures owned == old(owned) + NonNull(data.synth)
      ensures Valid()
    {
      data := new FluidsynthData();
      ghost var p0, owned0 := State(), owned;
      data.synth := CreateOrRecycleSynth(o.synthFails);
      ghost var acquired := Acquire(p0, owned0, o.synthFails);
      assert State() == acquired.0 && data.synth == acquired.1;
      if data.synth == NULL {
        data.error := Fatal(CantCreateSynth);
      } else {
        assert SynthReady(acquired.0, owned0, acquired.1);
        LoadSteps(data, file, o, owned0);
      }
      assert (State(), data.Value()) == Attempt(p0, owned0, Configuration(), file, o);
      if data.error.Fatal? {
        FreeData(data);
      }
    }

    /**
     * The steps of make_fluidsynth_data once the synth is acquired, up to the
     * first failure: load the soundfont if one is configured and the synth
     * holds none, create the player, go on with PlaySteps. others are the
     * synths other sessions hold.
     */
    method LoadSteps(data: FluidsynthData, file: string, o: Outcomes, ghost others: set<Ptr>)
      requires SynthReady(State(), others, data.synth)
      requires owned == others + {data.synth} && data.Value() == Data(data.synth, NULL, NULL, NoError)
      modifies this, data
      ensures (State(), data.Value()) == Session.LoadSteps(old(State()), others, old(data.synth), Configuration(), file, o)
      ensures owned == others + {data.synth}
    {
      ghost var p1 := State();
      var loaded := true;
      if soundfont.Some? && SfCount(engine, data.synth) == 0 {
        var (e2, ok) := SfLoad(engine, data.synth, o.sfloadFails);
        engine, loaded := e2, ok;
      }
      if !loaded {
        data.error := Fatal(CantLoadSoundfont(soundfont.value));
        return;
      }
      var (e3, q) := NewPlayer(engine, data.synth, o.playerFails);
      engine, data.player := e3, q;
      if data.player == NULL {
        data.error := Fatal(CantCreatePlayer);
        return;
      }
      assert PlayerReady(State(), others, data.synth, q);
      PlaySteps(data, file, o, others);
    }

    /**
     * The last steps of make_fluidsynth_data, up to the first failure: add the
     * file, start playing, load the file with libsmf.
     */
    method PlaySteps(data: FluidsynthData, file: string, o: Outcomes, ghost others: set<Ptr>)
      requires PlayerReady(State(), others, data.synth, data.player)
      requires owned == others + {data.synth} && data.smf == NULL && data.error == NoError
      modifies this, data
      ensures (State(), data.Value())
              == Session.PlaySteps(old(State()), others, old(data.synth), old(data.player), Configuration(), file, o)
      ensures owned == others + {data.synth}
    {
      var (e4, added) := PlayerAdd(engine, data.player, o.addFails);
      engine := e4;
      if !added {
        data.error := Fatal(CantLoadMidi(file));
        return;
      }
      var (e5, playing) := PlayerPlay(engine, data.player, o.playFails);
      engine := e5;
      if !playing {
        data.error := Fatal(CantPlayMidi(file));
        return;
      }
      if haveSmf {
        var (e6, smf) := SmfLoad(engine, o.smfFails);
        engine, data.smf := e6, smf;
        if data.smf == NULL {
          data.error := Fatal(CantLoadSmf(file));
          return;
        }
      }
    }

    /** fluidsynth_close: free what the session holds, then clear its error record. */
    method Close(data: FluidsynthData)
      requires Valid() && Held(State(), owned, data.Value())
      modifies this, data
      ensures (State(), data.Value()) == Session.Close(old(State()), old(owned), old(data.Value()))
      ensures owned == old(owned) - {old(data.synth)}
      ensures Valid()
    {
      FreeData(data);
      data.error := NoError;
    }

    /** The pool part of fluidsynth_destroy: delete a parked synth and empty the slot. */
    method Destroy()
      requires Valid()
      modifies this
      ensures State() == Drain(old(State()), old(owned))
      ensures owned == old(owned)
      ensures Valid()
    {
      if availableSynth != NULL {
        engine := DeleteSynth(engine, availableSynth);
        availableSynth := NULL;
      }
    }
  }
}
