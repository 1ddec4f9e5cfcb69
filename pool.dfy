/**
 * The single-slot synth cache: the global available_synth holds at most one
 * idle synth between sessions. This module states what taking a synth from
 * the slot, giving one back and emptying the slot at shutdown do, as
 * functions of the engine and the slot, and the ownership invariant they keep.
 */
module Pool {
  import opened Engine

  /** The engine together with available_synth (NULL when the slot is empty). */
  datatype Pool = Pool(engine: Engine, slot: Ptr)

  /** The set holding q, or nothing when q is NULL. */
  function NonNull(q: Ptr): set<Ptr>
  {
    if q == NULL then {} else {q}
  }

  /**
   * The ownership invariant, given the synths that open sessions hold (owned):
   * every live synth is either held by a session or parked in the slot, never
   * both; the parked synth carries nothing over from earlier playback; and
   * every live player drives a synth some session holds.
   */
  ghost predicate Inv(p: Pool, owned: set<Ptr>)
  {
    Valid(p.engine)
    && NULL !in owned
    && p.slot !in owned
    && p.engine.synths.Keys == owned + NonNull(p.slot)
    && (p.slot != NULL ==> Quiet(p.engine.synths[p.slot]))
    && (forall q :: q in p.engine.players ==> p.engine.players[q].synth in owned)
  }

  /**
   * create_or_recycle_synth: hand out the parked synth and empty the slot, or,
   * when the slot is empty, ask the factory for a new one (NULL if it fails).
   * What is handed out is never a synth some session already holds.
   */
  ghost function Acquire(p: Pool, owned: set<Ptr>, factoryFails: bool): (r: (Pool, Ptr))
    requires Inv(p, owned)
    ensures r.1 !in owned && Inv(r.0, owned + NonNull(r.1))
    ensures r.0.slot == NULL
    ensures r.0.engine.players == p.engine.players && r.0.engine.smfs == p.engine.smfs
    ensures p.slot != NULL ==> r.1 == p.slot && r.0.engine == p.engine
    ensures p.slot == NULL ==> (r.1 == NULL <==> factoryFails)
    ensures p.slot == NULL && r.1 == NULL ==> r.0 == p
    ensures p.slot == NULL && r.1 != NULL ==>
              r.1 !in p.engine.synths && r.0.engine.synths == p.engine.synths[r.1 := Synth(0, false, false)]
  {
    if p.slot != NULL then (Pool(p.engine, NULL), p.slot)
    else
      var (e, s) := NewSynth(p.engine, factoryFails);
      (Pool(e, NULL), s)
  }

  /**
   * return_synth: with the slot empty, the synth is reset (system reset, then
   * all sounds off) and parked; otherwise it is deleted and the parked synth
   * stays. The caller has already deleted the player that drove it.
   */
  ghost function Return(p: Pool, owned: set<Ptr>, s: Ptr): (r: Pool)
    requires Inv(p, owned) && s in owned
    requires forall q :: q in p.engine.players ==> p.engine.players[q].synth != s
    ensures Inv(r, owned - {s})
    ensures r.engine.players == p.engine.players && r.engine.smfs == p.engine.smfs
    ensures p.slot == NULL ==> r.slot == s && r.engine.synths.Keys == p.engine.synths.Keys
    ensures p.slot == NULL ==> r.engine.synths[s].fonts == p.engine.synths[s].fonts
    ensures p.slot != NULL ==> r.slot == p.slot && r.engine.synths == p.engine.synths - {s}
    ensures forall t :: t in owned && t != s ==> r.engine.synths[t] == p.engine.synths[t]
  {
    if p.slot == NULL then
      var e := AllSoundsOff(SystemReset(p.engine, s), s);
      Pool(e, s)
    else
      Pool(DeleteSynth(p.engine, s), p.slot)
  }

  /** The next acquire after a return hands out the parked synth: the one returned, if the slot was empty. */
  lemma ReturnThenAcquire(p: Pool, owned: set<Ptr>, s: Ptr, factoryFails: bool)
    requires Inv(p, owned) && s in owned
    requires forall q :: q in p.engine.players ==> p.engine.players[q].synth != s
    ensures Acquire(Return(p, owned, s), owned - {s}, factoryFails).1 == if p.slot == NULL then s else p.slot
  {
  }

  /** The pool part of fluidsynth_destroy: a parked synth is deleted and the slot emptied. */
  ghost function Drain(p: Pool, owned: set<Ptr>): (r: Pool)
    requires Inv(p, owned)
    ensures Inv(r, owned) && r.slot == NULL
    ensures r.engine.synths.Keys == owned
    ensures r.engine.synths == p.engine.synths - NonNull(p.slot)
    ensures r.engine.players == p.engine.players && r.engine.smfs == p.engine.smfs
  {
    if p.slot != NULL then Pool(DeleteSynth(p.engine, p.slot), NULL) else p
  }
}
