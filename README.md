# FluidSynth decoder plugin of MOC — a Dafny model

This project models the FluidSynth decoder plugin of the MOC console audio
player (`moc/decoder_plugins/fluidsynth/fluidsynth.c`). The plugin decodes MIDI
files: it drives a FluidSynth synthesizer through a FluidSynth player to get
16-bit stereo PCM, and, when built with libsmf, uses libsmf to seek and to
report the duration.

The model follows the plugin's own structure:

- **The engine** (`engine.dfy`, module `Engine`). The FluidSynth and libsmf
  objects the plugin allocates and frees, as one value. It records which
  synths, players and parsed MIDI files are alive. For each synth it records
  its soundfont count and whether channel state or sounding voices remain.
  For each player it records which synth it drives and whether a file was
  added and played. Every library call that can fail takes its failure as a
  boolean input.
- **The synth cache** (`pool.dfy`, module `Pool`). The global
  `available_synth` parks at most one idle synth between files, so the next
  file reuses it together with its loaded soundfont. `Acquire`, `Return` and
  `Drain` model `create_or_recycle_synth`, `return_synth` and the cache part
  of `fluidsynth_destroy`. `Inv` is the ownership invariant they keep:
  - every live synth is held by exactly one open session or parked in the slot;
  - the parked synth is quiet;
  - every player drives a synth that a session holds.
- **The session** (`session.dfy`, module `Session`). `struct fluidsynth_data`,
  as a value:
  - `Make` models `make_fluidsynth_data`. It goes step by step, stops at the
    first failure with a fatal error naming that call, and then frees what it
    acquired.
  - `Free` and `Close` model `free_fluidsynth_data` and `fluidsynth_close`.
  - `PlayTrack` and `PlayAll` model opening and closing files one after another.
- **The imperative layer** (`plugin.dfy`, module `Plugin`). The plugin's
  globals become the class `FluidSynth` and the per-file struct becomes the
  class `FluidsynthData`. Their methods update fields in place as the C does,
  and each is proved to end in exactly the state the matching `Pool` or
  `Session` function gives.
- **Per-call queries** (`playback.dfy`, module `Playback`). `fluidsynth_seek`,
  `fluidsynth_get_duration` and `fluidsynth_decode`. libsmf's view of the file
  is a `Timeline` value; the player's status and the render result are inputs.
- **Classifiers** (`formats.dfy` and `cstrings.dfy`, modules `Formats` and
  `CStrings`). `fluidsynth_our_format_ext`, `fluidsynth_our_format_mime`,
  `fluidsynth_get_name` and `fluidsynth_get_bitrate`, over a model of
  `strcasecmp` and `strncasecmp` in the "C" locale.

This revision of the plugin has no timer that frees the parked synth after a
while. It has no lock around the slot, and does not unload a soundfont that no
longer matches the configuration. It has no session that holds only a
soundfont. The model follows the code and has none of these either: a parked
synth stays parked until `fluidsynth_destroy`, and keeps whatever soundfont it
loaded.

## Model

| member | source | states |
|---|---|---|
| Pool.Acquire | moc/decoder_plugins/fluidsynth/fluidsynth.c:53-63 | A parked synth is handed out, with the engine unchanged and the slot emptied. With the slot empty, a new synth with no soundfont is created, or NULL exactly when the factory fails, and then nothing changes. What is handed out is never held by a session. The ownership invariant holds for the holders plus the new synth. |
| Plugin.FluidSynth.CreateOrRecycleSynth | moc/decoder_plugins/fluidsynth/fluidsynth.c:53-63 | Updates the globals in place and ends exactly in the state `Pool.Acquire` gives; the handed-out synth joins the held set and the invariant is kept. |
| Pool.Return | moc/decoder_plugins/fluidsynth/fluidsynth.c:65-78 | With the slot empty, the synth is reset and silenced, then parked with its soundfonts and no synth is deleted. With the slot full, the synth is deleted and the parked one stays. Players and MIDI files are untouched, as are the synths other sessions hold, and the invariant holds without the returned synth. |
| Pool.ReturnThenAcquire | moc/decoder_plugins/fluidsynth/fluidsynth.c:53-78 | The next acquire after a return hands out the synth just returned when the slot was empty, and the previously parked synth otherwise. |
| Plugin.FluidSynth.ReturnSynth | moc/decoder_plugins/fluidsynth/fluidsynth.c:65-78 | Updates the globals in place and ends exactly in the state `Pool.Return` gives; the synth leaves the held set. |
| Session.Free | moc/decoder_plugins/fluidsynth/fluidsynth.c:80-99 | The session's player and MIDI file are deleted and its synth goes back to the cache. Every field ends NULL and the error record is kept. The synths other sessions hold are unchanged. With the slot full, the session's synth is deleted and every other synth, the parked one with its soundfonts included, stays as it was; with no synth held, the synths and the slot are untouched. The invariant holds without the synth. Freeing a session that holds nothing changes nothing, so a second free is harmless. |
| Plugin.FluidSynth.FreeData | moc/decoder_plugins/fluidsynth/fluidsynth.c:80-99 | Clears the struct's fields in place, in the C's order, and ends exactly where `Session.Free` says. |
| Session.PlaySteps | moc/decoder_plugins/fluidsynth/fluidsynth.c:138-163 | The add, play and libsmf-load steps, up to the first failure, leave the session holding its synth and player and the invariant intact. |
| Session.PlayStepsAllocate | moc/decoder_plugins/fluidsynth/fluidsynth.c:138-163 | These steps create no synth or player. They change no other player and no other synth, and the only MIDI file they add is new and held by the session. |
| Session.PlayStepsOutcome | moc/decoder_plugins/fluidsynth/fluidsynth.c:138-163 | The error names the first of add, play and (with libsmf) the libsmf load that fails, quoting the file. They succeed exactly when add, play and (with libsmf) load all succeed. A failure leaves no MIDI file. Success leaves the player started with its file, and the MIDI file loaded exactly when libsmf is present. |
| Session.LoadSoundfont | moc/decoder_plugins/fluidsynth/fluidsynth.c:120-121 | The soundfont is loaded only when one is configured and the synth holds none. It succeeds unless that load fails. Only that synth's font count changes, by one on success. |
| Session.LoadSteps | moc/decoder_plugins/fluidsynth/fluidsynth.c:120-163 | The steps after acquiring a synth, up to the first failure, keep the invariant and leave everything the session points to held by it. |
| Session.LoadStepsAllocate | moc/decoder_plugins/fluidsynth/fluidsynth.c:120-163 | These steps allocate at most one new player and one new MIDI file, and change no other synth. The synth's fonts grow by one exactly when a load was attempted and succeeded. |
| Session.LoadStepsOutcome | moc/decoder_plugins/fluidsynth/fluidsynth.c:120-163 | The error names the first failing call among the soundfont load, player creation, add, play and the libsmf load. They succeed exactly when no call fails. The error names the soundfont, quoting its path, exactly when loading it failed. A failure leaves no MIDI file. |
| Session.LoadStepsBuild | moc/decoder_plugins/fluidsynth/fluidsynth.c:120-165 | When no call fails, the session is fully built around the acquired synth. |
| Session.Attempt | moc/decoder_plugins/fluidsynth/fluidsynth.c:112-165 | Acquire, then the remaining steps up to the first failure. What the result holds is its own and the invariant holds. |
| Session.AttemptBuilds | moc/decoder_plugins/fluidsynth/fluidsynth.c:112-165 | When no call fails, the steps build the session around the synth the cache handed out. |
| Session.AttemptStops | moc/decoder_plugins/fluidsynth/fluidsynth.c:112-162 | On a failure the steps stop with a fatal error naming the first call that failed, exactly as `Session.FirstFailure` picks it in call order, and hold no MIDI file. The synths other sessions hold are unchanged. Besides the acquired synth they hold at most a new player. |
| Session.MakeBuilds | moc/decoder_plugins/fluidsynth/fluidsynth.c:101-166 | When no call fails, the result has an untouched error record and the synth from the cache. It has a new started player driving that synth, and a new MIDI file exactly when built with libsmf. The synths other sessions hold are unchanged. The synth holds one soundfont if it needed one and a soundfont is configured. |
| Session.MakeUnwinds | moc/decoder_plugins/fluidsynth/fluidsynth.c:101-166 | When a call fails, every field is NULL and the error is fatal. No player or MIDI file is left behind, and the synths other sessions hold are unchanged. An acquired synth is parked again, keeping a soundfont it loaded. If the factory failed, nothing changed. |
| Session.MakeReportsFirstFailure | moc/decoder_plugins/fluidsynth/fluidsynth.c:112-163 | The error record names the first call that failed, in the order the C makes them: synth creation, the soundfont load (only when one is attempted, quoting its path), player creation, then adding, playing and the libsmf load (each quoting the file). It stays untouched exactly when every call that is made succeeds. |
| Session.Make | moc/decoder_plugins/fluidsynth/fluidsynth.c:101-166 | A failed construction leaves every field NULL, and the synth it holds is never one another session holds. The full outcomes are stated by `Session.MakeBuilds`, `Session.MakeUnwinds` and `Session.MakeReportsFirstFailure`. |
| Plugin.FluidSynth.MakeData | moc/decoder_plugins/fluidsynth/fluidsynth.c:101-166 | Builds a fresh struct in place, step by step, and ends exactly where `Session.Make` says. |
| Plugin.FluidSynth.LoadSteps | moc/decoder_plugins/fluidsynth/fluidsynth.c:120-163 | The in-place steps after acquiring a synth end exactly where `Session.LoadSteps` says. |
| Plugin.FluidSynth.PlaySteps | moc/decoder_plugins/fluidsynth/fluidsynth.c:138-163 | The in-place add, play and load steps end exactly where `Session.PlaySteps` says. |
| Session.CloseBuilt | moc/decoder_plugins/fluidsynth/fluidsynth.c:173-180 | Closing a freshly built session parks its synth, with its soundfonts, in the empty slot. The players and MIDI files end as they were before the open. |
| Session.CloseUnwound | moc/decoder_plugins/fluidsynth/fluidsynth.c:173-180 | Closing a session whose construction failed leaves the engine and the slot as they were and only clears the error record, so the cleanup the open already did is not repeated. |
| Session.Close | moc/decoder_plugins/fluidsynth/fluidsynth.c:173-180 | Frees what the session holds and clears its error record. With the slot empty, the session's synth is parked with its soundfonts. With the slot full, it is deleted and the parked synth stays, unchanged. With no synth held, the synths and the slot are untouched. The synths other sessions hold are unchanged. The invariant holds without its synth. |
| Plugin.FluidSynth.Close | moc/decoder_plugins/fluidsynth/fluidsynth.c:173-180 | Frees in place and clears the error, ending exactly where `Session.Close` says. |
| Session.PlayTrack | moc/decoder_plugins/fluidsynth/fluidsynth.c:101-180 | Opening a file and closing it keeps the invariant, leaks no player or MIDI file, and leaves the synths other sessions hold unchanged. A parked synth is the one parked afterwards, and keeps a soundfont it holds. A successful open with a soundfont configured leaves a parked synth that holds one. What it parks, and with which soundfonts, is stated by `Session.PlayTrackParked`. |
| Session.PlayTrackParked | moc/decoder_plugins/fluidsynth/fluidsynth.c:53-180 | Unless the factory fails with the slot empty, opening and closing a file leaves parked exactly the synth the open used: the one that was parked, or the newly created one. This holds whether the open succeeded or failed after the synth was in hand. The live synths are then those other sessions hold plus the parked one. The parked synth's soundfonts are those it had, plus one if this open had to load one and the load succeeded. |
| Session.PlayAll | moc/decoder_plugins/fluidsynth/fluidsynth.c:53-180 | Over any sequence of files and failures, the invariant holds, nothing leaks, and the synths other sessions hold are unchanged. Once a synth is parked, every later track reuses that same synth, so no synth is created and its soundfont is never reloaded. |
| Pool.Drain | moc/decoder_plugins/fluidsynth/fluidsynth.c:331-338 | A parked synth is deleted and the slot emptied; every other synth, including those open sessions hold, stays exactly as it was. The only synths left alive are those that open sessions hold. |
| Plugin.FluidSynth.Destroy | moc/decoder_plugins/fluidsynth/fluidsynth.c:331-338 | Empties the slot in place, ending exactly where `Pool.Drain` says. |
| Playback.Seek | moc/decoder_plugins/fluidsynth/fluidsynth.c:202-225 | Without libsmf a seek reports -1. It also reports -1 when libsmf's seek to the target, clamped to the file's length, fails. It requires that a successful libsmf seek leaves a next event, because the C dereferences that event without a NULL check. |
| Playback.SeekMeans | moc/decoder_plugins/fluidsynth/fluidsynth.c:202-225 | On a well-formed file, a seek reports -1 exactly when libsmf is absent or either seek fails. Otherwise it reports the whole second, truncated, of the event playback resumes at. |
| Playback.SeekPastEnd | moc/decoder_plugins/fluidsynth/fluidsynth.c:209 | Every request at or past the end of the file lands at the same place. |
| Playback.SeekWithinDuration | moc/decoder_plugins/fluidsynth/fluidsynth.c:202-264 | When the file's events lie within its length, a seek never reports a second past the reported duration. |
| Playback.Trunc | moc/decoder_plugins/fluidsynth/fluidsynth.c:221 | The C `(int)` cast of a float: the result lies within one of the value and rounds toward zero for both signs. |
| Playback.GetDuration | moc/decoder_plugins/fluidsynth/fluidsynth.c:256-264 | With libsmf, the file's length truncated to whole seconds, so `r <= length < r + 1`; without libsmf, -1. |
| Playback.Decode | moc/decoder_plugins/fluidsynth/fluidsynth.c:227-249 | Always announces 2 channels at the configured rate in signed 16-bit little-endian. It renders only while the player is playing, and asks for as many whole frames as fit in the buffer. It reports the whole buffer, or 0 when not playing or when the render fails. |
| Formats.GetBitrate | moc/decoder_plugins/fluidsynth/fluidsynth.c:251-254 | The bitrate is reported as unknown (-1). |
| Formats.GetName | moc/decoder_plugins/fluidsynth/fluidsynth.c:266-269 | The name is exactly "MID"; it fits the caller's four-byte buffer with its terminator, and is itself an extension the plugin claims. |
| Formats.OurFormatExtMeans | moc/decoder_plugins/fluidsynth/fluidsynth.c:271-274 | An extension is claimed exactly when it is "mid" in any mix of cases. |
| Formats.OurFormatMimeMeans | moc/decoder_plugins/fluidsynth/fluidsynth.c:276-280 | A MIME type is claimed exactly when its first ten characters are "audio/midi" ignoring case; nothing after the tenth character is looked at. |
| Formats.MimeSemicolonNotChecked | moc/decoder_plugins/fluidsynth/fluidsynth.c:278-279 | "audio/midifile" is claimed as written, and rejected by the corrected classifier. |
| Formats.OurFormatMimeIntendedMeans | moc/decoder_plugins/fluidsynth/fluidsynth.c:278-279 | With the comparison length of "audio/midi;", a type is claimed exactly when it is "audio/midi" or starts with "audio/midi;", ignoring case. |
| CStrings.CaseEqualMeans | moc/decoder_plugins/fluidsynth/fluidsynth.c:273 | On strings without NUL, `strcasecmp` reports equality exactly when the strings have the same length and agree at every position once lowered. |
| CStrings.CaseEqualNMeans | moc/decoder_plugins/fluidsynth/fluidsynth.c:279 | On strings without NUL, `strncasecmp(a, b, n)` reports equality exactly when the first `n` characters of each (all of a shorter string) agree ignoring case. |

## Left out

- `fluidsynth_init` (reading the options, registering empty audio drivers, creating the settings, falling back to the default soundfont) is not modelled. Its result is the `Config` value: the soundfont (possibly absent), the rate, and whether libsmf is present.
- The FluidSynth settings object and its deletion in `fluidsynth_destroy` are left out. Only the cache part of `fluidsynth_destroy` is modelled.
- `fluidsynth_info`, `fluidsynth_get_error`, `fluidsynth_open` (a plain call of `make_fluidsynth_data`) and the decoder table are not modelled.
- Memory allocation (`xmalloc`, `free`) is left out. The struct is a fresh object, and its release at the end of `fluidsynth_close` is not modelled.
- The text of `decoder_error` messages is left out. The model records the fatal cause and the file or soundfont name the message quotes. Clearing the record is modelled as returning it to "no error".
- Audio rendering is left out: the samples `fluid_synth_write_s16` writes, the MIDI timing, and the soundfont's content. The player's status and the render's failure are inputs to `Playback.Decode`.
- Playback.Decode: it reports `buf_len` even when `buf_len` is not a multiple of 4 and only whole frames were written. The model states this as the C does. A negative `buf_len` is not modelled: the length is a `nat`.
- Playback.Seek: `sec_clamp` is a C `float` and libsmf's times are `double`. The model uses exact reals and clamps exactly. Most lengths cannot be held exactly in a `float`, so in the C the clamped target can round to a point slightly above the file's length. The model does not capture that, nor how libsmf treats such a target.
- Playback.Seek: a successful libsmf seek followed by a NULL next event would make the C dereference NULL. The model excludes that case by a precondition (`Playback.PeekDefined`) and does not model the crash. Whether libsmf can produce that case is not part of this model, since libsmf's source is not.
- Playback.Seek: where playback is positioned after a seek is not modelled, only the reported second.
- Formats.OurFormatExt, Formats.OurFormatMime: `strcasecmp` and `strncasecmp` are modelled with the "C" locale's `tolower`, which maps only A-Z. Under another `LC_CTYPE` the case folding differs (for example a Turkish dotted or dotless i), and so would the classifiers.
- Playback.GetDuration: the C casts libsmf's `double` length (and, in seek, an event's time) to `int`, which is undefined past `INT_MAX` seconds. `Playback.Trunc` is unbounded, so the model does not capture that; no real MIDI file comes near it.
- The C `assert(sec >= 0)` in `fluidsynth_seek` becomes a precondition.
- With libsmf, calling seek or duration on a session whose open failed (a NULL `smf`) is outside the model, as it is outside the plugin's contract.
- Concurrency is not modelled: this revision takes no lock around `available_synth`.
- The C frees the session in each failure branch and then returns. The model stops at the first failure (`Session.Attempt`) and then frees once (`Session.Make`, `Plugin.FluidSynth.MakeData`). These are the same steps on every path.
- The FluidSynth and libsmf calls are modelled only by their effect on which objects are alive and on the few fields the plugin's choices depend on.

## Findings

| source | as written | input that shows it | evidently intended | confidence | as-written member | corrected member |
|---|---|---|---|---|---|---|
| moc/decoder_plugins/fluidsynth/fluidsynth.c:278-279 | `strncasecmp(mime, "audio/midi;", 10)` compares only the first 10 characters, so the `;` is never checked and any type beginning "audio/midi" is claimed | `"audio/midifile"` | compare 11 characters, so that only "audio/midi" itself or "audio/midi" followed by parameters is claimed | medium, not executed | Formats.OurFormatMime (Formats.MimeSemicolonNotChecked) | Formats.OurFormatMimeIntended (Formats.OurFormatMimeIntendedMeans) |
