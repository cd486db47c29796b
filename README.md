# Real-time synth graph and its reader cache, in Dafny

This project models the audio core of a small digital-audio-workstation prototype:

- the **synth graph** is a closed tree of sample generators. A `Clip` clamps its one boxed child. A `Mixer` averages its weighted children. `Silence` is the constant 0.0.
- **`VolumeControl`** is the validated gain that every `Clip` and every `Mixer` child carries.
- the **stale-tolerant reader cache** `BackupFairMutex` lets the real-time audio callback read the shared graph without ever blocking. It falls back to its last copy when the control thread holds the lock.
- the **output callback** fills each device buffer from one read handle and, when given a channel, reports buffer overruns. The **error callback** forwards stream errors. The **format dispatch** accepts only 32- and 64-bit float output.

Files:

- `float.dfy` (module `Float`) holds what the code can observe of `f32`. A `Sample` is an exact real number or `NaN`. An `F32` given to validation keeps its sign bit and its class, so -0.0, the infinities and NaN of either sign can be stated. It also holds the addition, scaling, division by a count and `f32::clamp`.
- `synth.dfy` (module `Synth`) holds the graph and `VolumeControl`. It is one model for `src/sound/synth.rs` and `src/synth.rs`. The two files have the same `sample`, `value` and `try_from` logic line for line. They differ in what they give the graph types: `src/sound/synth.rs` derives `Clone` and `Default` on `Clip` and `Mixer` and writes `Default` for `VolumeControl` by hand (unity gain). `src/synth.rs` derives `Clone` only on `VolumeControl`, and gives `Clip`, `Mixer` and `VolumeControl` no `Default`. `src/sound/mod.rs:3` imports `crate::synth`, i.e. `src/synth.rs`, yet it needs `Default` on `Clip<Mixer>` (`src/sound/mod.rs:69`) and `Clone` on it (`src/sound/mod.rs:20`, `src/sound/mod.rs:157`). The program as written therefore does not type-check. The defaults here (`DefaultClip`, `DefaultMixer`, `DefaultVolume`) are those of `src/sound/synth.rs`.
- `sound.dfy` (module `Sound`) holds the rest of `src/sound/mod.rs`. It has two classes:
  - `FairMutex<T>` is the shared master copy behind the `Arc`. It is one object that the reader cache and the control thread both hold.
  - `BackupFairMutex<T>` holds the `local` and `remote` fields.

  The `try_lock` outcome is a boolean argument, so contention becomes a deterministic choice. The buffer is an `array` filled by a loop. Clock readings and stream timestamps are `nat` durations. A channel is an object that appends what it is sent while its receiver is open.

`sample` takes `&mut self` in the source but never writes a field. Every `sample` is therefore a function of the node, and successive samples of one handle are equal.

What the proofs establish, beyond each node's own contract:

- **No node of the graph generates a signal.** Every tree samples to 0.0, or to NaN exactly when some `Mixer` in it has no children (`SynthSampleIsZeroOrNaN`).
- **The default master graph samples to NaN.** That graph is a unity `Clip` around an empty `Mixer`. The code computes `0.0 / 0` without a guard, so the first buffer the default stream plays and the next one are all NaN, with or without an overrun channel and for any timestamps (`DefaultMasterIsNaN`, `DefaultStreamBuffer`). By `Call`'s contract so is every later buffer while nobody writes the master graph.

Three behaviours of the code that a reader might not expect, all modelled as the code has them:

- **Empty `Mixer`.** An empty `Mixer` yields NaN; a defined 0.0 might be expected.
- **-0.0.** Validation tests the sign bit, so it rejects -0.0 as well as every negative number, although -0.0 denotes the number 0.
- **Where the `get` happens.** The callback takes one read handle per buffer call and samples it for every slot, not one handle per slot.

## Model

| member | source | states |
|---|---|---|
| Float.Clamp | src/synth.rs:10-12 | `f32::clamp` keeps a number in `[lo, hi]` and leaves one already inside unchanged. It moves a number below `lo` to `lo` and one above `hi` to `hi`. It passes NaN through and never makes NaN. It may only be called with `lo <= hi`. |
| Synth.VolumeControl.Value | src/sound/synth.rs:36-38 | `value()` returns exactly the wrapped gain, which is never negative. |
| Synth.DefaultVolume | src/sound/synth.rs:41-45 | The default volume is 1.0. |
| Synth.TryFrom | src/sound/synth.rs:50-55 | `try_from(v)` succeeds iff `v` is finite and its sign bit is clear. On success it wraps exactly the number `v`. Otherwise it fails with `NegativeVolume(v)` carrying the input. |
| Synth.TryFromAcceptsExactlyNonNegative | src/synth.rs:41-47 | Validation accepts exactly the finite floats denoting a number `>= 0`, except -0.0. |
| Synth.TryFromEdgeCases | src/sound/synth.rs:51-53 | -0.0, +inf, -inf and NaN of either sign are rejected with the input in the error. +0.0 is accepted. |
| Synth.TryFromRoundTrip | src/synth.rs:41-47 | Every volume is returned unchanged from the positive float of its value. A float that validates to a volume is exactly that float. |
| Synth.DefaultVolumeIsValid | src/sound/synth.rs:41-45 | The default volume is one that validation of 1.0 produces. |
| Synth.DefaultClip | src/sound/synth.rs:4-8 | The derived default `Clip` holds the inner node's default and the unity volume. |
| Synth.DefaultMixer | src/sound/synth.rs:18-21 | The derived default `Mixer` has no children. |
| Synth.ClipOutput | src/sound/synth.rs:10-15 | A clip's output is in `[-max_vol, max_vol]` for a numbered inner sample. It equals the inner sample when that is already inside. It is NaN exactly when the inner sample is. A validated volume meets the clamp's precondition. |
| Synth.SampleSilence | src/sound/synth.rs:61-65 | `Silence::sample` is the number 0.0. |
| Synth.SampleSynth | src/sound/synth.rs:80-88 | `SynthType::sample` dispatches on the tag: `Silence` yields 0.0, a `Clip` node stays within its volume, an empty `Mixer` node yields NaN. |
| Synth.SampleClip | src/sound/synth.rs:10-16 | `Clip<Box<SynthType>>::sample` is NaN exactly when its boxed child's sample is, and otherwise lies in `[-max_vol, max_vol]`. |
| Synth.SampleBox | src/sound/synth.rs:94-98 | `Box::sample` is the boxed node's sample, unchanged. |
| Synth.SampleMixer | src/sound/synth.rs:23-30 | `Mixer::sample` folds the weighted children from 0.0 and divides by the child count. No children gives NaN. |
| Synth.Term | src/sound/synth.rs:27 | One fold step's addend, a child's sample times its weight, is NaN exactly when the child's sample is. |
| Synth.FoldWeighted | src/sound/synth.rs:25-27 | The fold over the remaining children returns the accumulator when none remain, and stays NaN once the accumulator is NaN. |
| Synth.SampleMaster | src/sound/synth.rs:10-16 | The master `Clip<Mixer>` sample is NaN exactly when its mixer's is, and otherwise lies in `[-max_vol, max_vol]`. |
| Synth.FoldIsSum | src/sound/synth.rs:24-27 | The left-to-right fold over the children, from any accumulator, equals that accumulator plus a right-to-left reference sum of the weighted children. |
| Synth.WeightedSumNaN | src/synth.rs:22-24 | The weighted sum of the children is NaN exactly when some child samples to NaN. |
| Synth.MixerIsMeanOfWeightedChildren | src/sound/synth.rs:24-29 | A mixer's sample is the weighted sum of its children divided by the child count, not by the sum of weights. An empty mixer computes `0.0 / 0` and yields NaN. |
| Synth.MixerNaN | src/synth.rs:20-27 | A mixer's sample is NaN exactly when it has no children or one of its children samples to NaN. |
| Synth.MixerOfOne | src/synth.rs:22-25 | A mixer with one child yields that child's sample times its weight. |
| Synth.DispatchForwards | src/sound/synth.rs:80-98 | `SynthType::sample` and `Box::sample` do not change the sample. A Clip node clamps exactly its boxed child's sample. A Mixer node yields its mixer's sample. `SynthType::Silence` yields 0.0. |
| Synth.ClippedSilence | src/synth.rs:49-55 | Silence is 0.0, and it stays 0.0 through a Clip of any volume. |
| Synth.SynthSampleIsZeroOrNaN | src/synth.rs:63-77 | Every tree samples to 0.0, or to NaN exactly when some Mixer in it has no children. |
| Synth.ClipZeroOrNaN | src/synth.rs:8-14 | A Clip node with such a tree inside yields that tree's 0.0 or NaN. |
| Synth.MixerZeroOrNaN | src/synth.rs:20-27 | A Mixer node whose children are such trees yields NaN exactly when it is empty or a child has an empty Mixer. Otherwise it yields 0.0. |
| Synth.WeightedSumZeroOrNaN | src/synth.rs:22-24 | Children that each sample to 0.0 or NaN have a weighted sum of 0.0, or NaN exactly when one of them has an empty Mixer. |
| Synth.MasterSampleIsZeroOrNaN | src/sound/synth.rs:10-29 | The master `Clip<Mixer>` yields NaN exactly when its Mixer, or a Mixer below it, is empty. Otherwise it yields 0.0. |
| Synth.DefaultMasterIsNaN | src/sound/synth.rs:4-21 | The default master graph is a unity Clip around an empty Mixer, and it samples to NaN. |
| Sound.BackupFairMutex.From | src/sound/mod.rs:36-44 | After construction, `local` is the master copy's value and `remote` is the master copy itself. |
| Sound.BackupFairMutex.Get | src/sound/mod.rs:26-33 | With the lock free, `local` becomes the master value and the handle is the master copy. With the lock held, `local` is unchanged and the handle is `local`. Either way the handle denotes the value on its side, and the master copy is not written. |
| Sound.Deref | src/sound/mod.rs:97-106 | A guard dereferences to exactly the value on the side it holds: the reader's `local` or the master copy. |
| Sound.StoreThrough | src/sound/mod.rs:108-115 | Mutable dereference writes the side the guard holds and nothing else. Through `LocalRef` the master copy is untouched. |
| Sound.ReadAfterWrite | src/sound/mod.rs:26-33 | A read after a control-thread write sees the new value when the lock is free. When the lock is held, it sees the value cached before the write. |
| Sound.ErrCallback | src/sound/mod.rs:141-148 | A stream error is delivered when the receiver is open and dropped otherwise, and the callback completes either way. |
| Sound.DurationSince | src/sound/mod.rs:166-170 | The allowed time is the playback instant minus the callback instant. It is absent, and `unwrap` panics, when playback precedes callback. |
| Sound.OverrunEvent | src/sound/mod.rs:171-178 | An overrun event exists iff the actual time is strictly greater than the allowed time. It carries both durations and the buffer length. |
| Sound.OverrunIsStrictAndMonotone | src/sound/mod.rs:171 | Taking exactly the allowed time raises no event. A slower fill than one that raised an event raises one too. |
| Sound.BufferFill | src/sound/mod.rs:162-164 | The buffer image has one slot per buffer element, each the master sample of the one handle. |
| Sound.OutputCallback.constructor | src/sound/mod.rs:150-158 | Building the callback creates a fresh reader cache over the master graph, primed with its value, and keeps the optional overrun channel. |
| Sound.OutputCallback.Call | src/sound/mod.rs:159-186 | One call does one `get` and writes every slot from that handle's sample. With a channel, it panics exactly when playback precedes callback. Otherwise it appends one overrun event exactly when the receiver is open and `actual > playback - callback`, and a failed send is ignored. |
| Sound.DefaultStreamBuffer | src/sound/mod.rs:69-77 | The stream opened on the default graph, with or without an overrun channel, fills every slot of its first buffer and of the next one with NaN, for either lock outcome and any timestamps at each call. With a channel, the first call panics exactly when playback precedes callback, and then there is no second buffer. |
| Sound.DispatchFormat | src/sound/mod.rs:197-216 | A stream is built for F32 and F64 at that float type. Every other format ends in `unimplemented!`. |

## Left out

- IEEE-754 rounding, overflow to infinity and signed zeros of samples: samples are exact reals, so no graph sum overflows. The `to_sample::<T>()` conversion to `f32`/`f64` is the identity.
- Mutex fairness, blocking and cross-thread visibility (`parking_lot::FairMutex`): the `try_lock` outcome is an argument of `Get` and `Call`. The control thread's writes are whole-value replacements (`FairMutex.Replace`). The lock that a `RemoteGuard` holds until it is dropped is not modelled.
- `Instant::now`, `elapsed` and the stream timestamps: they are `nat` inputs to `Call`.
- The tokio channel's internals: a send appends to `delivered` while `receiverOpen` holds, and nothing else.
- `Server::default_without_input` and `build_output_stream_inner`: host, device and stream construction through cpal are foreign calls. Only the default graph the server creates is modelled (`DefaultStreamBuffer`).
- The `thiserror` display strings, and the `Error` enum's conversions from cpal errors.
- `src/synth.rs` gives `Clip<Mixer>` no `Default` and no `Clone`, which `src/sound/mod.rs` needs, so the program as written does not type-check. `DefaultClip`, `DefaultMixer`, `DefaultMasterIsNaN` and `DefaultStreamBuffer` model the derives of `src/sound/synth.rs`, not anything `src/synth.rs` supplies.
- The graphics backend, the window event loop, and the stub `src/sound.rs`: they are not part of this model.
- The sample-format enum of cpal is non-exhaustive. The model lists its ten integer and float formats, and every format other than F32 and F64 is treated alike.
