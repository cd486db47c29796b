/** The real-time side of the audio server: the stale-tolerant reader cache
    over the shared graph, the guard it hands out, the output callback that
    drains the graph into the device buffer, the error callback, and the
    sample-format dispatch.

    Threads and hardware become inputs: the outcome of a `try_lock` is a
    boolean argument, clock readings and stream timestamps are `nat`
    durations, and an unbounded channel is an object that appends what it is
    sent while its receiver is open. */
module Sound {
  import opened Float
  import opened Synth

  datatype Option<T> = None | Some(value: T)

  // ---------------------------------------------------------------------
  // The shared master copy and the reader's cache

  /** `Arc<FairMutex<T>>`: the master copy, one object shared by the control
      thread and the audio callback. */
  class FairMutex<T> {
    var data: T

    constructor (init: T)
      ensures data == init
    {
      data := init;
    }

    /** The control thread's write: lock (blocking), replace, unlock. */
    method Replace(v: T)
      modifies this
      ensures data == v
    {
      data := v;
    }
  }

  /** `BackupFairMutex<T>`: a private `local` copy kept beside the shared
      `remote`. */
  class BackupFairMutex<T> {
    var local: T
    const remote: FairMutex<T>

    /** `From<Arc<FairMutex<T>>>`: lock the master copy (blocking) and clone
        it into `local`. */
    constructor From(value: FairMutex<T>)
      ensures remote == value
      ensures local == value.data
    {
      local := value.data;
      remote := value;
    }

    /** `get`: try the lock without blocking. When it is free
        (`lockFree`), refresh `local` from the master copy and hand out the
        master copy; otherwise hand out `local`, stale but at once. The master
        copy is never written. */
    method Get(lockFree: bool) returns (g: Guard<T>)
      modifies this
      ensures lockFree ==> local == remote.data && g == RemoteGuard(remote)
      ensures !lockFree ==> local == old(local) && g == LocalRef(this)
      ensures Deref(g) == if lockFree then remote.data else old(local)
    {
      if lockFree {
        local := remote.data;
        g := RemoteGuard(remote);
      } else {
        g := LocalRef(this);
      }
    }
  }

  /** `BackupFairMutexGuard`: a borrow of the reader's `local`, or the held
      lock on the master copy. */
  datatype Guard<T> = LocalRef(owner: BackupFairMutex<T>) | RemoteGuard(mutex: FairMutex<T>)

  /** The object a guard borrows. */
  function Target<T>(g: Guard<T>): set<object> {
    match g
    case LocalRef(o) => {o}
    case RemoteGuard(mx) => {mx}
  }

  /** `Deref`: the value on the side the guard holds. */
  function Deref<T>(g: Guard<T>): (v: T)
    reads Target(g)
    ensures g.LocalRef? ==> v == g.owner.local
    ensures g.RemoteGuard? ==> v == g.mutex.data
  {
    match g
    case LocalRef(o) => o.local
    case RemoteGuard(mx) => mx.data
  }

  /** `DerefMut`, used to store through the guard: the side it holds takes
      the value and nothing else changes. */
  method StoreThrough<T>(g: Guard<T>, v: T)
    modifies Target(g)
    ensures Deref(g) == v
    ensures g.LocalRef? ==> unchanged(g.owner.remote)
  {
    match g
    case LocalRef(o) => o.local := v;
    case RemoteGuard(mx) => mx.data := v;
  }

  /** The reader after the control thread's write: fresh when the lock is
      free, the cached `before` when the lock is held. */
  method ReadAfterWrite<T>(before: T, after: T, lockFree: bool) returns (seen: T)
    ensures seen == if lockFree then after else before
  {
    var master := new FairMutex(before);
    var reader := new BackupFairMutex.From(master);
    master.Replace(after);
    var g := reader.Get(lockFree);
    seen := Deref(g);
  }

  // ---------------------------------------------------------------------
  // Reporting channels

  /** `tokio::sync::mpsc::UnboundedSender<E>`, seen from the sender: what has
      been delivered so far and whether the receiver is still there. */
  class UnboundedSender<E> {
    var receiverOpen: bool
    var delivered: seq<E>

    constructor (open: bool)
      ensures receiverOpen == open && delivered == []
    {
      receiverOpen := open;
      delivered := [];
    }

    /** `send`: never blocks; fails, dropping the value, when the receiver
        has been closed or dropped. */
    method Send(e: E) returns (ok: bool)
      modifies this
      ensures ok == receiverOpen && receiverOpen == old(receiverOpen)
      ensures delivered == if ok then old(delivered) + [e] else old(delivered)
    {
      ok := receiverOpen;
      if ok {
        delivered := delivered + [e];
      }
    }
  }

  /** The stream errors the driver reports. */
  datatype StreamError = DeviceNotAvailable | BackendSpecific(description: string)

  /** The closure made by `build_err_callback`: forward the error, ignoring a
      failed send. */
  method ErrCallback(errChannel: UnboundedSender<StreamError>, err: StreamError)
    modifies errChannel
    ensures errChannel.receiverOpen == old(errChannel.receiverOpen)
    ensures errChannel.delivered ==
            old(errChannel.delivered) + (if errChannel.receiverOpen then [err] else [])
  {
    var _ := errChannel.Send(err);
  }

  // ---------------------------------------------------------------------
  // Overrun rule

  /** `CallbackSpeedError`: both durations and the buffer length. */
  datatype CallbackSpeedError = CallbackSpeedError(actualElapsed: nat, maxElapsed: nat, dataLen: nat)

  /** `StreamInstant::duration_since`: the distance back to an earlier
      instant, or nothing when it is in fact later. */
  function DurationSince(later: nat, earlier: nat): (r: Option<nat>)
    ensures r.Some? <==> earlier <= later
    ensures r.Some? ==> earlier + r.value == later
  {
    if earlier <= later then Some(later - earlier) else None
  }

  /** The overrun comparison: an event exactly when the fill took strictly
      longer than allowed. */
  function OverrunEvent(actualElapsed: nat, maxElapsed: nat, dataLen: nat): (r: Option<CallbackSpeedError>)
    ensures r.Some? <==> actualElapsed > maxElapsed
    ensures r.Some? ==> r.value == CallbackSpeedError(actualElapsed, maxElapsed, dataLen)
  {
    if actualElapsed > maxElapsed then Some(CallbackSpeedError(actualElapsed, maxElapsed, dataLen))
    else None
  }

  /** The comparison is strict and monotone: a fill that takes exactly the
      allowed time raises nothing, and a fill slower than one that raised an
      event raises one too. */
  lemma OverrunIsStrictAndMonotone(actual: nat, slower: nat, max: nat, n: nat)
    ensures OverrunEvent(max, max, n).None?
    ensures OverrunEvent(actual, max, n).Some? && actual <= slower ==> OverrunEvent(slower, max, n).Some?
  {
  }

  // ---------------------------------------------------------------------
  // Output callback

  /** How one call of the output callback ends: normally, or in the panic of
      `unwrap` when the playback instant precedes the callback instant. */
  datatype CallbackOutcome = Returned | Panicked

  /** What one call writes into a buffer of `n` slots: the sample of the
      root that the call's single handle denotes, slot after slot. */
  function BufferFill(root: Clip<Mixer>, n: nat): (s: seq<Sample>)
    ensures |s| == n
    ensures forall i :: 0 <= i < n ==> s[i] == SampleMaster(root)
  {
    seq(n, _ => SampleMaster(root))
  }

  /** The closure made by `build_output_callback`: it owns the reader cache
      over the master graph, and a channel for overrun events when one was
      given (the `Left` closure) or none (the `Right` closure). */
  class OutputCallback {
    const backup: BackupFairMutex<Clip<Mixer>>
    const speedChannel: Option<UnboundedSender<CallbackSpeedError>>

    constructor (primeSource: FairMutex<Clip<Mixer>>, channel: Option<UnboundedSender<CallbackSpeedError>>)
      ensures fresh(backup)
      ensures backup.remote == primeSource && backup.local == primeSource.data
      ensures speedChannel == channel
    {
      backup := new BackupFairMutex.From(primeSource);
      speedChannel := channel;
    }

    /** The set of objects one call may change. */
    function Footprint(): set<object>
      reads this
    {
      {backup} + if speedChannel.Some? then {speedChannel.value} else {}
    }

    /** One call by the driver: one `get`, then every slot of `data` in
        order from that handle. With a channel, the stream timestamps give
        the allowed time (`unwrap` panics if playback precedes callback) and
        an overrun event is sent when the fill took strictly longer; a failed
        send is ignored. */
    method Call(data: array<Sample>, lockFree: bool, actualElapsed: nat, playback: nat, callbackInstant: nat)
      returns (outcome: CallbackOutcome)
      modifies Footprint(), data
      ensures backup.local == if lockFree then backup.remote.data else old(backup.local)
      ensures data[..] == BufferFill(if lockFree then backup.remote.data else old(backup.local), data.Length)
      ensures outcome == Panicked <==> speedChannel.Some? && playback < callbackInstant
      ensures speedChannel.Some? ==>
                var ch := speedChannel.value;
                ch.receiverOpen == old(ch.receiverOpen) &&
                ch.delivered ==
                  old(ch.delivered) +
                  (if ch.receiverOpen && callbackInstant <= playback && actualElapsed > playback - callbackInstant
                   then [CallbackSpeedError(actualElapsed, playback - callbackInstant, data.Length)]
                   else [])
    {
      var lock := backup.Get(lockFree);
      ghost var root := Deref(lock);
      var i := 0;
      while i < data.Length
        modifies data
        invariant 0 <= i <= data.Length
        invariant forall j :: 0 <= j < i ==> data[j] == SampleMaster(root)
      {
        data[i] := SampleMaster(Deref(lock));
        i := i + 1;
      }
      assert data[..] == BufferFill(root, data.Length);
      outcome := Returned;
      if speedChannel.Some? {
        var maxElapsed := DurationSince(playback, callbackInstant);
        if maxElapsed.None? {
          outcome := Panicked;
        } else {
          var event := OverrunEvent(actualElapsed, maxElapsed.value, data.Length);
          if event.Some? {
            var _ := speedChannel.value.Send(event.value);
          }
        }
      }
    }
  }

  /** The stream the server opens at start-up: a unity Clip around an empty
      Mixer, with or without an overrun channel (`monitored`, whose receiver
      may be open or closed). Two successive calls of its callback, each with
      the lock free or not and with any timestamps, fill every slot of both
      buffers with NaN. A first call that panics ends the stream, so then
      there is no second buffer. */
  method DefaultStreamBuffer(monitored: bool, receiverOpen: bool,
                             n: nat, lockFree: bool, actual: nat, playback: nat, callbackInstant: nat,
                             m: nat, lockFreeNext: bool, actualNext: nat, playbackNext: nat, callbackNext: nat)
    returns (first: CallbackOutcome, out: seq<Sample>, next: seq<Sample>)
    ensures first == Panicked <==> monitored && playback < callbackInstant
    ensures |out| == n
    ensures forall i :: 0 <= i < n ==> out[i] == NaN
    ensures first == Returned ==> |next| == m
    ensures forall i :: 0 <= i < |next| ==> next[i] == NaN
  {
    var master := new FairMutex(DefaultClip(DefaultMixer()));
    var channel: Option<UnboundedSender<CallbackSpeedError>> := None;
    if monitored {
      var sender := new UnboundedSender(receiverOpen);
      channel := Some(sender);
    }
    var callback := new OutputCallback(master, channel);
    DefaultMasterIsNaN();
    var data := new Sample[n](_ => Num(0.0));
    first := callback.Call(data, lockFree, actual, playback, callbackInstant);
    out := data[..];
    next := [];
    if first == Returned {
      var data2 := new Sample[m](_ => Num(0.0));
      var _ := callback.Call(data2, lockFreeNext, actualNext, playbackNext, callbackNext);
      next := data2[..];
    }
  }

  // ---------------------------------------------------------------------
  // Sample-format dispatch

  /** The sample formats a device may report. */
  datatype SampleFormat = I8 | I16 | I32 | I64 | U8 | U16 | U32 | U64 | F32 | F64

  /** The output sample types the callback is instantiated at. */
  datatype OutputSampleType = OutF32 | OutF64

  /** What `build_output_stream` does with a format: build the stream at one
      of the two float types, or stop at `unimplemented!`. */
  datatype StreamPlan = BuildAt(sampleType: OutputSampleType) | Unimplemented

  function DispatchFormat(format: SampleFormat): (p: StreamPlan)
    ensures p.BuildAt? <==> format == F32 || format == F64
    ensures format == F32 ==> p == BuildAt(OutF32)
    ensures format == F64 ==> p == BuildAt(OutF64)
  {
    match format
    case F32 => BuildAt(OutF32)
    case F64 => BuildAt(OutF64)
    case _ => Unimplemented
  }
}
