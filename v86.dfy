/** The emulator adapter (`V86Emulator`): one opaque engine instance at a time, a serial
    channel in both directions, and a registry of serial-output listeners. */
module Emulator {
  import opened Base
  import opened Seqs
  import opened Text

  /** `V86Status`: the six statuses the lifecycle reports. */
  datatype Status = Stopped | Starting | Running | Saving | Restoring | Error

  /** The options the provider hands to the adapter: memory size and the 9p filesystem locators. */
  datatype Config = Config(memoryMB: nat, basefs: string, baseurl: string)

  /** A request made to the opaque engine; an instance records them in the order they are made. */
  datatype EngineCall =
    | Halt                    // instance.stop()
    | Destroy                 // instance.destroy()
    | SaveRequest             // instance.save_state()
    | RestoreFrom(state: Bytes) // instance.restore_state(state)
    | SerialSend(code: nat)   // instance.serial0_send(code)

  /** How the engine behaves once `start` decides to construct it. */
  datatype Boot =
    | Booted             // constructed; it fires 'emulator-started'
    | ConstructorThrows  // `new window.V86(...)` throws
    | NeverStarts        // constructed; 'emulator-started' never fires

  /** How the promise returned by `start` settles; Pending means it never does. */
  datatype Settlement = Resolved | Rejected(error: Error) | Pending

  /** The opaque engine object (`V86Instance`). Only the requests it receives are modelled. */
  class EngineInstance {
    const memoryBytes: nat
    var calls: seq<EngineCall>

    constructor (memoryBytes: nat)
      ensures this.memoryBytes == memoryBytes && calls == []
    {
      this.memoryBytes := memoryBytes;
      calls := [];
    }
  }

  /** A serial-output callback; only its identity matters to the registry. */
  class SerialCallback {
    constructor () {}
  }

  /** One call `listener(byte)` made by the output fan-out. */
  datatype Delivery = Delivery(listener: SerialCallback, b: byte)

  /** The closure returned by `onSerialOutput`: it knows its adapter and its callback. */
  datatype Unsubscriber = Unsubscriber(target: V86Emulator, callback: SerialCallback)

  /** The engine requests that sending the codes one by one produces. */
  function SerialSends(codes: seq<nat>): (r: seq<EngineCall>)
    ensures |r| == |codes|
  {
    seq(|codes|, i requires 0 <= i < |codes| => SerialSend(codes[i]))
  }

  lemma SerialSendsAppend(a: seq<nat>, b: seq<nat>)
    ensures SerialSends(a + b) == SerialSends(a) + SerialSends(b)
  {
  }

  /** The bytes per mebibyte the adapter multiplies `memoryMB` by. */
  const MiB: nat := 1024 * 1024

  class V86Emulator {
    var instance: EngineInstance?
    const config: Config
    var serialListeners: seq<SerialCallback>

    constructor (config: Config)
      ensures this.config == config && instance == null && serialListeners == []
    {
      this.config := config;
      instance := null;
      serialListeners := [];
    }

    /** `isRunning`: an engine instance is held. */
    predicate IsRunning()
      reads this
    {
      instance != null
    }

    /** `start()`: reject when the engine library is missing; otherwise construct an
        instance (held from that moment on) and settle once it reports 'emulator-started'.
        The adapter itself does not refuse a second start: the old instance is simply dropped. */
    method Start(engineLoaded: bool, boot: Boot) returns (r: Settlement)
      modifies this
      ensures serialListeners == old(serialListeners)
      ensures !engineLoaded ==> r == Rejected(EngineUnavailable) && instance == old(instance)
      ensures engineLoaded && boot == ConstructorThrows ==>
                r == Rejected(StartFailed) && instance == old(instance)
      ensures engineLoaded && boot != ConstructorThrows ==>
                && instance != null && fresh(instance)
                && instance.calls == []
                && instance.memoryBytes == config.memoryMB * MiB
                && r == (if boot == Booted then Resolved else Pending)
      ensures r == Resolved ==> IsRunning()
    {
      if !engineLoaded {
        return Rejected(EngineUnavailable);
      }
      if boot == ConstructorThrows {
        return Rejected(StartFailed);
      }
      instance := new EngineInstance(config.memoryMB * MiB);
      if boot == Booted {
        r := Resolved;
      } else {
        r := Pending;
      }
    }

    /** The 'serial0-output-byte' handler: the byte goes to every registered listener,
        once each, in registration order. */
    method DeliverSerialByte(b: byte) returns (deliveries: seq<Delivery>)
      ensures |deliveries| == |serialListeners|
      ensures forall i :: 0 <= i < |deliveries| ==> deliveries[i] == Delivery(serialListeners[i], b)
    {
      deliveries := [];
      for i := 0 to |serialListeners|
        invariant |deliveries| == i
        invariant forall k :: 0 <= k < i ==> deliveries[k] == Delivery(serialListeners[k], b)
      {
        deliveries := deliveries + [Delivery(serialListeners[i], b)];
      }
    }

    /** `stop()`: with an instance, stop it, destroy it and drop it; without one, nothing. */
    method Stop()
      modifies this, instance
      ensures instance == null
      ensures serialListeners == old(serialListeners)
      ensures old(instance) != null ==> old(instance).calls == old(instance.calls) + [Halt, Destroy]
    {
      if instance != null {
        instance.calls := instance.calls + [Halt];
        instance.calls := instance.calls + [Destroy];
        instance := null;
      }
    }

    /** `saveState()`: fails with "Emulator not running" without an instance; otherwise
        asks the engine, whose `reply` is the snapshot or None when it rejects. */
    method SaveState(reply: Option<Bytes>) returns (r: Result<Bytes>)
      modifies instance
      ensures instance == null ==> r == Failure(NotRunning)
      ensures instance != null ==>
                && instance.calls == old(instance.calls) + [SaveRequest]
                && r == (if reply.Some? then Success(reply.value) else Failure(SnapshotFailed))
    {
      if instance == null {
        return Failure(NotRunning);
      }
      instance.calls := instance.calls + [SaveRequest];
      if reply.Some? {
        r := Success(reply.value);
      } else {
        r := Failure(SnapshotFailed);
      }
    }

    /** `restoreState(state)`: fails with "Emulator not running" without an instance;
        otherwise hands the snapshot to the engine, which `accepted` or rejected it. */
    method RestoreState(state: Bytes, accepted: bool) returns (r: Outcome)
      modifies instance
      ensures instance == null ==> r == Fail(NotRunning)
      ensures instance != null ==>
                && instance.calls == old(instance.calls) + [RestoreFrom(state)]
                && r == (if accepted then Pass else Fail(RestoreFailed))
    {
      if instance == null {
        return Fail(NotRunning);
      }
      instance.calls := instance.calls + [RestoreFrom(state)];
      r := if accepted then Pass else Fail(RestoreFailed);
    }

    /** `sendSerial(text)`: each character code, in order; nothing when not running. */
    method SendSerial(text: string)
      modifies instance
      ensures instance != null ==> instance.calls == old(instance.calls) + SerialSends(CharCodes(text))
    {
      if instance == null {
        return;
      }
      for i := 0 to |text|
        invariant instance.calls == old(instance.calls) + SerialSends(CharCodes(text[..i]))
      {
        assert CharCodes(text[..i + 1]) == CharCodes(text[..i]) + [text[i] as nat];
        SerialSendsAppend(CharCodes(text[..i]), [text[i] as nat]);
        instance.calls := instance.calls + [SerialSend(text[i] as nat)];
      }
      assert text[..|text|] == text;
    }

    /** `sendSerialByte(byte)`: one code; nothing when not running. */
    method SendSerialByte(code: nat)
      modifies instance
      ensures instance != null ==> instance.calls == old(instance.calls) + [SerialSend(code)]
    {
      if instance == null {
        return;
      }
      instance.calls := instance.calls + [SerialSend(code)];
    }

    /** `onSerialOutput(callback)`: register the callback after all others and hand back
        the closure that removes it. */
    method OnSerialOutput(callback: SerialCallback) returns (u: Unsubscriber)
      modifies this
      ensures serialListeners == old(serialListeners) + [callback]
      ensures instance == old(instance)
      ensures u == Unsubscriber(this, callback)
    {
      serialListeners := serialListeners + [callback];
      u := Unsubscriber(this, callback);
    }

    /** The body of the closure `onSerialOutput` returns: remove the first registration
        of the callback, if any remains. */
    method Unsubscribe(callback: SerialCallback)
      modifies this
      ensures serialListeners == RemoveFirst(old(serialListeners), callback)
      ensures instance == old(instance)
    {
      var idx := IndexOf(serialListeners, callback);
      if idx >= 0 {
        serialListeners := RemoveAt(serialListeners, idx);
      }
    }
  }
}
