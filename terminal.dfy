/** The serial bridge of the terminal component (`TerminalComponent`): whenever the emulator
    changes, the previous connection is torn down before the terminal is attached to the new
    emulator's serial output and its keyboard input is attached to the new emulator. */
module SerialBridge {
  import opened Base
  import opened Seqs
  import opened Text
  import opened Emulator

  /** The keyboard-input handler registered with `terminal.onData`: it captures the emulator
      of the connection it belongs to. */
  class DataHandler {
    const emulator: V86Emulator

    constructor (emulator: V86Emulator)
      ensures this.emulator == emulator
    {
      this.emulator := emulator;
    }

    /** The handler body: every character of the typed data, in order, through
        `sendSerialByte(data.charCodeAt(i))`. */
    method Handle(data: string)
      modifies emulator.instance
      ensures emulator.instance != null ==>
                emulator.instance.calls == old(emulator.instance.calls) + SerialSends(CharCodes(data))
    {
      for i := 0 to |data|
        invariant emulator.instance != null ==>
                    emulator.instance.calls == old(emulator.instance.calls) + SerialSends(CharCodes(data[..i]))
      {
        emulator.SendSerialByte(data[i] as nat);
        assert CharCodes(data[..i + 1]) == CharCodes(data[..i]) + [data[i] as nat];
        SerialSendsAppend(CharCodes(data[..i]), [data[i] as nat]);
      }
      assert data[..|data|] == data;
    }
  }

  /** The terminal widget, as far as the bridge uses it: the text written to it and the
      registered input handlers. */
  class XTerm {
    var written: string
    var dataHandlers: seq<DataHandler>

    constructor ()
      ensures written == [] && dataHandlers == []
    {
      written := [];
      dataHandlers := [];
    }

    /** `terminal.clear()`: the written text is discarded. */
    method Clear()
      modifies this
      ensures written == [] && dataHandlers == old(dataHandlers)
    {
      written := [];
    }

    /** `terminal.write(text)`. */
    method Write(text: string)
      modifies this
      ensures written == old(written) + text && dataHandlers == old(dataHandlers)
    {
      written := written + text;
    }

    /** `terminal.writeln(text)`: the text and a carriage return and line feed. */
    method WriteLine(text: string)
      modifies this
      ensures written == old(written) + text + "\r\n" && dataHandlers == old(dataHandlers)
    {
      written := written + text + "\r\n";
    }

    /** `terminal.onData(handler)`: the handler is registered after all others. */
    method OnData(handler: DataHandler)
      modifies this
      ensures dataHandlers == old(dataHandlers) + [handler] && written == old(written)
    {
      dataHandlers := dataHandlers + [handler];
    }

    /** `dispose()` of the registration: the handler's registration goes. */
    method Dispose(handler: DataHandler)
      modifies this
      ensures dataHandlers == RemoveFirst(old(dataHandlers), handler) && written == old(written)
    {
      var idx := IndexOf(dataHandlers, handler);
      if idx >= 0 {
        dataHandlers := RemoveAt(dataHandlers, idx);
      }
    }
  }

  /** What the stored cleanup closure captures: the output subscription on an emulator and
      the input registration on a terminal. */
  datatype Connection = Connection(emulator: V86Emulator, callback: SerialCallback,
                                   terminal: XTerm, handler: DataHandler)

  /** The boot banner written on connection: green "Booting Alpine Linux...", then an empty line. */
  const BootBanner: string := "\U{1B}[32mBooting Alpine Linux...\U{1B}[0m" + "\r\n" + "" + "\r\n"

  /** The output callback of a connection: `terminal.write(String.fromCharCode(byte))`. */
  method ForwardOutput(c: Connection, b: byte)
    modifies c.terminal
    ensures c.terminal.written == old(c.terminal.written) + [b as char]
    ensures c.terminal.dataHandlers == old(c.terminal.dataHandlers)
  {
    c.terminal.Write([b as char]);
  }

  class TerminalComponent {
    /** `terminalRef`: the terminal created on mount, or null. */
    var terminal: XTerm?
    /** `cleanupRef`: the teardown of the current connection, or null. */
    var cleanup: Option<Connection>

    constructor (terminal: XTerm?)
      ensures this.terminal == terminal && cleanup == None
    {
      this.terminal := terminal;
      cleanup := None;
    }

    /** `if (cleanupRef.current) { cleanupRef.current(); cleanupRef.current = null; }`: run
        the stored teardown (unsubscribe, then dispose the input registration) at most once. */
    method Disconnect()
      modifies this, if cleanup.Some? then {cleanup.value.emulator, cleanup.value.terminal} else {}
      ensures cleanup == None && terminal == old(terminal)
      ensures old(cleanup).Some? ==>
                var c := old(cleanup).value;
                && c.emulator.serialListeners == RemoveFirst(old(c.emulator.serialListeners), c.callback)
                && c.emulator.instance == old(c.emulator.instance)
                && c.terminal.dataHandlers == RemoveFirst(old(c.terminal.dataHandlers), c.handler)
                && c.terminal.written == old(c.terminal.written)
    {
      if cleanup.Some? {
        var c := cleanup.value;
        c.emulator.Unsubscribe(c.callback);
        c.terminal.Dispose(c.handler);
        cleanup := None;
      }
    }

    /** The connection effect, run whenever the emulator changes: nothing without a
        terminal; otherwise tear down the previous connection, and with an emulator clear
        the terminal, write the banner, subscribe to serial output, register the input
        handler and store their teardown. */
    method Connect(emulator: V86Emulator?)
      modifies this, terminal, emulator
      modifies if cleanup.Some? then {cleanup.value.emulator, cleanup.value.terminal} else {}
      ensures terminal == old(terminal)
      ensures old(terminal) == null ==>
                && cleanup == old(cleanup)
                && (emulator != null ==> unchanged(emulator))
                && (old(cleanup).Some? ==> unchanged(old(cleanup).value.emulator, old(cleanup).value.terminal))
      ensures old(terminal) != null && old(cleanup).Some? ==>
                var c := old(cleanup).value;
                && c.emulator.instance == old(c.emulator.instance)
                && (c.emulator != emulator ==>
                      c.emulator.serialListeners == RemoveFirst(old(c.emulator.serialListeners), c.callback))
                && (c.terminal != terminal ==>
                      && c.terminal.dataHandlers == RemoveFirst(old(c.terminal.dataHandlers), c.handler)
                      && c.terminal.written == old(c.terminal.written))
      ensures old(terminal) != null && emulator == null ==>
                && cleanup == None
                && terminal.written == old(terminal.written)
                && terminal.dataHandlers ==
                  (if old(cleanup).Some? && old(cleanup).value.terminal == terminal
                   then RemoveFirst(old(terminal.dataHandlers), old(cleanup).value.handler)
                   else old(terminal.dataHandlers))
      ensures old(terminal) != null && emulator != null ==>
                && cleanup.Some?
                && var c := cleanup.value;
                && c.emulator == emulator && c.terminal == terminal
                && fresh(c.callback) && fresh(c.handler) && c.handler.emulator == emulator
                && emulator.instance == old(emulator.instance)
                && terminal.written == BootBanner
                && emulator.serialListeners ==
                  (if old(cleanup).Some? && old(cleanup).value.emulator == emulator
                   then RemoveFirst(old(emulator.serialListeners), old(cleanup).value.callback)
                   else old(emulator.serialListeners)) + [c.callback]
                && terminal.dataHandlers ==
                  (if old(cleanup).Some? && old(cleanup).value.terminal == terminal
                   then RemoveFirst(old(terminal.dataHandlers), old(cleanup).value.handler)
                   else old(terminal.dataHandlers)) + [c.handler]
    {
      var term := terminal;
      if term == null {
        return;
      }
      Disconnect();
      if emulator == null {
        return;
      }
      Attach(emulator, term);
    }

    /** The second half of the connection effect, once no connection is stored. */
    method Attach(emulator: V86Emulator, term: XTerm)
      requires cleanup == None && terminal == term
      modifies this, term, emulator
      ensures terminal == term && cleanup.Some?
      ensures var c := cleanup.value;
              && c.emulator == emulator && c.terminal == term
              && fresh(c.callback) && fresh(c.handler) && c.handler.emulator == emulator
              && emulator.instance == old(emulator.instance)
              && emulator.serialListeners == old(emulator.serialListeners) + [c.callback]
              && term.dataHandlers == old(term.dataHandlers) + [c.handler]
              && term.written == BootBanner
    {
      term.Clear();
      term.WriteLine("\U{1B}[32mBooting Alpine Linux...\U{1B}[0m");
      term.WriteLine("");
      var callback := new SerialCallback();
      var unsubscribe := emulator.OnSerialOutput(callback);
      var handler := new DataHandler(emulator);
      term.OnData(handler);
      cleanup := Some(Connection(emulator, callback, term, handler));
    }

    /** The teardown the effect returns: the same guarded run-once-and-clear. */
    method Teardown()
      modifies this, if cleanup.Some? then {cleanup.value.emulator, cleanup.value.terminal} else {}
      ensures cleanup == None && terminal == old(terminal)
      ensures old(cleanup).Some? ==>
                var c := old(cleanup).value;
                && c.emulator.serialListeners == RemoveFirst(old(c.emulator.serialListeners), c.callback)
                && c.emulator.instance == old(c.emulator.instance)
                && c.terminal.dataHandlers == RemoveFirst(old(c.terminal.dataHandlers), c.handler)
                && c.terminal.written == old(c.terminal.written)
    {
      Disconnect();
    }
  }

  /** The effect run for emulator `a`, its returned teardown (which React runs before the
      effect runs again), then the effect again once the emulator becomes `b`: `a` gets its
      listener list back, and the terminal keeps exactly one input registration of the bridge,
      the one on `b`. */
  method SwitchEmulator(a: V86Emulator, b: V86Emulator, term: XTerm) returns (component: TerminalComponent)
    requires a != b
    modifies a, b, term
    ensures a.serialListeners == old(a.serialListeners)
    ensures component.terminal == term && component.cleanup.Some?
    ensures var c := component.cleanup.value;
            && c.emulator == b && fresh(c.callback) && fresh(c.handler)
            && b.serialListeners == old(b.serialListeners) + [c.callback]
            && term.dataHandlers == old(term.dataHandlers) + [c.handler]
            && term.written == BootBanner
  {
    component := new TerminalComponent(term);
    component.Connect(a);
    var first := component.cleanup.value;
    RemoveFirstOfAppended(old(a.serialListeners), first.callback);
    RemoveFirstOfAppended(old(term.dataHandlers), first.handler);
    component.Teardown();
    component.Connect(b);
  }

  /** The effect run for emulator `a`, its returned teardown, then the effect again once the
      emulator is gone: no subscription of the bridge is left on `a` and no input registration
      on the terminal, which keeps the banner it showed. */
  method SwitchToNone(a: V86Emulator, term: XTerm) returns (component: TerminalComponent)
    modifies a, term
    ensures a.serialListeners == old(a.serialListeners)
    ensures a.instance == old(a.instance)
    ensures term.dataHandlers == old(term.dataHandlers)
    ensures term.written == BootBanner
    ensures component.terminal == term && component.cleanup == None
  {
    component := new TerminalComponent(term);
    component.Connect(a);
    var first := component.cleanup.value;
    RemoveFirstOfAppended(old(a.serialListeners), first.callback);
    RemoveFirstOfAppended(old(term.dataHandlers), first.handler);
    component.Teardown();
    component.Connect(null);
  }
}
