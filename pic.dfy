/**
  The hardware-interrupt side of the kernel: the vector numbers the two chained interrupt
  controllers are remapped to, the binding of the timer and keyboard vectors in the
  interrupt descriptor table, and the two interrupt handlers.

  The keyboard decoder is a foreign state machine: its state is the type parameter `S` and
  its two steps are arbitrary total functions, so every property below holds whatever the
  decoder does. The handlers' observable effects (reading the keyboard data port, printing,
  signalling end-of-interrupt to the controllers) are appended to an event trace.
*/
module Pic {
  import opened MachineTypes

  datatype Option<+T> = None | Some(value: T)

  // ---------------------------------------------------------------------------------------
  // Vector numbers

  /** First vector of the primary controller's eight lines. */
  const PIC_1_OFFSET: uint8 := 32
  /** First vector of the secondary controller's eight lines, right after the primary's. */
  const PIC_2_OFFSET: uint8 := PIC_1_OFFSET + 8

  /** The keyboard controller's data port. */
  const DATA_PORT_ADDRESS: uint16 := 0x60

  /** Number of entries of the interrupt descriptor table. */
  const IDT_ENTRIES: nat := 256

  /**
    The vector IRQ line `line` is delivered on once the controllers are remapped to
    PIC_1_OFFSET and PIC_2_OFFSET: lines 0 to 7 on the primary, 8 to 15 on the secondary.
  */
  function IrqVector(line: nat): (v: uint8)
    requires line < 16
    ensures line < 8 ==> PIC_1_OFFSET <= v < PIC_2_OFFSET
    ensures 8 <= line ==> PIC_2_OFFSET <= v < PIC_2_OFFSET + 8
    ensures v as int == PIC_1_OFFSET as int + line
  {
    if line < 8 then PIC_1_OFFSET + line as uint8 else PIC_2_OFFSET + (line - 8) as uint8
  }

  /** The IRQ line a remapped vector belongs to. */
  function IrqLine(v: uint8): (line: nat)
    requires PIC_1_OFFSET <= v < PIC_2_OFFSET + 8
    ensures line < 16
    ensures v < PIC_2_OFFSET <==> line < 8
    ensures line == v as int - PIC_1_OFFSET as int
  {
    (v - PIC_1_OFFSET) as nat
  }

  /** The remapping is a bijection between the 16 lines and vectors 32 to 47. */
  lemma IrqVectorRoundTrip(line: nat, v: uint8)
    ensures line < 16 ==> IrqLine(IrqVector(line)) == line
    ensures PIC_1_OFFSET <= v < PIC_2_OFFSET + 8 ==> IrqVector(IrqLine(v)) == v
  {
  }

  /** The two hardware interrupts the kernel services. */
  datatype InterruptIndex = Timer | Keyboard

  /** The vector of each serviced interrupt: the timer at the primary's offset, the keyboard next. */
  function InterruptVector(i: InterruptIndex): (v: uint8)
    ensures PIC_1_OFFSET <= v < PIC_2_OFFSET
  {
    match i
    case Timer => PIC_1_OFFSET
    case Keyboard => PIC_1_OFFSET + 1
  }

  /**
    The timer is vector 32 (IRQ line 0) and the keyboard vector 33 (IRQ line 1): consecutive,
    distinct, and both on the primary controller, whose range ends where the secondary's
    (40 to 47) begins.
  */
  lemma InterruptVectors()
    ensures PIC_1_OFFSET == 32 && PIC_2_OFFSET == 40
    ensures InterruptVector(Timer) == 32 && InterruptVector(Keyboard) == 33
    ensures InterruptVector(Timer) == IrqVector(0) && InterruptVector(Keyboard) == IrqVector(1)
  {
  }

  // ---------------------------------------------------------------------------------------
  // Interrupt descriptor table

  /** The handler a table entry dispatches to; handlers other than the two here are opaque. */
  datatype HandlerFn = TimerInterruptHandler | KeyboardInterruptHandler | OtherHandler(id: nat)

  datatype IdtEntry = Missing | HandlerEntry(handler: HandlerFn)

  /** Binds the timer vector to the timer handler and the keyboard vector to the keyboard handler. */
  method SetPicHandlers(idt: array<IdtEntry>)
    requires idt.Length == IDT_ENTRIES
    modifies idt
    ensures idt[InterruptVector(Timer) as int] == HandlerEntry(TimerInterruptHandler)
    ensures idt[InterruptVector(Keyboard) as int] == HandlerEntry(KeyboardInterruptHandler)
    ensures forall v :: (0 <= v < IDT_ENTRIES && v != InterruptVector(Timer) as int &&
                         v != InterruptVector(Keyboard) as int) ==> idt[v] == old(idt[v])
  {
    idt[InterruptVector(Timer) as int] := HandlerEntry(TimerInterruptHandler);
    idt[InterruptVector(Keyboard) as int] := HandlerEntry(KeyboardInterruptHandler);
  }

  // ---------------------------------------------------------------------------------------
  // Keyboard decoder (foreign)

  /** A key of the keyboard layout; the decoder's key names are opaque here. */
  datatype KeyCode = KeyCode(id: nat)
  datatype KeyState = Up | Down | SingleShot
  datatype KeyEvent = KeyEvent(code: KeyCode, state: KeyState)
  /** A decoded key: a character, or a key without a character, printed by its name. */
  datatype DecodedKey = Unicode(character: char) | RawKey(key: KeyCode)
  /** An error the decoder reports for a malformed byte; its kinds are opaque here. */
  datatype DecodeError = DecodeError(kind: nat)

  datatype AddByteResult = AddByteError(error: DecodeError) | AddByteOk(event: Option<KeyEvent>)

  /**
    The decoder's two steps, each returning the decoder's next state: `addByte` consumes one
    scancode byte and may complete a key event; `processKeyEvent` applies modifiers to an
    event and may yield a decoded key.
  */
  datatype KeyboardDecoder<!S> = KeyboardDecoder(
    addByte: (S, uint8) -> (S, AddByteResult),
    processKeyEvent: (S, KeyEvent) -> (S, Option<DecodedKey>))

  /** The key a scancode byte yields through both decoder steps, if it yields one at all. */
  function DecodedKeyFor<S>(decoder: KeyboardDecoder<S>, keyboard: S, scanCode: uint8): Option<DecodedKey> {
    match decoder.addByte(keyboard, scanCode).1
    case AddByteOk(Some(event)) => decoder.processKeyEvent(decoder.addByte(keyboard, scanCode).0, event).1
    case _ => None
  }

  // ---------------------------------------------------------------------------------------
  // Effects

  /** What one print produces: a character, or the debug name of a key. */
  datatype Output = Character(character: char) | KeyName(key: KeyCode)

  datatype Event =
    | PortRead(port: uint16, value: uint8)
    | Print(output: Output)
    | EndOfInterrupt(vector: uint8)

  /** The output printed for a decoded key. */
  function OutputOf(key: DecodedKey): (o: Output)
    ensures key.Unicode? <==> o.Character?
    ensures key.Unicode? ==> o == Character(key.character)
    ensures key.RawKey? ==> o == KeyName(key.key)
  {
    match key
    case Unicode(c) => Character(c)
    case RawKey(k) => KeyName(k)
  }

  /** Number of end-of-interrupt signals for `vector` in `effects`. */
  function Acknowledgements(effects: seq<Event>, vector: uint8): nat {
    if effects == [] then 0
    else (if effects[0] == EndOfInterrupt(vector) then 1 else 0) + Acknowledgements(effects[1..], vector)
  }

  /** Number of reads of `port` in `effects`. */
  function PortReads(effects: seq<Event>, port: uint16): nat {
    if effects == [] then 0
    else (if effects[0].PortRead? && effects[0].port == port then 1 else 0) + PortReads(effects[1..], port)
  }

  /** Counting acknowledgements and port reads is additive over concatenated traces. */
  lemma {:induction false} CountsAppend(xs: seq<Event>, ys: seq<Event>, vector: uint8, port: uint16)
    ensures Acknowledgements(xs + ys, vector) == Acknowledgements(xs, vector) + Acknowledgements(ys, vector)
    ensures PortReads(xs + ys, port) == PortReads(xs, port) + PortReads(ys, port)
    decreases |xs|
  {
    if xs == [] {
      assert xs + ys == ys;
    } else {
      assert (xs + ys)[0] == xs[0];
      assert (xs + ys)[1..] == xs[1..] + ys;
      CountsAppend(xs[1..], ys, vector, port);
    }
  }

  /** The decoder state and the effects one handler invocation leaves behind. */
  datatype Reaction<S> = Reaction(keyboard: S, effects: seq<Event>)

  /** The effects of one keyboard interrupt whose data port holds `scanCode`, and the decoder's next state. */
  function KeyboardReaction<S>(decoder: KeyboardDecoder<S>, keyboard: S, scanCode: uint8): (r: Reaction<S>)
    ensures 2 <= |r.effects| <= 3
    ensures r.effects[0] == PortRead(DATA_PORT_ADDRESS, scanCode)
    ensures r.effects[|r.effects| - 1] == EndOfInterrupt(InterruptVector(Keyboard))
    ensures forall i :: 0 < i < |r.effects| - 1 ==> r.effects[i].Print?
    ensures forall v :: Acknowledgements(r.effects, v) == if v == InterruptVector(Keyboard) then 1 else 0
    ensures forall p :: PortReads(r.effects, p) == if p == DATA_PORT_ADDRESS then 1 else 0
    ensures |r.effects| == 3 <==> DecodedKeyFor(decoder, keyboard, scanCode).Some?
    ensures |r.effects| == 3 ==> r.effects[1] == Print(OutputOf(DecodedKeyFor(decoder, keyboard, scanCode).value))
  {
    var (afterAdd, added) := decoder.addByte(keyboard, scanCode);
    var read := [PortRead(DATA_PORT_ADDRESS, scanCode)];
    var eoi := [EndOfInterrupt(InterruptVector(Keyboard))];
    match added
    case AddByteOk(Some(event)) =>
      var (afterProcess, key) := decoder.processKeyEvent(afterAdd, event);
      var printed := if key.Some? then [Print(OutputOf(key.value))] else [];
      assert forall v :: Acknowledgements(read + printed + eoi, v) == if v == InterruptVector(Keyboard) then 1 else 0 by {
        forall v ensures Acknowledgements(read + printed + eoi, v) == if v == InterruptVector(Keyboard) then 1 else 0 {
          CountsAppend(read + printed, eoi, v, DATA_PORT_ADDRESS);
          CountsAppend(read, printed, v, DATA_PORT_ADDRESS);
        }
      }
      assert forall p :: PortReads(read + printed + eoi, p) == if p == DATA_PORT_ADDRESS then 1 else 0 by {
        forall p ensures PortReads(read + printed + eoi, p) == if p == DATA_PORT_ADDRESS then 1 else 0 {
          CountsAppend(read + printed, eoi, 0, p);
          CountsAppend(read, printed, 0, p);
        }
      }
      Reaction(afterProcess, read + printed + eoi)
    case _ =>
      assert forall v :: Acknowledgements(read + eoi, v) == if v == InterruptVector(Keyboard) then 1 else 0 by {
        forall v ensures Acknowledgements(read + eoi, v) == if v == InterruptVector(Keyboard) then 1 else 0 {
          CountsAppend(read, eoi, v, DATA_PORT_ADDRESS);
        }
      }
      assert forall p :: PortReads(read + eoi, p) == if p == DATA_PORT_ADDRESS then 1 else 0 by {
        forall p ensures PortReads(read + eoi, p) == if p == DATA_PORT_ADDRESS then 1 else 0 {
          CountsAppend(read, eoi, 0, p);
        }
      }
      Reaction(afterAdd, read + eoi)
  }

  // ---------------------------------------------------------------------------------------
  // The handlers

  /**
    The interrupt-handling state: the keyboard decoder (its two steps and its current state)
    and the trace of effects the handlers have produced so far.
  */
  class InterruptHandlers<S> {
    const decoder: KeyboardDecoder<S>
    var keyboard: S
    var trace: seq<Event>

    constructor (decoder: KeyboardDecoder<S>, keyboard: S)
      ensures this.decoder == decoder && this.keyboard == keyboard && trace == []
    {
      this.decoder := decoder;
      this.keyboard := keyboard;
      trace := [];
    }

    /** Reads the keyboard data port, whose current contents are `portValue`. */
    method ReadDataPort(portValue: uint8) returns (value: uint8)
      modifies this`trace
      ensures value == portValue
      ensures trace == old(trace) + [PortRead(DATA_PORT_ADDRESS, portValue)]
    {
      value := portValue;
      trace := trace + [PortRead(DATA_PORT_ADDRESS, portValue)];
    }

    /** Records one `print!` of `output`. */
    method PrintOutput(output: Output)
      modifies this`trace
      ensures trace == old(trace) + [Print(output)]
    {
      trace := trace + [Print(output)];
    }

    /** Tells the controllers that the interrupt on `vector` has been serviced. */
    method NotifyEndOfInterrupt(vector: uint8)
      modifies this`trace
      ensures trace == old(trace) + [EndOfInterrupt(vector)]
    {
      trace := trace + [EndOfInterrupt(vector)];
    }

    /** The timer handler only acknowledges the timer interrupt; the decoder is untouched. */
    method TimerInterruptHandler()
      modifies this`trace
      ensures trace == old(trace) + [EndOfInterrupt(InterruptVector(Timer))]
    {
      NotifyEndOfInterrupt(InterruptVector(Timer));
    }

    /**
      The keyboard handler: reads one scancode byte, feeds it to the decoder, prints the key
      if the byte completes an event that decodes to a key, and acknowledges the keyboard
      interrupt in every case.
    */
    method KeyboardInterruptHandler(portValue: uint8)
      modifies this`keyboard, this`trace
      ensures keyboard == KeyboardReaction(decoder, old(keyboard), portValue).keyboard
      ensures trace == old(trace) + KeyboardReaction(decoder, old(keyboard), portValue).effects
    {
      ghost var start, before := keyboard, trace;
      var scanCode := ReadDataPort(portValue);
      var (afterAdd, added) := decoder.addByte(keyboard, scanCode);
      keyboard := afterAdd;
      if added.AddByteOk? && added.event.Some? {
        var (afterProcess, key) := decoder.processKeyEvent(keyboard, added.event.value);
        keyboard := afterProcess;
        if key.Some? {
          PrintOutput(OutputOf(key.value));
        }
      }
      NotifyEndOfInterrupt(InterruptVector(Keyboard));
      ghost var r := KeyboardReaction(decoder, start, portValue);
      assert trace == before + r.effects;
    }
  }

  // ---------------------------------------------------------------------------------------
  // Any sequence of interrupt deliveries

  /** One hardware interrupt delivery: the timer, or the keyboard with the byte in its data port. */
  datatype Irq = TimerIrq | KeyboardIrq(scanCode: uint8)

  function IrqVectorOf(irq: Irq): uint8 {
    match irq
    case TimerIrq => InterruptVector(Timer)
    case KeyboardIrq(_) => InterruptVector(Keyboard)
  }

  /** The handler invocation the table entry of the delivered vector performs. */
  function Serve<S>(decoder: KeyboardDecoder<S>, keyboard: S, irq: Irq): Reaction<S> {
    match irq
    case TimerIrq => Reaction(keyboard, [EndOfInterrupt(InterruptVector(Timer))])
    case KeyboardIrq(b) => KeyboardReaction(decoder, keyboard, b)
  }

  /** Serving the deliveries `irqs` one after another. */
  function Run<S>(decoder: KeyboardDecoder<S>, keyboard: S, irqs: seq<Irq>): Reaction<S>
    decreases |irqs|
  {
    if irqs == [] then Reaction(keyboard, [])
    else
      var first := Serve(decoder, keyboard, irqs[0]);
      var rest := Run(decoder, first.keyboard, irqs[1..]);
      Reaction(rest.keyboard, first.effects + rest.effects)
  }

  /** Number of deliveries on `vector`. */
  function Deliveries(irqs: seq<Irq>, vector: uint8): nat {
    if irqs == [] then 0
    else (if IrqVectorOf(irqs[0]) == vector then 1 else 0) + Deliveries(irqs[1..], vector)
  }

  /**
    Whatever the decoder does, a run of deliveries signals end-of-interrupt exactly once per
    delivery on each vector, and reads the keyboard data port exactly once per keyboard delivery.
  */
  lemma {:induction false} EveryDeliveryAcknowledgedOnce<S>(decoder: KeyboardDecoder<S>, keyboard: S, irqs: seq<Irq>, vector: uint8)
    ensures Acknowledgements(Run(decoder, keyboard, irqs).effects, vector) == Deliveries(irqs, vector)
    ensures PortReads(Run(decoder, keyboard, irqs).effects, DATA_PORT_ADDRESS) == Deliveries(irqs, InterruptVector(Keyboard))
    decreases |irqs|
  {
    if irqs != [] {
      var first := Serve(decoder, keyboard, irqs[0]);
      var rest := Run(decoder, first.keyboard, irqs[1..]);
      EveryDeliveryAcknowledgedOnce(decoder, first.keyboard, irqs[1..], vector);
      CountsAppend(first.effects, rest.effects, vector, DATA_PORT_ADDRESS);
      if irqs[0].TimerIrq? {
        assert Acknowledgements(first.effects, vector) == if vector == InterruptVector(Timer) then 1 else 0;
        assert PortReads(first.effects, DATA_PORT_ADDRESS) == 0;
      }
    }
  }
}
