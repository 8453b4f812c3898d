/**
 The live backend swap: tear the pipeline down, construct the target, bring a fresh pipeline up, and
 roll back to the previous settings if any of it fails. Every construction, start and close is free to
 fail; what each outcome leaves bound to what is proved for every starting state.
 */
module Holder {
  import opened Prelude

  datatype Settings = Settings(backend: string)

  /** A constructed radio. Not every backend has a device to close. */
  datatype Radio = Radio(id: nat, settings: Settings, closable: bool)
  datatype RxGate = RxGate(radio: Radio, settings: Settings)
  datatype Controller = Controller(radio: Radio, settings: Settings)
  datatype RxPump = RxPump(radio: Radio, gate: RxGate, controller: Option<Controller>)

  datatype Outcome =
    | Swapped      // returned normally
    | Refused      // raised before constructing anything: the old device was not released
    | RolledBack   // raised, with the previous settings restored
    | Stranded     // raised out of the rollback itself

  /** What a teardown tells the pieces, in the order it reaches them. */
  datatype Notice = DropKey | StopScan | StopPump | ReapDecoder | CloseDevice

  /** Which pieces there were when a teardown began. */
  datatype Pieces = Pieces(keyHeld: bool, scan: bool, pump: bool, decoder: bool, device: bool)

  function Told(before: seq<Notice>, there: bool, piece: Notice): (after: seq<Notice>) {
    if there then before + [piece] else before
  }

  predicate IsThere(p: Pieces, piece: Notice) {
    match piece
    case DropKey => p.keyHeld
    case StopScan => p.scan
    case StopPump => p.pump
    case ReapDecoder => p.decoder
    case CloseDevice => p.device
  }

  /** The order in which pieces are told: the transmitter first, the device last. */
  const ORDER: seq<Notice> := [DropKey, StopScan, StopPump, ReapDecoder, CloseDevice]

  function Rank(piece: Notice): (n: nat) {
    match piece
    case DropKey => 0
    case StopScan => 1
    case StopPump => 2
    case ReapDecoder => 3
    case CloseDevice => 4
  }

  /** What the first `n` steps of a teardown tell. */
  function Teardown(p: Pieces, n: nat := 5): (told: seq<Notice>)
    requires n <= 5
  {
    if n == 0 then [] else Told(Teardown(p, n - 1), IsThere(p, ORDER[n - 1]), ORDER[n - 1])
  }

  ghost predicate InOrder(told: seq<Notice>) {
    forall i, j :: 0 <= i < j < |told| ==> Rank(told[i]) < Rank(told[j])
  }

  /** A teardown tells exactly the pieces there are, each once, the transmitter first and the device last. */
  lemma {:induction false} TeardownTellsEveryPiece(p: Pieces, n: nat)
    requires n <= 5
    ensures forall piece :: piece in Teardown(p, n) <==> IsThere(p, piece) && Rank(piece) < n
    ensures InOrder(Teardown(p, n))
  {
    if n > 0 {
      TeardownTellsEveryPiece(p, n - 1);
      assert Rank(ORDER[n - 1]) == n - 1;
      assert forall piece :: Rank(piece) == n - 1 ==> piece == ORDER[n - 1];
      ToldOneMore(Teardown(p, n - 1), IsThere(p, ORDER[n - 1]), ORDER[n - 1]);
    }
  }

  lemma ToldOneMore(before: seq<Notice>, there: bool, piece: Notice)
    requires InOrder(before)
    requires forall other :: other in before ==> Rank(other) < Rank(piece)
    ensures var after := Told(before, there, piece);
            InOrder(after) && forall other :: other in after <==> other in before || (there && other == piece)
  {
    var after := Told(before, there, piece);
    assert forall i :: 0 <= i < |before| ==> after[i] == before[i] && before[i] in before;
  }

  class RadioHolder {
    var radio: Radio
    var gate: RxGate
    var controller: Option<Controller>
    var rxPump: Option<RxPump>
    var scanRunner: bool     // built; it reaches the radio and settings through the holder
    var settings: Settings
    const hasControllerFactory: bool
    var nextId: nat          // object identity: the id of the next radio constructed

    ghost var built: seq<Radio>        // every radio this holder has constructed or was given
    ghost var closeIssued: set<Radio>  // every radio whose close() has been called
    ghost var faults: nat              // constructions and starts that have raised
    ghost var asked: nat               // how often the controller factory has been called
    ghost var made: seq<Option<Controller>>  // what it answered, when it did not raise
    ghost var told: seq<Notice>        // every piece the last teardown told to stop
    ghost var teardowns: seq<Pieces>   // the teardowns there have been

    /** No radio is forgotten: every one but the active one has been told to close. */
    ghost predicate Valid()
      reads `nextId, `built, `closeIssued, `radio
    {
      && nextId == |built|
      && (forall i :: 0 <= i < |built| ==> built[i].id == i)
      && (forall r :: r in closeIssued ==> r.id < nextId)
      && radio in built
      && forall r :: r in built && r != radio && r.closable ==> r in closeIssued
    }

    /** Radio, gate, pump, scan runner and controller are all bound to one radio and its settings. */
    ghost predicate Coherent()
      reads this
    {
      && radio.settings == settings
      && gate == RxGate(radio, settings)
      && (controller.Some? ==> controller.value == Controller(radio, settings))
      && rxPump == Some(RxPump(radio, gate, controller))
      && scanRunner
    }

    /** The controller is the last answer the factory gave, and that is not one of its first `n`; with
        no factory there is none. */
    ghost predicate IsFactorysAnswer(n: nat)
      reads this
    {
      && (hasControllerFactory ==> |made| > n && controller == made[|made| - 1])
      && (!hasControllerFactory ==> controller == None)
    }

    /** The bound radio was constructed since `before`, and nobody has told it to close. */
    ghost predicate FreshlyBuiltSince(before: seq<Radio>)
      reads `built, `closeIssued, `radio
    {
      radio in built && |before| <= radio.id && radio !in closeIssued
    }

    constructor (settings: Settings, closable: bool, gate: RxGate, controller: Option<Controller>,
                 hasControllerFactory: bool)
      ensures Valid() && this.settings == settings && radio.settings == settings
      ensures this.gate == gate && this.controller == controller && rxPump == None && !scanRunner
      ensures closeIssued == {} && built == [radio]
    {
      var first := Radio(0, settings, closable);
      radio, this.settings, this.gate, this.controller := first, settings, gate, controller;
      this.hasControllerFactory := hasControllerFactory;
      rxPump, scanRunner := None, false;
      nextId, built, closeIssued, faults, asked, made := 1, [first], {}, 0, 0, [];
      told, teardowns := [], [];
    }

    // ----- Collaborators that may fail -------------------------------------------------------

    /** The radio factory: it constructs a radio for `target`, or raises having constructed none. */
    method ConstructRadio(target: Settings) returns (r: Option<Radio>)
      modifies `nextId, `built, `faults
      ensures faults == old(faults) + if r == None then 1 else 0
      ensures r == None ==> built == old(built) && nextId == old(nextId)
      ensures r.Some? ==>
                && r.value.id == old(nextId) && r.value.settings == target
                && nextId == old(nextId) + 1 && built == old(built) + [r.value]
    {
      var ok: bool := *;
      if !ok {
        faults := faults + 1;
        return None;
      }
      var closable: bool := *;
      r := Some(Radio(nextId, target, closable));
      built, nextId := built + [r.value], nextId + 1;
    }

    /** A bounded close: called if the backend has one; the answer is whether it came back in time. */
    method CloseRadio() returns (released: bool)
      modifies `closeIssued
      ensures closeIssued == if radio.closable then old(closeIssued) + {radio} else old(closeIssued)
      ensures !radio.closable ==> released
    {
      if !radio.closable {
        return true;
      }
      closeIssued := closeIssued + {radio};
      released := *;
    }

    /** A constructor that may raise. */
    method MayRaise() returns (raised: bool)
      modifies `faults
      ensures faults == old(faults) + if raised then 1 else 0
    {
      raised := *;
      if raised {
        faults := faults + 1;
      }
    }

    /** The controller factory: it may raise, or decide that these settings have no controller. */
    method MakeController() returns (raised: bool, answer: Option<Controller>)
      modifies `faults, `asked, `made
      ensures faults == old(faults) + if raised then 1 else 0
      ensures asked == old(asked) + 1
      ensures raised ==> made == old(made)
      ensures !raised ==> made == old(made) + [answer]
      ensures answer.Some? ==> answer.value == Controller(radio, settings)
    {
      asked := asked + 1;
      raised := MayRaise();
      var wanted: bool := *;
      answer := if wanted then Some(Controller(radio, settings)) else None;
      if !raised {
        made := made + [answer];
      }
    }

    /** A start asks the controller factory when there is one, no controller is left from before, and the
        pipeline is not up yet. */
    predicate AsksForController()
      reads this
    {
      rxPump == None && controller == None && hasControllerFactory
    }

    // ----- Lifecycle -------------------------------------------------------------------------

    /** Build the pipeline against the active radio; a second call is a no-op. The controller is whatever
        the factory answered, and the factory is asked exactly when it has to be. */
    method Start() returns (raised: bool)
      modifies `controller, `rxPump, `scanRunner, `faults, `asked, `made
      ensures asked == old(asked) + if old(AsksForController()) then 1 else 0
      ensures !old(AsksForController()) ==> made == old(made) && controller == old(controller)
      ensures old(AsksForController()) && !raised ==> made == old(made) + [controller]
      ensures |old(made)| <= |made|
      ensures faults == old(faults) + if raised then 1 else 0
      ensures old(rxPump.Some?) ==>
                !raised && rxPump == old(rxPump) && controller == old(controller) && scanRunner == old(scanRunner)
      ensures old(rxPump) == None && !raised ==> rxPump == Some(RxPump(radio, gate, controller)) && scanRunner
      ensures controller != old(controller) ==>
                old(controller) == None && hasControllerFactory && controller == Some(Controller(radio, settings))
    {
      if rxPump.Some? {
        return false;
      }
      if controller == None && hasControllerFactory {
        var answer;
        raised, answer := MakeController();
        if raised {
          return;
        }
        controller := answer;
      }
      raised := MayRaise();  // the pump's own construction
      if raised {
        return;
      }
      rxPump := Some(RxPump(radio, gate, controller));
      raised := MayRaise();  // the scan runner's
      if raised {
        return;
      }
      scanRunner := true;
    }

    /** The pieces there are to tear down. */
    function Pipeline(transmitting: bool): (p: Pieces)
      reads this
    {
      Pieces(transmitting, scanRunner, rxPump.Some?, controller.Some?, radio.closable)
    }

    /** Tell one piece to stop, if it is there. Whether it raises is swallowed. */
    method Tell(there: bool, piece: Notice)
      modifies `told
      ensures told == Told(old(told), there, piece)
    {
      told := Told(told, there, piece);
    }

    method TellAll(transmitting: bool)
      requires told == []
      modifies `told
      ensures told == Teardown(Pipeline(transmitting))
    {
      ghost var p := Pipeline(transmitting);
      Tell(transmitting, DropKey);
      assert told == Teardown(p, 1);
      Tell(scanRunner, StopScan);
      assert told == Teardown(p, 2);
      Tell(rxPump.Some?, StopPump);
      assert told == Teardown(p, 3);
      Tell(controller.Some?, ReapDecoder);
      assert told == Teardown(p, 4);
      Tell(radio.closable, CloseDevice);
    }

    /** Tear the pipeline down. Every step is guarded, so every piece there is gets told, in order, and
        the close is always reached; nothing is rebound, and the answer is whether the device was
        released. */
    method Stop(transmitting: bool) returns (released: bool)
      requires Valid()
      modifies `closeIssued, `told, `teardowns
      ensures Valid()
      ensures told == Teardown(old(Pipeline(transmitting)))
      ensures teardowns == old(teardowns) + [old(Pipeline(transmitting))]
      ensures closeIssued == if radio.closable then old(closeIssued) + {radio} else old(closeIssued)
      ensures !radio.closable ==> released
    {
      assert forall r :: r in built ==> exists i :: 0 <= i < |built| && built[i] == r;
      told, teardowns := [], teardowns + [Pipeline(transmitting)];
      TellAll(transmitting);
      released := CloseRadio();
    }

    /** Swap to the backend `target` selects. Whatever fails, and whatever state an earlier failure
        left, the holder ends with one freshly built radio and everything bound to it: under the new
        settings when nothing fails, under the previous ones when one construction or start does. It
        refuses, constructing nothing and rebinding nothing, exactly when the close was not released.
        Only a rollback that itself fails ends otherwise. No radio is ever dropped without being told
        to close, every piece of the old pipeline is told to stop, and the controller bound in the end is
        the factory's last answer. */
    method Rebuild(target: Settings, transmitting: bool) returns (outcome: Outcome, ghost released: bool)
      requires Valid()
      modifies this
      ensures Valid() && old(built) <= built
      ensures teardowns == old(teardowns) + [old(Pipeline(transmitting))]
      ensures outcome == Refused ==> asked == old(asked)
      ensures outcome == Swapped || outcome == RolledBack ==> IsFactorysAnswer(|old(made)|)
      ensures outcome == Refused <==> !released
      ensures outcome == Swapped <==> released && faults == old(faults)
      ensures outcome == RolledBack <==> faults == old(faults) + 1
      ensures outcome == Stranded <==> faults == old(faults) + 2
      ensures outcome == Swapped ==> Coherent() && settings == target && FreshlyBuiltSince(old(built))
      ensures outcome == Swapped ==> built == old(built) + [radio]
      ensures outcome == RolledBack ==> Coherent() && settings == old(settings) && FreshlyBuiltSince(old(built))
      ensures outcome == Refused ==>
                && built == old(built) && radio == old(radio) && gate == old(gate) && settings == old(settings)
                && controller == old(controller) && rxPump == old(rxPump) && scanRunner == old(scanRunner)
                && radio.closable && radio in closeIssued
      ensures outcome == Stranded ==> settings == old(settings)
      ensures old(Coherent()) && outcome != Stranded ==> Coherent()
    {
      var previous := settings;
      var closed := Stop(transmitting);
      released := closed;
      if !closed {
        outcome := Refused;
        return;
      }
      rxPump, scanRunner, controller := None, false, None;
      outcome := SwapTo(target, previous);
    }

    /** The old pipeline is down and its radio told to close: go over to `target`, or back. */
    method SwapTo(target: Settings, previous: Settings) returns (outcome: Outcome)
      requires Valid() && (radio.closable ==> radio in closeIssued)
      requires controller == None && rxPump == None && !scanRunner
      modifies this
      ensures Valid() && old(built) <= built
      ensures teardowns == old(teardowns)
      ensures outcome != Refused
      ensures faults == old(faults) + if outcome == Swapped then 0 else if outcome == RolledBack then 1 else 2
      ensures outcome == Swapped ==> settings == target && built == old(built) + [radio]
      ensures outcome != Swapped ==> settings == previous
      ensures outcome == Swapped || outcome == RolledBack ==>
                Coherent() && FreshlyBuiltSince(old(built)) && IsFactorysAnswer(|old(made)|)
    {
      var ok := Acquire(target);
      if !ok {
        outcome := Restore(previous);
        return;
      }
      outcome := BringUp(target, previous);
    }

    /** Construct a radio for `target` and make it the active one; the one before has been told to close. */
    method Acquire(target: Settings) returns (ok: bool)
      requires Valid() && (radio.closable ==> radio in closeIssued)
      modifies `radio, `nextId, `built, `faults
      ensures Valid() && old(built) <= built
      ensures faults == old(faults) + if ok then 0 else 1
      ensures !ok ==> radio == old(radio) && built == old(built)
      ensures ok ==>
                && built == old(built) + [radio] && FreshlyBuiltSince(old(built))
                && radio.settings == target
    {
      var made := ConstructRadio(target);
      ok := made.Some?;
      if ok {
        radio := made.value;
      }
    }

    /** The target is constructed: bind everything to it and start, or close it and roll back. */
    method BringUp(target: Settings, previous: Settings) returns (outcome: Outcome)
      requires Valid() && radio !in closeIssued && radio.settings == target
      requires controller == None && rxPump == None && !scanRunner
      modifies this
      ensures Valid() && old(built) <= built
      ensures teardowns == old(teardowns)
      ensures outcome == Swapped || outcome == RolledBack ==> IsFactorysAnswer(|old(made)|)
      ensures outcome == Swapped ==> Coherent() && settings == target
      ensures outcome == Swapped ==> radio == old(radio) && built == old(built) && radio !in closeIssued
      ensures outcome == RolledBack ==> Coherent() && settings == previous && FreshlyBuiltSince(old(built))
      ensures outcome == Stranded ==> settings == previous
      ensures outcome != Refused
      ensures faults == old(faults) + if outcome == Swapped then 0 else if outcome == RolledBack then 1 else 2
    {
      settings := target;
      var raised := GateAndStart();
      if raised {
        var _ := CloseRadio();
        outcome := Restore(previous);
        return;
      }
      return Swapped;
    }

    /** Gate the active radio and start a pipeline on it. */
    method GateAndStart() returns (raised: bool)
      requires controller == None && rxPump == None && !scanRunner && radio.settings == settings
      modifies `gate, `controller, `rxPump, `scanRunner, `faults, `asked, `made
      ensures faults == old(faults) + if raised then 1 else 0
      ensures |old(made)| <= |made|
      ensures !raised ==> Coherent() && IsFactorysAnswer(|old(made)|)
    {
      gate := RxGate(radio, settings);
      raised := Start();
    }

    /** The rollback tail: rebuild and restart the previous backend. */
    method Restore(previous: Settings) returns (outcome: Outcome)
      requires Valid() && (radio.closable ==> radio in closeIssued)
      modifies this
      ensures outcome == RolledBack || outcome == Stranded
      ensures teardowns == old(teardowns) && |old(made)| <= |made|
      ensures outcome == RolledBack ==> IsFactorysAnswer(|old(made)|)
      ensures faults == old(faults) + if outcome == RolledBack then 0 else 1
      ensures Valid() && old(built) <= built && closeIssued == old(closeIssued) && settings == previous
      ensures outcome == RolledBack ==> Coherent() && FreshlyBuiltSince(old(built))
    {
      settings := previous;
      var ok := Acquire(previous);
      if !ok {
        return Stranded;
      }
      controller, rxPump, scanRunner := None, None, false;
      var raised := GateAndStart();
      outcome := if raised then Stranded else RolledBack;
    }
  }
}
