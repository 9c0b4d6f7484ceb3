/** The state of one ordered event (services/include/ordered_event_record.h) and what each step of
    CommonEventControlManager does to it, as functions on values. */
module OrderedRecords {
  import opened Listeners
  import opened Wrappers

  // How long a receiver may run before the service gives up on it, in milliseconds.
  const TIMEOUT := 10000
  const DOUBLE := 2

  datatype EventState = IDLE | RECEIVING | RECEIVED

  datatype DeliveryState = PENDING | DELIVERED | SKIPPED | TIMEDOUT

  /** A subscriber as the record sees it: the listener, and its priority when the event was published. */
  datatype Receiver = Receiver(listener: Listener, priority: int)

  /** The result code and data that travel with an event from receiver to receiver. */
  datatype Payload = Payload(code: int, data: string)

  datatype Record = Record(
    receivers: seq<Receiver>,
    resultTo: Option<Listener>,
    state: EventState,
    nextReceiver: nat,
    curReceiver: Option<Listener>,
    deliveryState: seq<DeliveryState>,
    resultAbort: bool,
    result: Payload,
    dispatchTime: nat,
    receiverTime: nat)

  function NewRecord(receivers: seq<Receiver>, resultTo: Option<Listener>, result: Payload): Record {
    Record(receivers, resultTo, IDLE, 0, None, seq(|receivers|, _ => PENDING), false, result, 0, 0)
  }

  function Mark(states: seq<DeliveryState>, index: nat, state: DeliveryState): (marked: seq<DeliveryState>)
    ensures |marked| == |states|
    ensures forall i :: 0 <= i < |states| ==> marked[i] == if i == index then state else states[i]
  {
    if index < |states| then states[index := state] else states
  }

  /** The order std::sort leaves the receivers in: highest priority first, ties in any order. */
  predicate ByPriority(receivers: seq<Receiver>) {
    forall i, j :: 0 <= i < j < |receivers| ==> receivers[i].priority >= receivers[j].priority
  }

  function PrepareNextReceiver(r: Record, now: nat): Record {
    r.(nextReceiver := r.nextReceiver + 1, receiverTime := now,
       dispatchTime := if r.nextReceiver == 0 then now else r.dispatchTime)
  }

  function NotifyFrozen(r: Record, index: nat): Record {
    r.(deliveryState := Mark(r.deliveryState, index, SKIPPED), curReceiver := None)
  }

  function PrepareNotify(r: Record, index: nat, proxy: bool): Record
    requires index < |r.receivers|
  {
    var marked := r.(deliveryState := Mark(r.deliveryState, index, DELIVERED));
    if proxy then marked.(curReceiver := Some(r.receivers[index].listener), state := RECEIVING)
    else marked.(curReceiver := None)
  }

  /** A failed call stores SKIPPED, whose number is that of RECEIVED, into the event state. */
  function HandleResult(r: Record, ok: bool): Record {
    if ok then r.(state := RECEIVED) else r.(state := RECEIVED, curReceiver := None)
  }

  function Finish(r: Record, result: Payload, abort: bool): Record {
    r.(state := IDLE, curReceiver := None, result := result, resultAbort := abort)
  }

  function HandleTimeout(r: Record, now: nat): Record {
    r.(receiverTime := now,
       deliveryState := if r.nextReceiver > 0 then Mark(r.deliveryState, r.nextReceiver - 1, TIMEDOUT)
                        else r.deliveryState,
       state := IDLE, curReceiver := None)
  }

  /** The backstop: twice the time limit for every receiver has gone by since the first dispatch. */
  predicate Overdue(r: Record, now: nat) {
    r.dispatchTime > 0 && |r.receivers| > 0 && now > r.dispatchTime + DOUBLE * TIMEOUT * |r.receivers|
  }

  predicate Exhausted(r: Record) {
    r.receivers == [] || r.nextReceiver >= |r.receivers|
  }
}
