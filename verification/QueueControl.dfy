/** The control part of a queue in the form of queue.c: a structure whose counts and waiting lists
    the critical sections change in place. Each method is one critical section, or one of the two
    loops of prvUnlockQueue, and is proved to take the step of QueueLock it stands for, with the
    result that step has. The bytes of the items are in QueueStorage. Priorities are not part of this:
    a waiting task may join its list at any place, and the head of the list is the task woken, which is
    then counted until it runs; that count is bookkeeping and not a field of the source. */
module QueueControl {
  import opened QueueLock

  class QueueBlock {
    const length: nat                        // uxLength
    var messagesWaiting: nat                 // uxMessagesWaiting
    var waitingToReceive: seq<Task>          // xTasksWaitingToReceive
    var waitingToSend: seq<Task>             // xTasksWaitingToSend
    var txLock: Int8                         // cTxLock
    var rxLock: Int8                         // cRxLock
    ghost var rousedReceivers: set<Task>     // woken from waitingToReceive, not run since
    ghost var rousedSenders: set<Task>
    ghost var phase: Phase                   // how far the running task is in the blocking sequence

    ghost function Receivers(): Side
      reads this
    {
      Side(waitingToReceive, rousedReceivers, txLock)
    }

    ghost function Senders(): Side
      reads this
    {
      Side(waitingToSend, rousedSenders, rxLock)
    }

    ghost function View(): Queue
      reads this
    {
      Queue(length, messagesWaiting, Receivers(), Senders(), phase)
    }

    /** xQueueGenericReset with xNewQueue set. */
    constructor (length: nat)
      ensures View() == Created(length)
    {
      this.length := length;
      messagesWaiting, waitingToReceive, waitingToSend := 0, [], [];
      txLock, rxLock := UNLOCKED, UNLOCKED;
      rousedReceivers, rousedSenders, phase := {}, {}, Idle;
    }

    /** xTaskRemoveFromEventList( &xTasksWaitingToReceive ). */
    method WakeReceiver()
      requires waitingToReceive != []
      modifies this`waitingToReceive, this`rousedReceivers
      ensures Receivers() == Rouse(old(Receivers()))
    {
      rousedReceivers := rousedReceivers + {waitingToReceive[0]};
      waitingToReceive := waitingToReceive[1..];
    }

    /** xTaskRemoveFromEventList( &xTasksWaitingToSend ). */
    method WakeSender()
      requires waitingToSend != []
      modifies this`waitingToSend, this`rousedSenders
      ensures Senders() == Rouse(old(Senders()))
    {
      rousedSenders := rousedSenders + {waitingToSend[0]};
      waitingToSend := waitingToSend[1..];
    }

    /** The count that prvCopyDataToQueue leaves. */
    method CountItem(overwrite: bool)
      modifies this`messagesWaiting
      ensures messagesWaiting == Posted(old(View()), overwrite)
    {
      var messages := messagesWaiting;
      if overwrite && messages > 0 {
        messages := messages - 1;
      }
      messagesWaiting := messages + 1;
    }

    /** The critical section of xQueueGenericSend; `sent` is false where the source goes on to block
        or returns errQUEUE_FULL. */
    method GenericSend(t: Task, overwrite: bool) returns (sent: bool)
      requires Enabled(View(), Send(t, overwrite))
      modifies this
      ensures View() == Apply(old(View()), Send(t, overwrite)) && sent == Room(old(View()), overwrite)
    {
      rousedSenders := rousedSenders - {t};
      sent := messagesWaiting < length || overwrite;
      if sent {
        CountItem(overwrite);
        if waitingToReceive != [] {
          WakeReceiver();
        }
      }
    }

    /** xQueueGenericSendFromISR. */
    method GenericSendFromISR(overwrite: bool) returns (sent: bool)
      requires Enabled(View(), IsrSend(overwrite))
      modifies this
      ensures View() == Apply(old(View()), IsrSend(overwrite)) && sent == Room(old(View()), overwrite)
    {
      sent := messagesWaiting < length || overwrite;
      if sent {
        var lock: int := txLock;
        CountItem(overwrite);
        if lock == UNLOCKED {
          if waitingToReceive != [] {
            WakeReceiver();
          }
        } else {
          txLock := ToInt8(lock + 1);
        }
      }
    }

    /** The critical section of xQueueReceive and, with `peek`, of xQueuePeek. */
    method Receive(t: Task, peek: bool) returns (received: bool)
      requires Enabled(View(), Step.Receive(t, peek))
      modifies this
      ensures View() == Apply(old(View()), Step.Receive(t, peek)) && received == (old(messagesWaiting) > 0)
    {
      rousedReceivers := rousedReceivers - {t};
      received := messagesWaiting > 0;
      if received {
        if peek {
          if waitingToReceive != [] {
            WakeReceiver();
          }
        } else {
          messagesWaiting := messagesWaiting - 1;
          if waitingToSend != [] {
            WakeSender();
          }
        }
      }
    }

    /** xQueueReceiveFromISR. */
    method ReceiveFromISR() returns (received: bool)
      modifies this
      ensures View() == Apply(old(View()), IsrReceive) && received == (old(messagesWaiting) > 0)
    {
      received := messagesWaiting > 0;
      if received {
        var lock: int := rxLock;
        messagesWaiting := messagesWaiting - 1;
        if lock == UNLOCKED {
          if waitingToSend != [] {
            WakeSender();
          }
        } else {
          rxLock := ToInt8(lock + 1);
        }
      }
    }

    /** prvLockQueue. */
    method LockQueue(t: Task, receiving: bool)
      requires Enabled(View(), Block(t, receiving))
      modifies this
      ensures View() == Apply(old(View()), Block(t, receiving))
    {
      if rxLock == UNLOCKED {
        rxLock := LOCKED;
      }
      if txLock == UNLOCKED {
        txLock := LOCKED;
      }
      phase := Locked(t, receiving);
    }

    /** The first critical section of prvUnlockQueue. */
    method UnlockTransmit()
      requires phase.UnlockTx?
      modifies this
      ensures View() == Apply(old(View()), Unlock)
    {
      var lock := txLock;
      while lock > LOCKED
        invariant RouseMany(Receivers(), lock) == RouseMany(old(Receivers()), old(txLock))
        invariant View() == old(View()).(receivers := Receivers()) && txLock == old(txLock)
      {
        if waitingToReceive != [] {
          WakeReceiver();
        } else {
          break;
        }
        lock := lock - 1;
      }
      txLock := UNLOCKED;
      phase := UnlockRx;
    }

    /** The second critical section of prvUnlockQueue. */
    method UnlockReceive()
      requires phase.UnlockRx?
      modifies this
      ensures View() == Apply(old(View()), Unlock)
    {
      var lock := rxLock;
      while lock > LOCKED
        invariant RouseMany(Senders(), lock) == RouseMany(old(Senders()), old(rxLock))
        invariant View() == old(View()).(senders := Senders()) && rxLock == old(rxLock)
      {
        if waitingToSend != [] {
          WakeSender();
          lock := lock - 1;
        } else {
          break;
        }
      }
      rxLock := UNLOCKED;
      phase := Idle;
    }
  }
}
