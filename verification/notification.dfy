/**
 Notification: a trigger on one futex word.  The step functions of both sides are shared by
 NotificationOnce and AgentRpc; the futex system call is one atomic step that sleeps only while the
 word still has the expected value.
 */
module Notifications {
  datatype Word = NoWaiter | Waiter | Notified

  /** Inside WaitForNotification and Futex::Wait. */
  datatype Wait =
    | WaitLoad
    | WaitCas
    | FutexCall
    | Asleep
    | Woken
    | Returned

  /** Inside Notify; v is the value loaded or exchanged. */
  datatype Notify =
    | NotifyLoad
    | NotifyCheck(v: Word)
    | NotifyCas(v: Word)
    | NotifyWake
    | NotifyDone

  /**
   One step of a waiting thread.  fluke: a weak exchange fails for no reason, or a futex wait
   returns EINTR.
   */
  function WaitStep(word: Word, pc: Wait, fluke: bool): (Word, Wait) {
    match pc
    case WaitLoad => (word, match word case Notified => Returned case NoWaiter => WaitCas case Waiter => FutexCall)
    case WaitCas => if word == NoWaiter && !fluke then (Waiter, WaitLoad) else (word, WaitLoad)
    case FutexCall => (word, if fluke then FutexCall else if word == Waiter then Asleep else Returned)
    case Asleep => (word, Asleep)
    case Woken => (word, if word != Waiter then Returned else FutexCall)
    case Returned => (word, Returned)
  }

  /** One step of a notifying thread. */
  function NotifyStep(word: Word, pc: Notify, fluke: bool): (Word, Notify) {
    match pc
    case NotifyLoad => (word, NotifyCheck(word))
    case NotifyCheck(v) => (word, NotifyCas(v))
    case NotifyCas(v) =>
      if word == v && !fluke then (Notified, if v == Waiter then NotifyWake else NotifyDone)
      else (word, NotifyLoad)
    case NotifyWake => (word, NotifyDone)
    case NotifyDone => (word, NotifyDone)
  }

  predicate CheckFails(word: Word, pc: Notify) { pc.NotifyCheck? && word == Notified }

  /** The waiter has asked for a wake-up, so the word is no longer NoWaiter. */
  predicate Committed(pc: Wait) { pc == FutexCall || pc == Asleep || pc == Woken }
}
