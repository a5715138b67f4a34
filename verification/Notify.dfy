/** The history of one condition key in the notification center. */
module Notify {
  datatype Notice = Onset | Update | Clear | Resolve

  /** A condition is active from its onset to the next clear or resolve. */
  predicate Active(log: seq<Notice>) {
    log != [] &&
    match log[|log| - 1]
    case Onset => true
    case Update => Active(log[..|log| - 1])
    case Clear => false
    case Resolve => false
  }

  /** How many times the condition was reported as a fresh notification. */
  function Onsets(log: seq<Notice>): nat {
    if log == [] then 0
    else Onsets(log[..|log| - 1]) + if log[|log| - 1].Onset? then 1 else 0
  }

  /** Onset: idempotent while the condition is active. */
  function Raise(log: seq<Notice>): (r: seq<Notice>)
    ensures Active(r)
    ensures Onsets(r) == Onsets(log) + if Active(log) then 0 else 1
  {
    if Active(log) then log else Append(log, Onset)
  }

  /** Update: rewrites the text of an active condition in place. */
  function Rewrite(log: seq<Notice>): (r: seq<Notice>)
    ensures Active(r) == Active(log)
    ensures Onsets(r) == Onsets(log)
  {
    if Active(log) then Append(log, Update) else log
  }

  /** Clear or Resolve: a no-op while the condition is not active. */
  function End(log: seq<Notice>, how: Notice): (r: seq<Notice>)
    requires how.Clear? || how.Resolve?
    ensures !Active(r)
    ensures Onsets(r) == Onsets(log)
  {
    if Active(log) then Append(log, how) else log
  }

  function Append(log: seq<Notice>, n: Notice): (r: seq<Notice>)
    ensures Active(r) == (n.Onset? || (n.Update? && Active(log)))
    ensures Onsets(r) == Onsets(log) + if n.Onset? then 1 else 0
  {
    assert (log + [n])[..|log|] == log;
    log + [n]
  }
}
