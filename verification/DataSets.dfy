/**
  The data set of a collective: it counts the streams that have ended and tells the layer that waits for it.
*/
module DataSets {

  // `told` is how often the layer has been told.
  datatype State = State(totalStreams: nat, finishedStreams: nat, finished: bool, told: nat)

  function Start(total: nat): State { State(total, 0, false, 0) }

  function Notified(d: State): State {
    var n := d.finishedStreams + 1;
    if n == d.totalStreams then State(d.totalStreams, n, true, d.told + 1) else d.(finishedStreams := n)
  }

  function Times(d: State, n: nat): State { if n == 0 then d else Notified(Times(d, n - 1)) }

  // The flag is up, and the layer told once, from the notification on that makes up the total; a data set
  // of no streams is never finished.
  lemma {:induction false} TimesIs(total: nat, n: nat)
    ensures var up := 1 <= total <= n; Times(Start(total), n) == State(total, n, up, if up then 1 else 0)
  {
    if n > 0 { TimesIs(total, n - 1); }
  }

  class DataSet {
    var totalStreams: nat
    var finishedStreams: nat
    var finished: bool
    var active: bool
    var told: nat

    ghost function View(): State
      reads this
    {
      State(totalStreams, finishedStreams, finished, told)
    }

    // As many notifications as streams were counted.
    ghost predicate Valid()
      reads this
    {
      View() == Times(Start(totalStreams), finishedStreams)
    }

    constructor (total: nat)
      ensures View() == Start(total) && active && Valid()
    {
      totalStreams, finishedStreams, finished, active, told := total, 0, false, true, 0;
    }

    // The data set is finished, and its layer told once, by the last stream it waits for.
    method NotifyStreamFinished()
      requires Valid()
      modifies this`finishedStreams, this`finished, this`told
      ensures Valid() && View() == Notified(old(View()))
      ensures finished <==> 1 <= totalStreams <= finishedStreams
      ensures told == if finished then 1 else 0
    {
      finishedStreams := finishedStreams + 1;
      if finishedStreams == totalStreams {
        finished := true;
        told := told + 1;
      }
      TimesIs(totalStreams, finishedStreams);
    }
  }
}
