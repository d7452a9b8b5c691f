/** What the server lets the outside world observe, in the order it happens:
    status codes sent to a client and lines written to standard output. The
    response writer and the logger both append to one shared trace, so the
    order of the two kinds of output can be stated. */
module Output {

  datatype Event =
    | StatusSent(code: int)     // a WriteHeader call reached the client's writer
    | LineLogged(index: nat)    // the logger wrote its line number `index` (from 0)

  /** The events seen so far, oldest first. */
  class Trace {
    ghost var events: seq<Event>

    constructor ()
      ensures events == []
    {
      events := [];
    }
  }

  /** The events a series of WriteHeader calls with these codes produces. */
  function StatusEvents(codes: seq<int>): (es: seq<Event>)
    ensures |es| == |codes|
    ensures forall i :: 0 <= i < |codes| ==> es[i] == StatusSent(codes[i])
  {
    seq(|codes|, i requires 0 <= i < |codes| => StatusSent(codes[i]))
  }

  /** The events of `n` consecutive log lines, numbered from `from`. */
  function LineEvents(from: nat, n: nat): (es: seq<Event>)
    ensures |es| == n
    ensures forall i :: 0 <= i < n ==> es[i] == LineLogged(from + i)
  {
    seq(n, i requires 0 <= i < n => LineLogged(from + i))
  }

  /** Lines written one after another number on from each other. */
  lemma LineEventsAppend(from: nat, n: nat, m: nat)
    ensures LineEvents(from, n) + LineEvents(from + n, m) == LineEvents(from, n + m)
  {
    var xs, ys := LineEvents(from, n), LineEvents(from + n, m);
    forall i | 0 <= i < n + m
      ensures (xs + ys)[i] == LineLogged(from + i)
    {
      if i >= n {
        assert (xs + ys)[i] == ys[i - n];
      }
    }
  }

  /** One more line extends the events by that line's event. */
  lemma LineEventsSnoc(from: nat, n: nat)
    ensures LineEvents(from, n + 1) == LineEvents(from, n) + [LineLogged(from + n)]
  {
    LineEventsAppend(from, n, 1);
  }
}
