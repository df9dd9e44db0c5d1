/**
 Go channels that carry no value and are only ever closed.  A specification names channels by the
 order in which they were made.
 */
module Channels {
  import opened Prelude

  class Chan {
    ghost const number: nat
    var closed: bool

    constructor (closed: bool, ghost number: nat)
      ensures this.closed == closed && this.number == number
    {
      this.closed, this.number := closed, number;
    }
  }

  ghost function ChanLink(c: Chan?): Option<nat> {
    if c == null then None else Some(c.number)
  }

  ghost predicate KnownChan(chans: seq<Chan>, c: Chan?) {
    c != null ==> c.number < |chans| && chans[c.number] == c
  }

  ghost predicate ClosedMatch(chans: seq<Chan>, closed: set<nat>)
    reads chans`closed
  {
    && (forall c {:trigger chans[c]} :: 0 <= c < |chans| ==> chans[c].number == c)
    && (forall c {:trigger chans[c]} :: 0 <= c < |chans| ==> (chans[c].closed <==> c in closed))
    && (forall c <- closed :: c < |chans|)
  }

  /** close(ch): closing a closed channel panics, so that is what the caller must rule out. */
  method Close(ch: Chan, ghost chans: seq<Chan>, ghost closed: set<nat>)
    requires KnownChan(chans, ch) && ClosedMatch(chans, closed) && !ch.closed
    modifies ch`closed
    ensures ch.closed && ClosedMatch(chans, closed + {ch.number})
  {
    ch.closed := true;
  }
}
