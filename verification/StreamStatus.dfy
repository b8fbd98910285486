/** The shared end status of a stream and the control object of one callback. */
module StreamStatus {
  import opened StreamScanner

  const MAX_STREAM_ERRORS := 20

  /** Methods are atomic: each runs under the status object's own lock. */
  class Status {
    var ended: bool            // sync.Once has fired
    var reason: Reason
    var err: string
    var errors: seq<string>
    var errCount: nat

    ghost var attempts: seq<(Reason, string)>   // every SetEndReason call
    ghost var reported: seq<string>             // every RecordError message

    /** The first attempt wins; the first 20 messages are kept, all are counted. */
    ghost predicate Valid()
      reads this
    {
      && (if attempts == [] then !ended && reason == Unset
          else ended && reason == attempts[0].0 && err == attempts[0].1)
      && errCount == |reported|
      && errors == reported[..if |reported| < 20 then |reported| else 20]
    }

    constructor ()
      ensures Valid() && attempts == [] && reported == []
    {
      ended, reason, err, errors, errCount := false, Unset, "", [], 0;
      attempts, reported := [], [];
    }

    method SetEndReason(r: Reason, e: string)
      requires Valid()
      modifies this
      ensures Valid() && attempts == old(attempts) + [(r, e)] && reported == old(reported)
      ensures old(attempts) == [] ==> reason == r && err == e
      ensures old(attempts) != [] ==> reason == old(reason) && err == old(err)
      ensures old(ended) == (old(reason) != Unset) && r != Unset ==> reason == Ended(old(reason), r)
    {
      if !ended {
        ended, reason, err := true, r, e;
      }
      attempts := attempts + [(r, e)];
    }

    method RecordError(msg: string)
      requires Valid()
      modifies this
      ensures Valid() && reported == old(reported) + [msg] && attempts == old(attempts)
      ensures reason == old(reason) && err == old(err)
    {
      errCount := errCount + 1;
      if |errors| < MAX_STREAM_ERRORS {
        errors := errors + [msg];
      }
      reported := reported + [msg];
    }

    function GetEndReason(): Reason
      reads this
    {
      reason
    }
  }

  /** What one callback may do to the stream. */
  class Result {
    const status: Status
    var stopped: bool

    constructor (status: Status)
      ensures this.status == status && !stopped
    {
      this.status, stopped := status, false;
    }

    method Stop(e: string)
      requires status.Valid()
      modifies this, status
      ensures status.Valid() && stopped && status.attempts == old(status.attempts) + [(HandlerStop, e)]
      ensures status.reported == old(status.reported)
    {
      stopped := true;
      status.SetEndReason(HandlerStop, e);
    }

    method Finish()
      requires status.Valid()
      modifies this, status
      ensures status.Valid() && stopped && status.attempts == old(status.attempts) + [(Done, "")]
      ensures status.reported == old(status.reported)
    {
      stopped := true;
      status.SetEndReason(Done, "");
    }

    method Fail(e: string)
      requires status.Valid()
      modifies status
      ensures status.Valid() && status.reported == old(status.reported) + ["handler error: " + e]
      ensures status.attempts == old(status.attempts) && stopped == old(stopped)
    {
      status.RecordError("handler error: " + e);
    }

    method Reset()
      modifies this
      ensures !stopped
    {
      stopped := false;
    }
  }

  // ---------------------------------------------------------------- the data-handler loop

  /** What a callback does with its control object. */
  datatype Effect = CallStop(err: string) | CallDone | CallError(err: string)

  predicate Stops(es: seq<Effect>) {
    exists i :: 0 <= i < |es| && !es[i].CallError?
  }

  /** The attempts to end the stream that a callback makes. */
  function EndingsOf(es: seq<Effect>): seq<(Reason, string)> {
    if es == [] then []
    else
      EndingsOf(es[..|es| - 1]) +
      match es[|es| - 1]
      case CallStop(e) => [(HandlerStop, e)]
      case CallDone => [(Done, "")]
      case CallError(_) => []
  }

  lemma {:induction false} StopsIfEnding(es: seq<Effect>)
    ensures Stops(es) <==> EndingsOf(es) != []
  {
    if es != [] {
      var n := |es| - 1;
      StopsIfEnding(es[..n]);
      if Stops(es[..n]) {
        var i :| 0 <= i < n && !es[..n][i].CallError?;
        assert !es[i].CallError?;
      }
      if Stops(es) {
        var i :| 0 <= i < |es| && !es[i].CallError?;
        assert i < n ==> !es[..n][i].CallError?;
      }
    }
  }

  /** One callback. */
  method Callback(sr: Result, es: seq<Effect>)
    requires sr.status.Valid() && !sr.stopped
    modifies sr, sr.status
    ensures sr.status.Valid() && sr.stopped == Stops(es)
    ensures sr.status.attempts == old(sr.status.attempts) + EndingsOf(es)
  {
    for i := 0 to |es|
      invariant sr.status.Valid() && sr.stopped == Stops(es[..i])
      invariant sr.status.attempts == old(sr.status.attempts) + EndingsOf(es[..i])
    {
      assert es[..i + 1][..i] == es[..i];
      StopsIfEnding(es[..i]);
      StopsIfEnding(es[..i + 1]);
      match es[i] {
        case CallStop(e) => sr.Stop(e);
        case CallDone => sr.Finish();
        case CallError(e) => sr.Fail(e);
      }
    }
    assert es[..|es|] == es;
  }

  /** The data-handler loop over what it receives until the channel is closed. The payloads
      handled end with the first whose callback stops, however the control object was left
      before; and a stream nobody had ended yet ends with that callback's first reason. */
  method HandleData(sr: Result, data: seq<string>, callback: string -> seq<Effect>) returns (handled: seq<string>)
    requires sr.status.Valid()
    modifies sr, sr.status
    ensures sr.status.Valid() && handled <= data
    ensures forall i :: 0 <= i < |handled| - 1 ==> !Stops(callback(handled[i]))
    ensures |handled| < |data| ==> handled != [] && Stops(callback(handled[|handled| - 1]))
    ensures handled != [] ==> sr.stopped == Stops(callback(handled[|handled| - 1]))
    ensures handled == [] ==> sr.status.attempts == old(sr.status.attempts)
    ensures handled != [] ==>
              sr.status.attempts == old(sr.status.attempts) + EndingsOf(callback(handled[|handled| - 1]))
    ensures old(sr.status.attempts) == [] && handled != [] && Stops(callback(handled[|handled| - 1])) ==>
              var endings := EndingsOf(callback(handled[|handled| - 1]));
              endings != [] && sr.status.reason == endings[0].0 && sr.status.err == endings[0].1
  {
    handled := [];
    for i := 0 to |data|
      invariant sr.status.Valid() && handled == data[..i]
      invariant forall k :: 0 <= k < i ==> !Stops(callback(data[k]))
      invariant i > 0 ==> !sr.stopped
      invariant sr.status.attempts == old(sr.status.attempts)
    {
      sr.Reset();
      StopsIfEnding(callback(data[i]));
      Callback(sr, callback(data[i]));
      handled := handled + [data[i]];
      if sr.stopped { return; }
    }
    if handled != [] { StopsIfEnding(callback(handled[|handled| - 1])); }
  }
}
