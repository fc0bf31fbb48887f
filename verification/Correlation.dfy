/**
 The state of one invoked command: which of the callbacks delivered for it count as its answer.
 The callbacks of one command are serialized; any sequence of them is considered.
 */
module Correlation {
  import opened Basics

  datatype Path = Path(endpoint: u16, cluster: u32, command: u32)

  /** Error values that the outcome of a command can carry. */
  datatype Error = InvalidArgument | DecodeFailed | TimedOut | ImStatus(status: u8) | Native(code: u32)

  /** The payload of a response, as far as the projection gets: absent, undecodable, or a property set. */
  datatype Payload<+V> = NoData | Garbled | Data(value: V)

  datatype Callback<+V> =
    | OnResponse(path: Path, status: Option<u8>, payload: Payload<V>)   // status: a non-success IM status
    | OnError(error: Error)

  /** What the command was and what its caller asked for; `expected` is the response command to insist on. */
  datatype Request = Request(path: Path, expected: Option<u32>, needsData: bool)

  datatype Progress<+V> = Progress(result: Option<Error>, seen: bool, value: Option<Payload<V>>)

  /** The response is rejected before it is looked at. */
  predicate Mismatched<V>(q: Request, seen: bool, c: Callback<V>)
    requires c.OnResponse?
  {
    && q.expected.Some?
    && (|| seen
        || c.path.endpoint != q.path.endpoint
        || c.path.cluster != q.path.cluster
        || (c.status.None? && (c.path.command != q.expected.value || (q.needsData && c.payload.NoData?))))
  }

  function Absorb<V>(q: Request, p: Progress<V>, c: Callback<V>): Progress<V> {
    match c
    case OnError(e) => p.(result := Some(e))
    case OnResponse(_, status, payload) =>
      if Mismatched(q, p.seen, c) then p.(result := Some(InvalidArgument))
      else if status.Some? then p.(seen := true, result := Some(ImStatus(status.value)))
      else if payload.Garbled? then p.(seen := true, result := Some(DecodeFailed))
      else p.(seen := true, value := Some(payload))
  }

  function AbsorbAll<V>(q: Request, p: Progress<V>, cs: seq<Callback<V>>): Progress<V> {
    if cs == [] then p else Absorb(q, AbsorbAll(q, p, cs[..|cs| - 1]), cs[|cs| - 1])
  }

  /** The outcome the waiting caller reads once the sender is done. */
  function Outcome<V>(q: Request, cs: seq<Callback<V>>): Result<Payload<V>, Error> {
    var p := AbsorbAll(q, Progress(None, false, None), cs);
    if p.result.Some? then Err(p.result.value)
    else if q.expected.Some? && !p.seen then Err(TimedOut)
    else if p.value.Some? then Ok(p.value.value)
    else Ok(NoData)
  }

  class GenericInvokeState<V> {
    const request: Request
    var result: Option<Error>
    var responseSeen: bool
    var value: Option<Payload<V>>
    var complete: bool

    function Contents(): Progress<V>
      reads this
    {
      Progress(result, responseSeen, value)
    }

    constructor (request: Request)
      ensures this.request == request && Contents() == Progress(None, false, None) && !complete
    {
      this.request := request;
      result, responseSeen, value, complete := None, false, None, false;
    }

    method OnResponse(path: Path, status: Option<u8>, payload: Payload<V>)
      modifies this
      ensures Contents() == Absorb(request, old(Contents()), Callback.OnResponse(path, status, payload))
      ensures if && request.expected.Some?
                 && (|| old(responseSeen) || path.endpoint != request.path.endpoint || path.cluster != request.path.cluster
                     || (status.None? && (path.command != request.expected.value || (request.needsData && payload.NoData?))))
              then result == Some(InvalidArgument) && responseSeen == old(responseSeen) && value == old(value)
              else responseSeen &&
                   if status.Some? then result == Some(ImStatus(status.value)) && value == old(value)
                   else if payload.Garbled? then result == Some(DecodeFailed) && value == old(value)
                   else result == old(result) && value == Some(payload)
      ensures complete == old(complete)
    {
      if request.expected.Some? &&
         (responseSeen || path.endpoint != request.path.endpoint || path.cluster != request.path.cluster ||
          (status.None? && (path.command != request.expected.value || (request.needsData && payload.NoData?)))) {
        result := Some(InvalidArgument);
        return;
      }
      responseSeen := true;
      if status.Some? {
        result := Some(ImStatus(status.value));
        return;
      }
      if payload.Garbled? {
        result := Some(DecodeFailed);
      } else {
        value := Some(payload);
      }
    }

    method OnError(error: Error)
      modifies this
      ensures Contents() == Absorb(request, old(Contents()), Callback<V>.OnError(error))
      ensures complete == old(complete)
    {
      result := Some(error);
    }

    /** A failure to connect or to send ends the command without further callbacks. */
    method Finish(error: Error)
      modifies this
      ensures Contents() == old(Contents()).(result := Some(error)) && complete
    {
      result := Some(error);
      complete := true;
    }

    /** After the callbacks `cs`, the stored result is the outcome of `cs`. */
    method OnDone(ghost cs: seq<Callback<V>>)
      requires Contents() == AbsorbAll(request, Progress(None, false, None), cs)
      modifies this
      ensures complete
      ensures result == match Outcome(request, cs) case Ok(_) => None case Err(e) => Some(e)
    {
      if request.expected.Some? && !responseSeen && result.None? {
        result := Some(TimedOut);
      }
      complete := true;
    }
  }

  /** The one response a caller that named a response command accepts. */
  predicate Correlated<V>(q: Request, c: Callback<V>) {
    && c.OnResponse?
    && c.path.endpoint == q.path.endpoint
    && c.path.cluster == q.path.cluster
    && q.expected == Some(c.path.command)
    && c.status.None?
    && !c.payload.Garbled?
    && (q.needsData ==> !c.payload.NoData?)
  }

  ghost predicate Clean<V>(q: Request, cs: seq<Callback<V>>) {
    && AbsorbAll(q, Progress(None, false, None), cs).result.None?
  }

  lemma {:induction false} CleanMeansAtMostOne<V>(q: Request, cs: seq<Callback<V>>)
    requires q.expected.Some?
    ensures Clean(q, cs) <==> cs == [] || (|cs| == 1 && Correlated(q, cs[0]))
    ensures Clean(q, cs) ==>
              AbsorbAll(q, Progress(None, false, None), cs) ==
              if cs == [] then Progress(None, false, None) else Progress(None, true, Some(cs[0].payload))
    decreases |cs|
  {
    if cs == [] {
    } else {
      var front, last := cs[..|cs| - 1], cs[|cs| - 1];
      CleanMeansAtMostOne(q, front);
      var p := AbsorbAll(q, Progress(None, false, None), front);
      assert Clean(q, cs) ==> p.result.None?;
      if |cs| == 1 {
        assert front == [];
      }
    }
  }

  /**
   A command that named its response succeeds exactly when the only callback it ever got is one
   correlated, decodable, successful response; the value returned is the payload of that response.
   */
  lemma SucceedsOnlyOnOneCorrelatedResponse<V>(q: Request, cs: seq<Callback<V>>)
    requires q.expected.Some?
    ensures Outcome(q, cs).Ok? <==> |cs| == 1 && Correlated(q, cs[0])
    ensures Outcome(q, cs).Ok? ==> Outcome(q, cs) == Ok(cs[0].payload)
  {
    CleanMeansAtMostOne(q, cs);
  }

  /** The callback tells that the peer refused the command. */
  predicate Refuses<V>(c: Callback<V>) {
    (c.OnResponse? && c.status.Some?) || (c.OnError? && c.error.ImStatus?)
  }

  /** An outcome that is an IM status was told by some callback; it is never made up locally. */
  lemma {:induction false} ImStatusComesFromThePeer<V>(q: Request, cs: seq<Callback<V>>)
    ensures AbsorbAll(q, Progress(None, false, None), cs).result.Some?
            && AbsorbAll(q, Progress(None, false, None), cs).result.value.ImStatus? ==>
              exists c <- cs :: Refuses(c)
    ensures Outcome(q, cs).Err? && Outcome(q, cs).error.ImStatus? ==> exists c <- cs :: Refuses(c)
    decreases |cs|
  {
    if cs == [] {
    } else {
      var front, last := cs[..|cs| - 1], cs[|cs| - 1];
      ImStatusComesFromThePeer(q, front);
      assert forall c <- front :: c in cs;
      assert last in cs;
    }
  }

  /** A response that is no failure on its own. */
  predicate Succeeds<V>(c: Callback<V>) {
    c.OnResponse? && c.status.None? && !c.payload.Garbled?
  }

  /**
   A command that named no response succeeds exactly when no callback failed, whatever their number and paths,
   and returns the payload of the last response, or none if there was none.
   */
  lemma UnnamedTakesTheLast<V>(q: Request, cs: seq<Callback<V>>)
    requires q.expected.None?
    ensures Outcome(q, cs).Ok? <==> forall c <- cs :: Succeeds(c)
    ensures Outcome(q, cs).Ok? ==> Outcome(q, cs) == Ok(if cs == [] then NoData else cs[|cs| - 1].payload)
  {
    UnnamedAbsorbs(q, cs);
  }

  lemma {:induction false} UnnamedAbsorbs<V>(q: Request, cs: seq<Callback<V>>)
    requires q.expected.None?
    ensures var p := AbsorbAll(q, Progress(None, false, None), cs);
            && (p.result.None? <==> forall c <- cs :: Succeeds(c))
            && (p.result.None? ==> p.value == if cs == [] then None else Some(cs[|cs| - 1].payload))
    decreases |cs|
  {
    if cs != [] {
      var front, last := cs[..|cs| - 1], cs[|cs| - 1];
      UnnamedAbsorbs(q, front);
      assert last in cs && (forall c <- front :: c in cs);
      assert forall c <- cs :: c in front || c == last;
    }
  }

  /** The error that a failing callback leaves behind when nothing is expected of it. */
  function ErrorOf<V>(c: Callback<V>): Error
    requires !Succeeds(c)
  {
    if c.OnError? then c.error else if c.status.Some? then ImStatus(c.status.value) else DecodeFailed
  }

  /** Of several failures the last one is reported. */
  lemma {:induction false} UnnamedReportsTheLastFailure<V>(q: Request, cs: seq<Callback<V>>, k: nat)
    requires q.expected.None? && k < |cs| && !Succeeds(cs[k]) && forall i | k < i < |cs| :: Succeeds(cs[i])
    ensures Outcome(q, cs) == Err(ErrorOf(cs[k]))
    decreases |cs|
  {
    var front := cs[..|cs| - 1];
    if k < |cs| - 1 {
      UnnamedReportsTheLastFailure(q, front, k);
    }
  }

  /**
   A command that named its response reports a refusal told by the one callback from its own endpoint and
   cluster, and a timeout when there was none.
   */
  lemma RefusalIsReported<V>(q: Request, c: Callback<V>)
    requires q.expected.Some? && c.OnResponse? && c.status.Some?
    requires c.path.endpoint == q.path.endpoint && c.path.cluster == q.path.cluster
    ensures Outcome(q, [c]) == Err(ImStatus(c.status.value))
    ensures Outcome<V>(q, []) == Err(TimedOut)
  {
    var p: Progress<V> := Progress(None, false, None);
    assert [c][..|[c]| - 1] == [] && [c][|[c]| - 1] == c;
    assert AbsorbAll(q, p, [c]) == Absorb(q, AbsorbAll(q, p, []), c);
  }

  /** A command that named its response does not take a second one, whatever came of the first. */
  lemma SecondResponseIsRefused<V>(q: Request, first: Callback<V>, second: Callback<V>)
    requires q.expected.Some? && first.OnResponse? && second.OnResponse?
    requires first.path.endpoint == q.path.endpoint && first.path.cluster == q.path.cluster
    requires first.status.Some? || (first.path.command == q.expected.value && (q.needsData ==> !first.payload.NoData?))
    ensures Outcome(q, [first, second]) == Err(InvalidArgument)
  {
    var p: Progress<V> := Progress(None, false, None);
    assert [first, second][..1] == [first] && [first][..0] == [];
    assert AbsorbAll(q, p, [first]) == Absorb(q, AbsorbAll(q, p, []), first);
    assert AbsorbAll(q, p, [first, second]) == Absorb(q, AbsorbAll(q, p, [first]), second);
  }
}
