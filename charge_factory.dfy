/** The charge thunk of the payments actions: it dispatches CHARGE_REQUEST,
    calls the post-charges client, reads the charge id from the `location`
    response header, and dispatches CHARGE_SUCCESS or CHARGE_FAILURE. */
module ChargeFactory {
  import opened Wrappers
  import opened JsText

  /** The marker the charge id follows in the `location` header. */
  const ChargesMarker: string := "charges/"

  /** A client response: its `headers` object (None when absent) and `data`. */
  datatype Response<D> = Response(headers: Option<map<string, string>>, data: D)

  /** What the awaited `postCharges(id, data, config)` settles with: a result
      (None when the promise resolves with undefined) or a rejection. */
  datatype Settled<D, E> = Resolved(result: Option<Response<D>>) | Rejected(error: E)

  /** A value thrown inside the `try` block: the client's own error, or a
      TypeError raised by reading a property of undefined. */
  datatype Thrown<E> = ClientError(error: E) | TypeError

  datatype Action<D, E> =
    | ChargeRequest
    | ChargeSuccess(payload: D, chargeId: string)
    | ChargeFailure(error: Thrown<E>)

  /** What the thunk does, in order: dispatch an action, or call the client. */
  datatype Event<P, D, E> =
    | Dispatched(action: Action<D, E>)
    | ClientCalled(id: string, data: P)

  /** How the thunk's promise settles: with the whole result, or by rethrowing. */
  datatype ThunkOutcome<D, E> = Returned(result: Response<D>) | Threw(error: Thrown<E>)

  lemma ChargesMarkerIsBorderFree()
    ensures BorderFree(ChargesMarker)
  {
    forall k | 0 < k < |ChargesMarker|
      ensures ChargesMarker[k..] != ChargesMarker[..|ChargesMarker| - k]
    {
      assert ChargesMarker[..|ChargesMarker| - k][0] == 'c';
      assert ChargesMarker[k..][0] == ChargesMarker[k] != 'c';
    }
  }

  /** `location?.split('charges/')[1] || ''`: the second piece of the split, or
      the empty string when the header is missing or has no second piece. */
  function ChargeIdFromLocation(location: Option<string>): string
  {
    match location
    case None => ""
    case Some(l) =>
      var parts := Split(l, ChargesMarker);
      if |parts| > 1 then parts[1] else ""
  }

  /** The first piece of a split is everything before the first separator. */
  lemma SplitFirstPiece(l: string, sep: string, i: nat)
    requires |sep| > 0 && IndexOf(l, sep) == Some(i)
    ensures Split(l, sep) == [l[..i]] + Split(l[i + |sep|..], sep)
  {
  }

  /** The charge id is the text between the first `charges/` and the next one
      (or the end of the header). */
  lemma {:induction false} ChargeIdBetweenMarkers(pre: string, id: string, tail: string)
    requires !Contains(pre, ChargesMarker) && !Contains(id, ChargesMarker)
    requires tail == "" || OccursAt(tail, ChargesMarker, 0)
    ensures ChargeIdFromLocation(Some(pre + ChargesMarker + id + tail)) == id
  {
    ChargesMarkerIsBorderFree();
    var m := ChargesMarker;
    var rest := id + tail;
    var l := pre + m + rest;
    assert l == pre + m + id + tail;
    FirstOccurrenceAfter(pre, m, rest);
    assert l[|pre| + |m|..] == rest;
    SplitFirstPiece(l, m, |pre|);
    if tail == "" {
      assert rest == id;
      assert Split(id, m) == [id];
    } else {
      var t := tail[|m|..];
      assert tail == m + t;
      assert rest == id + m + t;
      FirstOccurrenceAfter(id, m, t);
      SplitFirstPiece(rest, m, |id|);
      assert rest[..|id|] == id;
    }
  }

  /** The three ways the charge id comes out empty: no header, no `charges/`
      in it, or nothing between the first `charges/` and the next one or the end. */
  lemma {:induction false} ChargeIdEmpty(location: Option<string>)
    ensures ChargeIdFromLocation(location) == "" <==>
      || location.None?
      || !Contains(location.value, ChargesMarker)
      || (var i := IndexOf(location.value, ChargesMarker).value;
          var after := location.value[i + |ChargesMarker|..];
          after == "" || OccursAt(after, ChargesMarker, 0))
  {
    if location.Some? && Contains(location.value, ChargesMarker) {
      var l := location.value;
      var i := IndexOf(l, ChargesMarker).value;
      var after := l[i + |ChargesMarker|..];
      var parts := Split(l, ChargesMarker);
      assert parts[1..] == Split(after, ChargesMarker);
      var first := Split(after, ChargesMarker)[0];
      assert parts[1] == first;
      if after == "" {
        assert first == "";
      } else if OccursAt(after, ChargesMarker, 0) {
        IndexOfIsFirst(after, ChargesMarker, 0);
        assert first == after[..0];
      } else if IndexOf(after, ChargesMarker).Some? {
        assert IndexOf(after, ChargesMarker).value > 0;
        assert |first| > 0;
      } else {
        assert first == after;
      }
    }
  }

  /** `result?.headers['location']?.split('charges/')[1] || ''`. The `?.`
      after `result` covers a missing result (the whole chain is undefined);
      a present result without a `headers` object throws a TypeError. */
  function ChargeId<D>(result: Option<Response<D>>): (r: Option<string>)
    ensures r.None? <==> result.Some? && result.value.headers.None?
  {
    match result
    case None => Some("")
    case Some(res) =>
      match res.headers
      case None => None
      case Some(h) => Some(ChargeIdFromLocation(if "location" in h then Some(h["location"]) else None))
  }

  /** What happens after the client call has settled: the action dispatched
      and the outcome of the thunk. The success path also reads `result.data`,
      which throws when the result is missing. */
  function AfterCall<D, E>(reply: Settled<D, E>): (Action<D, E>, ThunkOutcome<D, E>)
  {
    match reply
    case Rejected(e) => (ChargeFailure(ClientError(e)), Threw(ClientError(e)))
    case Resolved(result) =>
      match ChargeId(result)
      case None => (ChargeFailure(TypeError), Threw(TypeError))
      case Some(chargeId) =>
        match result
        case None => (ChargeFailure(TypeError), Threw(TypeError))
        case Some(res) => (ChargeSuccess(res.data, chargeId), Returned(res))
  }

  /** Everything the thunk does, in order. */
  function ChargeEvents<P, D, E>(id: string, data: P, reply: Settled<D, E>): seq<Event<P, D, E>>
  {
    [Dispatched(ChargeRequest), ClientCalled(id, data), Dispatched(AfterCall(reply).0)]
  }

  /** CHARGE_REQUEST is dispatched before the client is called, then exactly
      one more action follows, which is CHARGE_SUCCESS or CHARGE_FAILURE. */
  lemma ChargeEventsOrder<P, D, E>(id: string, data: P, reply: Settled<D, E>)
    ensures var ev := ChargeEvents(id, data, reply);
      && |ev| == 3
      && ev[0] == Dispatched(ChargeRequest)
      && ev[1] == ClientCalled(id, data)
      && ev[2].Dispatched? && (ev[2].action.ChargeSuccess? || ev[2].action.ChargeFailure?)
      && (forall k :: 0 <= k < |ev| && k != 0 ==> ev[k] != Dispatched(ChargeRequest))
  {
  }

  /** Success: one CHARGE_SUCCESS carrying `result.data` and the charge id of
      the `location` header, and the thunk returns the whole result. */
  lemma ChargeSucceeds<P, D, E>(id: string, data: P, res: Response<D>, h: map<string, string>)
    requires res.headers == Some(h)
    ensures var ev := ChargeEvents<P, D, E>(id, data, Resolved(Some(res)));
      && ev[2] == Dispatched(ChargeSuccess(res.data,
           ChargeIdFromLocation(if "location" in h then Some(h["location"]) else None)))
      && AfterCall<D, E>(Resolved(Some(res))).1 == Returned(res)
      && (forall k :: 0 <= k < |ev| ==> !(ev[k].Dispatched? && ev[k].action.ChargeFailure?))
  {
  }

  /** Client failure: CHARGE_FAILURE with that error, the same error rethrown,
      and no CHARGE_SUCCESS. */
  lemma ChargeFailsOnRejection<P, D, E>(id: string, data: P, e: E)
    ensures var ev := ChargeEvents<P, D, E>(id, data, Rejected(e));
      && ev[2] == Dispatched(ChargeFailure(ClientError(e)))
      && AfterCall<D, E>(Rejected(e)).1 == Threw(ClientError(e))
      && (forall k :: 0 <= k < |ev| ==> !(ev[k].Dispatched? && ev[k].action.ChargeSuccess?))
  {
  }

  /** A result without `headers`, or a missing result, throws inside the `try`
      and takes the failure path with a TypeError. */
  lemma ChargeFailsWithoutHeaders<P, D, E>(id: string, data: P, result: Option<Response<D>>)
    requires result.None? || result.value.headers.None?
    ensures ChargeEvents<P, D, E>(id, data, Resolved(result))[2] == Dispatched(ChargeFailure(TypeError))
    ensures AfterCall<D, E>(Resolved(result)).1 == Threw(TypeError)
  {
  }

  /** The redux store as the thunk sees it, together with the client it calls:
      the log of everything that happened, in order. */
  class Store<P, D, E> {
    var log: seq<Event<P, D, E>>

    constructor ()
      ensures log == []
    {
      log := [];
    }

    method Dispatch(action: Action<D, E>)
      modifies this
      ensures log == old(log) + [Dispatched(action)]
    {
      log := log + [Dispatched(action)];
    }

    /** The call `postCharges(id, data, config)`; `reply` is what it settles with. */
    method PostCharges(id: string, data: P, reply: Settled<D, E>) returns (settled: Settled<D, E>)
      modifies this
      ensures log == old(log) + [ClientCalled(id, data)]
      ensures settled == reply
    {
      log := log + [ClientCalled(id, data)];
      settled := reply;
    }
  }

  /** The thunk returned by `postChargesFactory(postCharges)(id, data, config)`,
      run against `store`. */
  method RunChargeThunk<P, D, E>(store: Store<P, D, E>, id: string, data: P, reply: Settled<D, E>)
    returns (outcome: ThunkOutcome<D, E>)
    modifies store
    ensures store.log == old(store.log) + ChargeEvents(id, data, reply)
    ensures outcome == AfterCall(reply).1
  {
    store.Dispatch(ChargeRequest);
    var settled := store.PostCharges(id, data, reply);
    match settled {
      case Rejected(e) =>
        store.Dispatch(ChargeFailure(ClientError(e)));
        outcome := Threw(ClientError(e));
      case Resolved(result) =>
        var chargeId := ChargeId(result);
        if chargeId.None? || result.None? {
          store.Dispatch(ChargeFailure(TypeError));
          outcome := Threw(TypeError);
        } else {
          store.Dispatch(ChargeSuccess(result.value.data, chargeId.value));
          outcome := Returned(result.value);
        }
    }
  }
}
