/**
 The model bridge (internal/modelbridge/bridge.go): the blocking calls to the
 fast ("Normal") and deep ("Reasoner") clients with their panic recovery, and
 the streaming call whose relay forwards only the deltas that carry visible
 content or reasoning.

 A client is a function from the request it receives to its outcome. A
 stream that opened is the finite sequence of the items the producer put on
 its channel, in order; `None` stands for a nil item.
 */
module ModelBridge {
  import opened Outcomes
  import opened Models

  type Complete = Request -> Result<Response>
  type CompleteStream = Request -> Result<seq<Option<Response>>>

  datatype Bridge = Bridge(normal: Complete, reasoner: Complete, reasonerStream: CompleteStream)

  /** The deferred `recover` of CallNormal/CallReasoner applied to the client's outcome. */
  function Recover(outcome: Result<Response>): (r: Result<Response>)
    ensures !r.Panic?
    ensures r.Ok? <==> outcome.Ok?
    ensures outcome.Ok? ==> r.value == outcome.value
    ensures outcome.Err? ==> r.error == outcome.error
    ensures outcome.Panic? ==> r.error == Fault(RuntimeErrorPrefix + outcome.reason)
  {
    match outcome
    case Ok(resp) => Ok(resp)
    case Err(e) => Err(e)
    case Panic(v) => Err(Fault(RuntimeErrorPrefix + v))
  }

  /** `CallNormal`: the fast client's response or error, unchanged; a panic in the client becomes an error. */
  function CallNormal(b: Bridge, req: Request): (r: Result<Response>)
    ensures !r.Panic?
    ensures r.Ok? <==> b.normal(req).Ok?
    ensures r.Ok? ==> r.value == b.normal(req).value
    ensures b.normal(req).Err? ==> r == b.normal(req)
    ensures b.normal(req).Panic? ==> r.Err? && ErrorText(r.error) == RuntimeErrorPrefix + b.normal(req).reason
  {
    Recover(b.normal(req))
  }

  /** `CallReasoner`: as CallNormal, for the deep client's blocking call. */
  function CallReasoner(b: Bridge, req: Request): (r: Result<Response>)
    ensures !r.Panic?
    ensures r.Ok? <==> b.reasoner(req).Ok?
    ensures r.Ok? ==> r.value == b.reasoner(req).value
    ensures b.reasoner(req).Err? ==> r == b.reasoner(req)
    ensures b.reasoner(req).Panic? ==> r.Err? && ErrorText(r.error) == RuntimeErrorPrefix + b.reasoner(req).reason
  {
    Recover(b.reasoner(req))
  }

  /** The relay's test: a non-nil item whose first choice has content or a non-empty reasoning list. */
  predicate Forwardable(item: Option<Response>)
  {
    && item.Some?
    && |item.value.choices| > 0
    && (|item.value.choices[0].message.content| > 0 || |item.value.choices[0].message.reasoning| > 0)
  }

  /** The items the relay puts on the filtered channel, in the order it receives them. */
  function Forward(raw: seq<Option<Response>>): (out: seq<Response>)
    ensures |out| <= |raw|
    ensures forall x :: x in out ==> Forwardable(Some(x))
  {
    if raw == [] then []
    else (if Forwardable(raw[0]) then [raw[0].value] else []) + Forward(raw[1..])
  }

  /** Non-nil items as they appear on the raw channel. */
  function Lift(xs: seq<Response>): (r: seq<Option<Response>>)
    ensures |r| == |xs|
    ensures forall i :: 0 <= i < |xs| ==> r[i] == Some(xs[i])
  {
    if xs == [] then [] else [Some(xs[0])] + Lift(xs[1..])
  }

  /** `CallReasonerStream`: forces `Stream`, passes a start failure through unchanged, and filters an opened stream. */
  function CallReasonerStream(b: Bridge, req: Request): (r: Result<seq<Response>>)
    ensures var sent := req.(stream := true);
      && (b.reasonerStream(sent).Err? ==> r == Err(b.reasonerStream(sent).error))
      && (b.reasonerStream(sent).Panic? ==> r == Panic(b.reasonerStream(sent).reason))
      && (b.reasonerStream(sent).Ok? ==> r == Ok(Forward(b.reasonerStream(sent).value)))
  {
    match b.reasonerStream(req.(stream := true))
    case Err(e) => Err(e)
    case Panic(v) => Panic(v)
    case Ok(raw) => Ok(Forward(raw))
  }

  /** `a` can be obtained from `b` by deleting elements. */
  predicate Subsequence<T(==)>(a: seq<T>, b: seq<T>)
    decreases |b|
  {
    if a == [] then true
    else if b == [] then false
    else (a[0] == b[0] && Subsequence(a[1..], b[1..])) || Subsequence(a, b[1..])
  }

  /** One raw item is forwarded, unchanged, exactly when it passes the test. */
  lemma ForwardOne(item: Option<Response>)
    ensures Forward([item]) == if Forwardable(item) then [item.value] else []
  {
    assert [item][1..] == [];
  }

  /**
   The relay treats each raw item on its own: the output for two stream
   pieces is the output for the first followed by the output for the second.
   With `ForwardOne` this pins the output down item by item, repeated items
   included.
   */
  lemma {:induction false} ForwardAppend(a: seq<Option<Response>>, b: seq<Option<Response>>)
    ensures Forward(a + b) == Forward(a) + Forward(b)
  {
    if a != [] {
      ForwardAppend(a[1..], b);
      assert (a + b)[0] == a[0];
      assert (a + b)[1..] == a[1..] + b;
    } else {
      assert a + b == b;
    }
  }

  /** A passing item that arrives twice is forwarded twice; a nil item between them is dropped. */
  lemma RepeatedItemForwardedTwice(x: Response)
    requires Forwardable(Some(x))
    ensures Forward([Some(x), None, Some(x)]) == [x, x]
  {
    ForwardAppend([Some(x), None], [Some(x)]);
    ForwardAppend([Some(x)], [None]);
    ForwardOne(Some(x));
    ForwardOne(None);
    assert [Some(x), None] + [Some(x)] == [Some(x), None, Some(x)];
    assert [Some(x)] + [None] == [Some(x), None];
  }

  /** Forwarding keeps an item iff it is non-nil and passes the test, and forwards it unchanged. */
  lemma {:induction false} ForwardMembership(raw: seq<Option<Response>>, x: Response)
    ensures x in Forward(raw) <==> Some(x) in raw && Forwardable(Some(x))
  {
    if raw != [] {
      ForwardMembership(raw[1..], x);
      assert raw == [raw[0]] + raw[1..];
    }
  }

  /** The forwarded items form an order-preserving subsequence of the raw items. */
  lemma {:induction false} ForwardIsSubsequence(raw: seq<Option<Response>>)
    ensures Subsequence(Lift(Forward(raw)), raw)
  {
    if raw != [] {
      ForwardIsSubsequence(raw[1..]);
      if Forwardable(raw[0]) {
        var out := Forward(raw);
        assert out == [raw[0].value] + Forward(raw[1..]);
        assert Lift(out)[1..] == Lift(Forward(raw[1..]));
      } else {
        assert Forward(raw) == Forward(raw[1..]);
      }
    }
  }

  /** Nothing is dropped iff every raw item passes; otherwise strictly fewer items come out. */
  lemma {:induction false} ForwardLength(raw: seq<Option<Response>>)
    ensures |Forward(raw)| == |raw| <==> forall i :: 0 <= i < |raw| ==> Forwardable(raw[i])
    ensures |Forward(raw)| < |raw| <==> exists i :: 0 <= i < |raw| && !Forwardable(raw[i])
  {
    if raw != [] {
      ForwardLength(raw[1..]);
      if !Forwardable(raw[0]) {
        assert |Forward(raw)| < |raw|;
      } else {
        forall i | 0 < i < |raw| ensures raw[i] == raw[1..][i - 1] {
        }
        if exists i :: 0 <= i < |raw| && !Forwardable(raw[i]) {
          var i :| 0 <= i < |raw| && !Forwardable(raw[i]);
          assert !Forwardable(raw[1..][i - 1]);
        }
      }
    }
  }

  /** When every raw item passes, the relay forwards exactly the raw items. */
  lemma {:induction false} ForwardAllPass(raw: seq<Option<Response>>)
    requires forall i :: 0 <= i < |raw| ==> Forwardable(raw[i])
    ensures Lift(Forward(raw)) == raw
  {
    if raw != [] {
      ForwardAllPass(raw[1..]);
      assert Lift(Forward(raw)) == [raw[0]] + Lift(Forward(raw[1..]));
      assert raw == [raw[0]] + raw[1..];
    }
  }

  /** Filtering an already filtered stream changes nothing. */
  lemma ForwardIdempotent(raw: seq<Option<Response>>)
    ensures Forward(Lift(Forward(raw))) == Forward(raw)
  {
    var out := Forward(raw);
    forall i | 0 <= i < |Lift(out)| ensures Forwardable(Lift(out)[i]) {
      assert out[i] in out;
    }
    ForwardAllPass(Lift(out));
    LiftInjective(Forward(Lift(out)), out);
  }

  lemma {:induction false} LiftInjective(a: seq<Response>, b: seq<Response>)
    requires Lift(a) == Lift(b)
    ensures a == b
  {
    assert |a| == |b|;
    forall i | 0 <= i < |a| ensures a[i] == b[i] {
      assert Lift(a)[i] == Lift(b)[i];
    }
  }

  /** The bridge test (bridge_test.go): a content-only item and a reasoning-only item both pass. */
  lemma ContentOnlyAndReasoningOnlyForwarded()
    ensures var c := Response("", "", 0, "", [Choice(Message("", "step 1", []), "")]);
            var rs := Response("", "", 0, "", [Choice(Message("", "", ["reasoning 1"]), "")]);
            Forward([Some(c), Some(rs)]) == [c, rs]
  {
    var c := Response("", "", 0, "", [Choice(Message("", "step 1", []), "")]);
    var rs := Response("", "", 0, "", [Choice(Message("", "", ["reasoning 1"]), "")]);
    assert [Some(c), Some(rs)][1..] == [Some(rs)];
  }

  /** A role-only delta, an empty response and a nil item are all dropped; a list holding "" counts as reasoning. */
  lemma DroppedAndKeptItems()
    ensures !Forwardable(None)
    ensures !Forwardable(Some(Response("", "", 0, "", [])))
    ensures !Forwardable(Some(Response("", "", 0, "", [Choice(Message(Assistant, "", []), "")])))
    ensures Forwardable(Some(Response("", "", 0, "", [Choice(Message(Assistant, "", [""]), "")])))
  {
  }
}
