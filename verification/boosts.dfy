/** The boost record as the game-hosting API delivers it, the identity rule
    used to deduplicate boosts, and the parsing of the API's response envelope. */
module Boosts {

  datatype Option<+T> = None | Some(value: T)

  /** One boost event. `boostedAt` is the API's timestamp string, compared as
      an opaque value; `extendedFor` is the boost duration in seconds. */
  datatype Boost = Boost(username: string, boostedAt: string, extendedFor: int, message: Option<string>)

  /** The `data` object of a response whose `boosts` key is present;
      `boosts == None` is a JSON null. */
  datatype Data = Data(boosts: Option<seq<Boost>>)

  /** A decoded response of the boost-history endpoint. `data == None` stands
      for a null or empty `data` object, both of which are falsy. */
  datatype Envelope = Envelope(status: string, data: Option<Data>)

  /** The identity rule: two boosts are the same event when their user and
      their timestamp agree; duration and message play no part. */
  predicate SameEvent(a: Boost, b: Boost) {
    a.username == b.username && a.boostedAt == b.boostedAt
  }

  /** Linear search of `xs` for a boost that is the same event as `b`. */
  function InList(b: Boost, xs: seq<Boost>): (r: bool)
    ensures r <==> exists i :: 0 <= i < |xs| && SameEvent(xs[i], b)
  {
    if |xs| == 0 then false
    else if SameEvent(xs[0], b) then true
    else InList(b, xs[1..])
  }

  /** Membership of an element: every boost of `xs` is found in `xs`. */
  lemma InListOfMember(b: Boost, xs: seq<Boost>)
    requires b in xs
    ensures InList(b, xs)
  {
    var i :| 0 <= i < |xs| && xs[i] == b;
    assert SameEvent(xs[i], b);
  }

  /** Searching a concatenation searches both halves. */
  lemma InListAppend(b: Boost, xs: seq<Boost>, ys: seq<Boost>)
    ensures InList(b, xs + ys) <==> InList(b, xs) || InList(b, ys)
  {
    var zs := xs + ys;
    if InList(b, zs) {
      var i :| 0 <= i < |zs| && SameEvent(zs[i], b);
      if i < |xs| {
        assert zs[i] == xs[i];
      } else {
        assert zs[i] == ys[i - |xs|];
      }
    }
    if InList(b, xs) {
      var i :| 0 <= i < |xs| && SameEvent(xs[i], b);
      assert zs[i] == xs[i];
    }
    if InList(b, ys) {
      var i :| 0 <= i < |ys| && SameEvent(ys[i], b);
      assert zs[|xs| + i] == ys[i];
    }
  }

  /** Only the identity fields matter to the search: a boost that differs
      from `b` in duration and message is found exactly when `b` is. */
  lemma InListIgnoresPayload(b: Boost, xs: seq<Boost>, extendedFor: int, message: Option<string>)
    ensures InList(b.(extendedFor := extendedFor, message := message), xs) == InList(b, xs)
  {
    var c := b.(extendedFor := extendedFor, message := message);
    assert forall i :: 0 <= i < |xs| ==> (SameEvent(xs[i], c) <==> SameEvent(xs[i], b));
  }

  /** Turns a response into the list of boosts it carries, or None when there
      is no response, the status is not "success", or `data` or `data.boosts`
      is null or empty. */
  function Parse(response: Option<Envelope>): (r: Option<seq<Boost>>)
    ensures r.Some? <==>
      response.Some? && response.value.status == "success" &&
      response.value.data.Some? && response.value.data.value.boosts.Some? &&
      |response.value.data.value.boosts.value| > 0
    ensures r.Some? ==> r.value == response.value.data.value.boosts.value
  {
    if response.None? then None
    else if response.value.status != "success" then None
    else if response.value.data.None? then None
    else if response.value.data.value.boosts.None? then None
    else if |response.value.data.value.boosts.value| == 0 then None
    else response.value.data.value.boosts
  }
}
