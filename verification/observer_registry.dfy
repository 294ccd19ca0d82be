/**
 * The subscriber sets kept by the content-share components. Kotlin's
 * `mutableSetOf` is an insertion-ordered set, modelled as a duplicate-free
 * sequence of observer identities; a notification to the set is one
 * delivery per member, in set order.
 */
module ObserverRegistry {
  import opened StatusCodes

  /** Identity of a `ContentShareObserver` (observers compare by reference). */
  type ObserverId = nat

  /** The two `ContentShareObserver` callbacks. */
  datatype ContentShareEvent =
    | ContentShareStarted
    | ContentShareStopped(status: ContentShareStatus)

  /** One callback delivered to one observer. */
  datatype Notification = Notification(observer: ObserverId, event: ContentShareEvent)

  /** No observer occurs twice. */
  ghost predicate Distinct(obs: seq<ObserverId>)
  {
    forall i, j :: 0 <= i < j < |obs| ==> obs[i] != obs[j]
  }

  /** `observers.add(o)`: a no-op when `o` is present, otherwise `o` joins at the end. */
  function Add(obs: seq<ObserverId>, o: ObserverId): (r: seq<ObserverId>)
    ensures forall x :: x in r <==> x in obs || x == o
    ensures o in obs ==> r == obs
    ensures obs <= r
    ensures Distinct(obs) ==> Distinct(r)
  {
    if o in obs then obs else obs + [o]
  }

  /** `observers.remove(o)`: drops `o`, keeping the order of the others. */
  function Remove(obs: seq<ObserverId>, o: ObserverId): (r: seq<ObserverId>)
    ensures forall x :: x in r <==> x in obs && x != o
    ensures o !in obs ==> r == obs
    ensures o in obs && Distinct(obs) ==> |r| == |obs| - 1
    ensures Distinct(obs) ==> Distinct(r)
  {
    if |obs| == 0 then []
    else if obs[0] == o then Remove(obs[1..], o)
    else
      var rest := Remove(obs[1..], o);
      assert Distinct(obs) ==> Distinct(obs[1..]) && obs[0] !in obs[1..];
      [obs[0]] + rest
  }

  /** `notifyObserverOnMainThread(observers) { event }`: one delivery per subscriber, in order. */
  function NotifyAll(obs: seq<ObserverId>, e: ContentShareEvent): (r: seq<Notification>)
    ensures |r| == |obs|
    ensures forall i :: 0 <= i < |r| ==> r[i].observer == obs[i] && r[i].event == e
  {
    if |obs| == 0 then [] else [Notification(obs[0], e)] + NotifyAll(obs[1..], e)
  }

  /**
   * Each subscriber of a duplicate-free set receives the event exactly once,
   * a non-subscriber never, and no other event is delivered.
   */
  lemma {:induction false} NotifyAllOnce(obs: seq<ObserverId>, e: ContentShareEvent, o: ObserverId)
    requires Distinct(obs)
    ensures multiset(NotifyAll(obs, e))[Notification(o, e)] == if o in obs then 1 else 0
    ensures forall e' :: e' != e ==> multiset(NotifyAll(obs, e))[Notification(o, e')] == 0
    decreases |obs|
  {
    if |obs| > 0 {
      NotifyAllOnce(obs[1..], e, o);
      assert NotifyAll(obs, e) == [Notification(obs[0], e)] + NotifyAll(obs[1..], e);
      assert obs[0] == o ==> o !in obs[1..];
      assert o in obs <==> o == obs[0] || o in obs[1..];
    }
  }

  /** Subscribing twice is the same as subscribing once. */
  lemma AddIdempotent(obs: seq<ObserverId>, o: ObserverId)
    ensures Add(Add(obs, o), o) == Add(obs, o)
  {
  }

  /** Subscribing then unsubscribing a new observer restores the set. */
  lemma {:induction false} RemoveUndoesAdd(obs: seq<ObserverId>, o: ObserverId)
    requires o !in obs
    ensures Remove(Add(obs, o), o) == obs
    decreases |obs|
  {
    if |obs| > 0 {
      RemoveUndoesAdd(obs[1..], o);
      assert Add(obs, o)[1..] == Add(obs[1..], o);
    }
  }
}
