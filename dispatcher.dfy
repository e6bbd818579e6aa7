/** The window event dispatcher: the one list of gesture recognizers that
    every touch event of the application's windows is routed to. */
module WindowEvents {
  import opened Common
  import Touch

  /** A gesture recognizer, by identity (`===`). */
  type RecognizerId = nat

  /** `firstIndex { $0 === x }`. */
  function FirstIndex<T(==)>(s: seq<T>, x: T): (r: Option<nat>)
    ensures r.Some? ==> r.value < |s| && s[r.value] == x && forall j :: 0 <= j < r.value ==> s[j] != x
    ensures r.None? <==> x !in s
  {
    if s == [] then None
    else if s[0] == x then Some(0)
    else match FirstIndex(s[1..], x)
      case Some(i) => Some(i + 1)
      case None => None
  }

  /** The list after `removeGestureRecognizer(x)`: the first entry that is
      `x` is removed, if there is one. */
  function Removed<T(==)>(s: seq<T>, x: T): seq<T>
  {
    match FirstIndex(s, x)
    case Some(i) => s[..i] + s[i + 1..]
    case None => s
  }

  /** The list after `addGestureRecognizer(x)`. */
  function Added<T(==)>(s: seq<T>, x: T): seq<T>
  {
    if FirstIndex(s, x).Some? then s else s + [x]
  }

  /** Adding never creates a duplicate, and it either appends or changes
      nothing. */
  lemma AddedKeepsNoDuplicates<T>(s: seq<T>, x: T)
    requires NoDuplicates(s)
    ensures NoDuplicates(Added(s, x))
    ensures x in Added(s, x)
    ensures x in s ==> Added(s, x) == s
    ensures x !in s ==> Added(s, x) == s + [x]
  {
  }

  /** In a list without duplicates, removing deletes exactly that entry,
      keeps the others in order, and keeps the list free of duplicates;
      removing an absent entry changes nothing. */
  lemma RemovedDeletesOne<T>(s: seq<T>, x: T)
    requires NoDuplicates(s)
    ensures NoDuplicates(Removed(s, x))
    ensures forall y :: y in Removed(s, x) <==> y in s && y != x
    ensures x in s ==> |Removed(s, x)| == |s| - 1
    ensures x !in s ==> Removed(s, x) == s
  {
    match FirstIndex(s, x)
    case None =>
    case Some(i) =>
      var r := s[..i] + s[i + 1..];
      assert forall k :: 0 <= k < |r| ==> r[k] == if k < i then s[k] else s[k + 1];
      forall y ensures y in r <==> y in s && y != x {
        if y in s {
          var k :| 0 <= k < |s| && s[k] == y;
          if k < i { assert r[k] == y; } else if k > i { assert r[k - 1] == y; }
        }
      }
  }

  /** Adding an absent recognizer and removing it again restores the list. */
  lemma AddThenRemove<T>(s: seq<T>, x: T)
    requires x !in s
    ensures Removed(Added(s, x), x) == s
  {
    assert FirstIndex(s + [x], x) == Some(|s|) by {
      assert forall j :: 0 <= j < |s| ==> (s + [x])[j] == s[j];
    }
    assert (s + [x])[..|s|] == s;
  }

  // ---------------------------------------------------------------------
  // Events

  /** `UIEvent.EventType`. */
  datatype EventType = Touches | Motion | RemoteControl | Presses | Scroll | Hover | Transform

  /** `UITouch.Phase`. */
  datatype TouchPhase = PhaseBegan | PhaseMoved | PhaseStationary | PhaseEnded | PhaseCancelled
    | RegionEntered | RegionMoved | RegionExited

  /** A touch of an event, with the phase it is in. */
  datatype UITouch = UITouch(input: Touch.TouchInput, phase: TouchPhase)

  datatype UIEvent = UIEvent(eventType: EventType, allTouches: Option<seq<UITouch>>)

  /** The event types that are forwarded: touches, and on iOS 13.4 and
      later also scroll and hover. */
  predicate Forwarded(t: EventType, modern: bool)
  {
    t == Touches || (modern && (t == Scroll || t == Hover))
  }

  /** The recognizer handler a phase group goes to, if any. */
  function Routing(p: TouchPhase): Option<Touch.Phase>
  {
    match p
    case PhaseBegan => Some(Touch.Began)
    case PhaseMoved => Some(Touch.Moved)
    case PhaseStationary => Some(Touch.Moved)
    case PhaseEnded => Some(Touch.Ended)
    case PhaseCancelled => Some(Touch.Cancelled)
    case _ => None
  }

  /** The touches of the event in phase `p`: exactly those, no others. */
  function Group(touches: seq<UITouch>, p: TouchPhase): (r: seq<Touch.TouchInput>)
    ensures |r| <= |touches|
    ensures forall i :: 0 <= i < |touches| && touches[i].phase == p ==> touches[i].input in r
    ensures forall x :: x in r ==> exists i :: 0 <= i < |touches| && touches[i].phase == p && touches[i].input == x
  {
    if touches == [] then []
    else
      var rest := Group(touches[..|touches| - 1], p);
      var last := touches[|touches| - 1];
      if last.phase == p then rest + [last.input] else rest
  }

  /** Grouping keeps the order of the touches: the group of two runs of
      touches is the first run's group, then the second's. */
  lemma {:induction false} GroupAppend(a: seq<UITouch>, b: seq<UITouch>, p: TouchPhase)
    ensures Group(a + b, p) == Group(a, p) + Group(b, p)
  {
    if b != [] {
      var c := a + b;
      assert c[..|c| - 1] == a + b[..|b| - 1];
      assert c[|c| - 1] == b[|b| - 1];
      GroupAppend(a, b[..|b| - 1], p);
    } else {
      assert a + b == a;
    }
  }

  /** The phases present among the touches. */
  function Phases(touches: seq<UITouch>): set<TouchPhase>
  {
    set i | 0 <= i < |touches| :: touches[i].phase
  }

  /** An order of the keys of `Dictionary(grouping:by:)`: every phase
      present, once each. */
  ghost predicate KeyOrder(keys: seq<TouchPhase>, touches: seq<UITouch>)
  {
    NoDuplicates(keys) && (set k | k in keys) == Phases(touches)
  }

  /** A call of a recognizer's touch handler with a group of touches. */
  datatype Forward = Forward(recognizer: RecognizerId, phase: Touch.Phase, touches: seq<Touch.TouchInput>)

  /** One group handed to every recognizer in list order. */
  function GroupCalls(recognizers: seq<RecognizerId>, touches: seq<UITouch>, k: TouchPhase): seq<Forward>
  {
    match Routing(k)
    case None => []
    case Some(p) => seq(|recognizers|, i requires 0 <= i < |recognizers| => Forward(recognizers[i], p, Group(touches, k)))
  }

  /** The groups in key order. */
  function Dispatch(recognizers: seq<RecognizerId>, touches: seq<UITouch>, keys: seq<TouchPhase>): seq<Forward>
  {
    if keys == [] then []
    else Dispatch(recognizers, touches, keys[..|keys| - 1]) + GroupCalls(recognizers, touches, keys[|keys| - 1])
  }

  /** What `sendEvent` hands to the recognizers. */
  function Dispatched(recognizers: seq<RecognizerId>, event: UIEvent, keys: seq<TouchPhase>, modern: bool): (r: seq<Forward>)
    ensures recognizers == [] ==> r == []
    ensures !Forwarded(event.eventType, modern) || event.allTouches.None? ==> r == []
  {
    if recognizers == [] || !Forwarded(event.eventType, modern) || event.allTouches.None? then []
    else
      DispatchEmpty(event.allTouches.value, keys);
      Dispatch(recognizers, event.allTouches.value, keys)
  }

  /** With no recognizer nothing is dispatched. */
  lemma {:induction false} DispatchEmpty(touches: seq<UITouch>, keys: seq<TouchPhase>)
    ensures Dispatch([], touches, keys) == []
  {
    if keys != [] {
      DispatchEmpty(touches, keys[..|keys| - 1]);
    }
  }

  /** Every call goes to a registered recognizer, with the touches of one
      key's group and the handler that key is routed to. */
  lemma {:induction false} DispatchOnlyRouted(recognizers: seq<RecognizerId>, touches: seq<UITouch>, keys: seq<TouchPhase>)
    ensures forall c :: c in Dispatch(recognizers, touches, keys) ==>
      c.recognizer in recognizers &&
      exists k :: k in keys && Routing(k) == Some(c.phase) && c.touches == Group(touches, k)
  {
    if keys != [] {
      var init := keys[..|keys| - 1];
      var k := keys[|keys| - 1];
      DispatchOnlyRouted(recognizers, touches, init);
      forall c | c in Dispatch(recognizers, touches, keys)
        ensures c.recognizer in recognizers
        ensures exists k :: k in keys && Routing(k) == Some(c.phase) && c.touches == Group(touches, k)
      {
        if c in Dispatch(recognizers, touches, init) {
          var j :| j in init && Routing(j) == Some(c.phase) && c.touches == Group(touches, j);
          assert j in keys;
        } else {
          assert c in GroupCalls(recognizers, touches, k);
          assert k in keys;
        }
      }
    }
  }

  /** Every recognizer receives every routed group of the event. */
  lemma {:induction false} DispatchReachesAll(recognizers: seq<RecognizerId>, touches: seq<UITouch>, keys: seq<TouchPhase>, k: TouchPhase, r: RecognizerId)
    requires k in keys && Routing(k).Some? && r in recognizers
    ensures Forward(r, Routing(k).value, Group(touches, k)) in Dispatch(recognizers, touches, keys)
  {
    var init := keys[..|keys| - 1];
    if keys[|keys| - 1] == k {
      var i :| 0 <= i < |recognizers| && recognizers[i] == r;
      assert GroupCalls(recognizers, touches, k)[i] == Forward(r, Routing(k).value, Group(touches, k));
    } else {
      assert k in init;
      DispatchReachesAll(recognizers, touches, init, k, r);
    }
  }

  /** A phase group that no handler takes (the region phases) reaches no
      recognizer. */
  lemma UnroutedGroupsDropped(recognizers: seq<RecognizerId>, touches: seq<UITouch>, k: TouchPhase)
    requires Routing(k).None?
    ensures GroupCalls(recognizers, touches, k) == []
  {
  }

  /** The stationary touches reach every recognizer, in list order,
      through its move handler. */
  lemma StationaryForwardedAsMoves(recognizers: seq<RecognizerId>, touches: seq<UITouch>)
    ensures |GroupCalls(recognizers, touches, PhaseStationary)| == |recognizers|
    ensures forall i :: 0 <= i < |recognizers| ==>
      GroupCalls(recognizers, touches, PhaseStationary)[i] == Forward(recognizers[i], Touch.Moved, Group(touches, PhaseStationary))
  {
  }

  class TrapWindowEventDispatcher {
    var recognizers: seq<RecognizerId>

    ghost predicate Valid()
      reads this
    {
      NoDuplicates(recognizers)
    }

    constructor ()
      ensures Valid() && recognizers == []
    {
      recognizers := [];
    }

    /** `addGestureRecognizer`: appends a recognizer that is not yet in
        the list. */
    method AddGestureRecognizer(x: RecognizerId)
      requires Valid()
      modifies this
      ensures Valid()
      ensures recognizers == Added(old(recognizers), x)
    {
      AddedKeepsNoDuplicates(recognizers, x);
      var idx := FirstIndex(recognizers, x);
      if idx.Some? {
        return;
      }
      recognizers := recognizers + [x];
    }

    /** `removeGestureRecognizer`: removes the recognizer where it is
        found. */
    method RemoveGestureRecognizer(x: RecognizerId)
      requires Valid()
      modifies this
      ensures Valid()
      ensures recognizers == Removed(old(recognizers), x)
    {
      RemovedDeletesOne(recognizers, x);
      var idx := FirstIndex(recognizers, x);
      if idx.None? {
        return;
      }
      recognizers := recognizers[..idx.value] + recognizers[idx.value + 1..];
    }

    /** `sendEvent`: the touches grouped by phase, each group handed to
        every recognizer. `keys` is the order in which the grouping
        dictionary yields its keys; `modern` says whether the system is
        iOS 13.4 or later. */
    method SendEvent(event: UIEvent, keys: seq<TouchPhase>, modern: bool) returns (calls: seq<Forward>)
      requires event.allTouches.Some? ==> KeyOrder(keys, event.allTouches.value)
      ensures calls == Dispatched(recognizers, event, keys, modern)
    {
      if recognizers == [] {
        return [];
      }
      if !Forwarded(event.eventType, modern) {
        return [];
      }
      if event.allTouches.None? {
        return [];
      }
      var touches := event.allTouches.value;
      calls := [];
      var j := 0;
      while j < |keys|
        invariant 0 <= j <= |keys|
        invariant calls == Dispatch(recognizers, touches, keys[..j])
      {
        assert keys[..j + 1][..j] == keys[..j];
        var group := Group(touches, keys[j]);
        var more := [];
        match Routing(keys[j]) {
          case Some(p) =>
            more := ForEach(p, group);
          case None =>
        }
        calls := calls + more;
        j := j + 1;
      }
      assert keys[..j] == keys;
    }

    /** `gestureRecognizers.forEach { $0.touchesX(touches, with: event) }`. */
    method ForEach(p: Touch.Phase, group: seq<Touch.TouchInput>) returns (calls: seq<Forward>)
      ensures |calls| == |recognizers|
      ensures forall i :: 0 <= i < |recognizers| ==> calls[i] == Forward(recognizers[i], p, group)
    {
      calls := [];
      var i := 0;
      while i < |recognizers|
        invariant 0 <= i <= |recognizers|
        invariant |calls| == i
        invariant forall m :: 0 <= m < i ==> calls[m] == Forward(recognizers[m], p, group)
      {
        calls := calls + [Forward(recognizers[i], p, group)];
        i := i + 1;
      }
    }
  }
}
