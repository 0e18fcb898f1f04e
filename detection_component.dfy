/**
 * The hand-detection component of the perceptual pipeline: a registry from
 * detection type to an insertion-ordered set of listeners, the conversion of
 * a tracked geo node into a hand, and the rule that swaps the two hands when
 * the camera has mixed them up.
 *
 * The SDK's geo nodes are values whose world position may be absent. The
 * smoothing filters are foreign code: their outputs are parameters of
 * `ProcessFeatures`.
 */
module Perceptual {
  import opened DroneTypes

  datatype DetectionType = Hands | OtherDetection(id: nat)

  /** A world position as the SDK reports it. */
  datatype Point3 = Point3(x: real, y: real, z: real)

  datatype GeoNode = GeoNode(positionWorld: Option<Point3>)

  /** A body coordinate, built as `new Coordinate(x, y, z)`. */
  datatype Coordinate = Coordinate(x: real, y: real, z: real)

  datatype Hand = Hand(smoothedCoordinate: Option<Coordinate>, coordinate: Option<Coordinate>, active: bool)

  datatype HandsDetectionData = HandsDetectionData(leftHand: Hand, rightHand: Hand)

  /** One `onDetection` call. */
  datatype Delivery<D> = Delivery(listener: Listener, data: D)

  // ---------------------------------------------------------------------------
  // Geo nodes and hands
  // ---------------------------------------------------------------------------

  function IsActive(node: GeoNode): bool
  {
    node.positionWorld.Some?
  }

  /** `getCoordinate`: the world (x, z, y) — depth and height trade places. */
  function GetCoordinate(node: GeoNode): (c: Option<Coordinate>)
  {
    match node.positionWorld
    case None => None
    case Some(p) => Some(Coordinate(p.x, p.z, p.y))
  }

  function WorldOf(c: Coordinate): Point3
  {
    Point3(c.x, c.z, c.y)
  }

  /**
   * A node gives a coordinate exactly when it is active, and the coordinate
   * determines the world position it came from.
   */
  lemma CoordinateOfActiveNode(node: GeoNode)
    ensures GetCoordinate(node).Some? <==> IsActive(node)
    ensures IsActive(node) ==> WorldOf(GetCoordinate(node).value) == node.positionWorld.value
    ensures IsActive(node) ==> GetCoordinate(node).value.x == node.positionWorld.value.x
    ensures IsActive(node) ==> GetCoordinate(node).value.y == node.positionWorld.value.z
    ensures IsActive(node) ==> GetCoordinate(node).value.z == node.positionWorld.value.y
  {
  }

  function HandOf(smoothed: Option<Coordinate>, node: GeoNode): Hand
  {
    Hand(smoothed, GetCoordinate(node), IsActive(node))
  }

  /** A hand built from a node is active exactly when it has a raw coordinate. */
  predicate WellFormed(h: Hand)
  {
    h.active <==> h.coordinate.Some?
  }

  lemma HandOfWellFormed(smoothed: Option<Coordinate>, node: GeoNode)
    ensures WellFormed(HandOf(smoothed, node))
  {
  }

  /** Both hands tracked, and the right one further right (larger raw x) than the left one. */
  predicate MixedUp(left: Hand, right: Hand)
  {
    && right.active && left.active
    && right.coordinate.Some? && left.coordinate.Some?
    && right.coordinate.value.x > left.coordinate.value.x
  }

  /** The swap in `processFeatures`: the result is (left, right). */
  function OrderHands(left: Hand, right: Hand): (HandsDetectionData)
  {
    if MixedUp(left, right) then HandsDetectionData(right, left) else HandsDetectionData(left, right)
  }

  /**
   * The swap only ever exchanges the two hands, does so exactly when they
   * are mixed up, leaves two tracked hands with the right one's x no larger
   * than the left one's, and a second pass changes nothing.
   */
  lemma OrderHandsRule(left: Hand, right: Hand)
    requires WellFormed(left) && WellFormed(right)
    ensures var d := OrderHands(left, right);
      && multiset{d.leftHand, d.rightHand} == multiset{left, right}
      && (d == HandsDetectionData(right, left) <==> MixedUp(left, right) || left == right)
      && (!MixedUp(left, right) ==> d == HandsDetectionData(left, right))
      && (d.leftHand.active && d.rightHand.active ==>
            d.rightHand.coordinate.value.x <= d.leftHand.coordinate.value.x)
      && OrderHands(d.leftHand, d.rightHand) == d
  {
  }

  // ---------------------------------------------------------------------------
  // The listener registry
  // ---------------------------------------------------------------------------

  predicate NoDuplicates(s: seq<Listener>)
  {
    forall i, j :: 0 <= i < j < |s| ==> s[i] != s[j]
  }

  /** Every listener set of the registry is a set: no listener twice. */
  predicate RegistryValid(m: map<DetectionType, seq<Listener>>)
  {
    forall t :: t in m ==> NoDuplicates(m[t])
  }

  function ListenersOf(m: map<DetectionType, seq<Listener>>, t: DetectionType): seq<Listener>
  {
    if t in m then m[t] else []
  }

  /** `LinkedHashSet.remove`: every occurrence of the element goes. */
  function Without(s: seq<Listener>, l: Listener): (r: seq<Listener>)
    ensures forall x :: x in r <==> x in s && x != l
  {
    if s == [] then []
    else if s[0] == l then Without(s[1..], l)
    else [s[0]] + Without(s[1..], l)
  }

  /** Removing an absent element gives the set back unchanged. */
  lemma {:induction false} WithoutAbsent(s: seq<Listener>, l: Listener)
    requires l !in s
    ensures Without(s, l) == s
  {
    if s != [] {
      WithoutAbsent(s[1..], l);
      assert s == [s[0]] + s[1..];
    }
  }

  /** `addDetectionListener`: the type's set is created empty if missing, then the listener appended if new. */
  function Added(m: map<DetectionType, seq<Listener>>, t: DetectionType, l: Listener): map<DetectionType, seq<Listener>>
  {
    var m1 := if t !in m then m[t := []] else m;
    if l !in m1[t] then m1[t := m1[t] + [l]] else m1
  }

  /** `removeDetectionListener` as written: the removal runs only when the listener is NOT in the set. */
  function Removed(m: map<DetectionType, seq<Listener>>, t: DetectionType, l: Listener): map<DetectionType, seq<Listener>>
  {
    if t !in m then m
    else if l !in m[t] then m[t := Without(m[t], l)]
    else m
  }

  /**
   * Adding keeps every set duplicate-free and in insertion order: the
   * listener is appended once if new, nothing happens if it is already
   * there, and the other types' sets are untouched.
   */
  lemma AddedRule(m: map<DetectionType, seq<Listener>>, t: DetectionType, l: Listener)
    requires RegistryValid(m)
    ensures var a := Added(m, t, l);
      && RegistryValid(a)
      && t in a && a.Keys == m.Keys + {t}
      && a[t] == (if l in ListenersOf(m, t) then ListenersOf(m, t) else ListenersOf(m, t) + [l])
      && (forall u :: u in m && u != t ==> a[u] == m[u])
      && Added(a, t, l) == a
  {
    var a := Added(m, t, l);
    var old_ := ListenersOf(m, t);
    if l !in old_ {
      forall i, j | 0 <= i < j < |a[t]| ensures a[t][i] != a[t][j] {
        if j == |old_| {
          assert a[t][j] == l && a[t][i] == old_[i];
        }
      }
    }
  }

  /**
   * Because its guard is inverted, removing never takes a registered
   * listener out, and otherwise removes an element that is not there: the
   * registry is never changed.
   */
  lemma {:induction false} RemovedNeverRemoves(m: map<DetectionType, seq<Listener>>, t: DetectionType, l: Listener)
    ensures Removed(m, t, l) == m
  {
    if t in m && l !in m[t] {
      WithoutAbsent(m[t], l);
      assert m[t := m[t]] == m;
    }
  }

  /** A registered listener stays registered however often it is removed. */
  lemma RegisteredListenerStays(m: map<DetectionType, seq<Listener>>, t: DetectionType, l: Listener)
    requires RegistryValid(m)
    ensures l in ListenersOf(Removed(Added(m, t, l), t, l), t)
  {
    RemovedNeverRemoves(Added(m, t, l), t, l);
  }

  // ---------------------------------------------------------------------------
  // The component
  // ---------------------------------------------------------------------------

  class DetectionComponent {
    var detectionListeners: map<DetectionType, seq<Listener>>
    /** Null until the first `queryFeatures`. */
    var leftHandGeoNode: Option<GeoNode>
    var rightHandGeoNode: Option<GeoNode>

    ghost predicate Valid()
      reads this
    {
      RegistryValid(detectionListeners)
    }

    constructor ()
      ensures Valid() && detectionListeners == map[]
      ensures leftHandGeoNode == None && rightHandGeoNode == None
    {
      detectionListeners := map[];
      leftHandGeoNode := None;
      rightHandGeoNode := None;
    }

    /**
     * `queryFeatures`, with the pipeline's two answers as parameters: the
     * node labelled as the right hand is stored as the left one and vice versa.
     */
    method QueryFeatures(labelledRight: GeoNode, labelledLeft: GeoNode)
      modifies this`leftHandGeoNode, this`rightHandGeoNode
      ensures leftHandGeoNode == Some(labelledRight) && rightHandGeoNode == Some(labelledLeft)
    {
      leftHandGeoNode := Some(labelledRight);
      rightHandGeoNode := Some(labelledLeft);
    }

    method AddDetectionListener(t: DetectionType, listener: Listener)
      requires Valid()
      modifies this`detectionListeners
      ensures Valid() && detectionListeners == Added(old(detectionListeners), t, listener)
    {
      if t !in detectionListeners {
        detectionListeners := detectionListeners[t := []];
      }
      var listeners := detectionListeners[t];
      if listener !in listeners {
        detectionListeners := detectionListeners[t := listeners + [listener]];
      }
      AddedRule(old(detectionListeners), t, listener);
    }

    method RemoveDetectionListener(t: DetectionType, listener: Listener)
      requires Valid()
      modifies this`detectionListeners
      ensures Valid() && detectionListeners == Removed(old(detectionListeners), t, listener)
    {
      if t !in detectionListeners {
        return;
      }
      var listeners := detectionListeners[t];
      if listener !in listeners {
        detectionListeners := detectionListeners[t := Without(listeners, listener)];
      }
      RemovedNeverRemoves(old(detectionListeners), t, listener);
    }

    /**
     * Each listener of the type is called once with `data`, in insertion
     * order; an unregistered type calls no one.
     */
    method InvokeDetectionListeners<D>(t: DetectionType, data: D) returns (delivered: seq<Delivery<D>>)
      requires Valid()
      ensures t !in detectionListeners ==> delivered == []
      ensures |delivered| == |ListenersOf(detectionListeners, t)|
      ensures forall i :: 0 <= i < |delivered| ==>
                delivered[i] == Delivery(ListenersOf(detectionListeners, t)[i], data)
      ensures forall i, j :: 0 <= i < j < |delivered| ==> delivered[i].listener != delivered[j].listener
    {
      if t !in detectionListeners {
        return [];
      }
      var listeners := detectionListeners[t];
      delivered := [];
      var k := 0;
      while k < |listeners|
        invariant 0 <= k <= |listeners|
        invariant |delivered| == k
        invariant forall i :: 0 <= i < k ==> delivered[i] == Delivery(listeners[i], data)
      {
        delivered := delivered + [Delivery(listeners[k], data)];
        k := k + 1;
      }
    }

    /**
     * `processFeatures`: builds both hands from the stored nodes (their
     * smoothed coordinates come from the filters), swaps them if mixed up,
     * and emits one HANDS event; without a `queryFeatures` first it fails.
     */
    method ProcessFeatures(leftSmoothed: Option<Coordinate>, rightSmoothed: Option<Coordinate>)
      returns (delivered: Option<seq<Delivery<HandsDetectionData>>>)
      requires Valid()
      ensures delivered.None? <==> leftHandGeoNode.None? || rightHandGeoNode.None?
      ensures delivered.Some? ==>
        var data := OrderHands(HandOf(leftSmoothed, leftHandGeoNode.value),
                               HandOf(rightSmoothed, rightHandGeoNode.value));
        && |delivered.value| == |ListenersOf(detectionListeners, Hands)|
        && forall i :: 0 <= i < |delivered.value| ==>
             delivered.value[i] == Delivery(ListenersOf(detectionListeners, Hands)[i], data)
    {
      if rightHandGeoNode.None? || leftHandGeoNode.None? {
        return None;
      }
      var rightHand := Hand(rightSmoothed, GetCoordinate(rightHandGeoNode.value), IsActive(rightHandGeoNode.value));
      var leftHand := Hand(leftSmoothed, GetCoordinate(leftHandGeoNode.value), IsActive(leftHandGeoNode.value));

      if rightHand.active && leftHand.active {
        if rightHand.coordinate.value.x > leftHand.coordinate.value.x {
          var temporaryRightHand := rightHand;
          rightHand := leftHand;
          leftHand := temporaryRightHand;
        }
      }

      var d := InvokeDetectionListeners(Hands, HandsDetectionData(leftHand, rightHand));
      return Some(d);
    }
  }
}
