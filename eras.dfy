/**
 * The rules of the time-travel mini-game that do not depend on the game
 * object: the era dial and the collection of crystals and energy orbs.
 */
module Eras {
  datatype Era = Past | Present | Future

  /** How far back an era lies: the future 0, the present 1, the past 2. */
  function Age(e: Era): (a: nat)
    ensures a <= 2
  {
    match e
    case Future => 0
    case Present => 1
    case Past => 2
  }

  /** UP: one era further back (future to present, present to past); the past stays. */
  function EraUp(e: Era): (r: Era)
    ensures Age(r) == if Age(e) == 2 then 2 else Age(e) + 1
  {
    match e
    case Future => Present
    case Present => Past
    case Past => Past
  }

  /** DOWN: one era further forward (past to present, present to future); the future stays. */
  function EraDown(e: Era): (r: Era)
    ensures Age(r) == if Age(e) == 0 then 0 else Age(e) - 1
  {
    match e
    case Past => Present
    case Present => Future
    case Future => Future
  }

  /** UP and DOWN undo each other away from the ends of the dial. */
  lemma EraUndo(e: Era)
    ensures e != Past ==> EraDown(EraUp(e)) == e
    ensures e != Future ==> EraUp(EraDown(e)) == e
  {
  }

  const Crystals: seq<int> := [300, 500, 800]  // x positions in the past
  const Orbs: seq<int> := [350, 550, 750]      // x positions in the future
  const Goal: int := 3                         // items of one kind that win the game
  const CollectReach: int := 30                // px
  const CollisionReach: real := 50.0           // px

  /** |a - b| on screen positions. */
  function Distance(a: int, b: int): (d: nat)
    ensures d == a - b || d == b - a
  {
    if a >= b then a - b else b - a
  }

  /** The player at x is close enough to collect the item at position p. */
  predicate Near(x: int, p: int) {
    Distance(x, p) < CollectReach
  }

  /**
   * The outcome of one collection pass from count to newCount: the count
   * never falls or passes the number of items; when it rises, the player is
   * near the last item collected; and no item from the new count on is near.
   */
  predicate Collected(count: int, newCount: int, x: int, items: seq<int>) {
    0 <= count <= newCount <= |items| &&
    (newCount > count ==> Near(x, items[newCount - 1])) &&
    forall i :: count <= i < |items| && newCount <= i ==> !Near(x, items[i])
  }

  /**
   * A reference for a collection pass, scanning from the last item backwards:
   * the new count is one past the last item at or after the old count that is
   * near the player, or the old count when none is.
   */
  function Scan(count: int, x: int, items: seq<int>): (n: int)
    requires 0 <= count
    ensures count <= n && (count <= |items| ==> n <= |items|)
    decreases |items|
  {
    if |items| <= count then count
    else if Near(x, items[|items| - 1]) then |items|
    else Scan(count, x, items[..|items| - 1])
  }

  /** The reference pass meets the description of a collection pass. */
  lemma {:induction false} ScanIsCollected(count: int, x: int, items: seq<int>)
    requires 0 <= count <= |items|
    ensures Collected(count, Scan(count, x, items), x, items)
    decreases |items|
  {
    if |items| > count && !Near(x, items[|items| - 1]) {
      var init := items[..|items| - 1];
      ScanIsCollected(count, x, init);
      assert forall i :: 0 <= i < |init| ==> init[i] == items[i];
    }
  }

  /** Any outcome meeting the description of a collection pass is the reference one: the outcome is determined. */
  lemma {:induction false} CollectedIsScan(count: int, n: int, x: int, items: seq<int>)
    requires Collected(count, n, x, items)
    ensures n == Scan(count, x, items)
    decreases |items|
  {
    if |items| > count {
      var last := |items| - 1;
      if Near(x, items[last]) {
        assert n == |items|;
      } else {
        assert n <= last;
        var init := items[..last];
        assert forall i :: 0 <= i < |init| ==> init[i] == items[i];
        CollectedIsScan(count, n, x, init);
      }
    }
  }

  /**
   * The collection loop of update_time_travel over one kind of item: item i
   * is collected when no item at or after it has been (i >= count) and the
   * player is near it, and collecting it sets the count to i + 1. The result
   * is the old count unless some item at or after it is near, and then one
   * past the last such item (`Collected` admits that outcome and no other,
   * by `CollectedIsScan`); `completed` says a collection in this pass brought
   * the count to the goal.
   */
  method Collect(count: int, x: int, items: seq<int>) returns (newCount: int, completed: bool)
    requires 0 <= count <= |items|
    ensures Collected(count, newCount, x, items)
    ensures completed <==> newCount > count && newCount >= Goal
  {
    newCount, completed := count, false;
    for i := 0 to |items|
      invariant count <= newCount <= |items|
      invariant newCount > count ==> newCount <= i && Near(x, items[newCount - 1])
      invariant forall j :: count <= j < i && newCount <= j ==> !Near(x, items[j])
      invariant completed <==> newCount > count && newCount >= Goal
    {
      if i >= newCount {
        if Distance(x, items[i]) < CollectReach {
          newCount := i + 1;
          if newCount >= Goal {
            completed := true;
          }
        }
      }
    }
  }
}
