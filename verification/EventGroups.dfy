/**
  The event group code (event_groups.c), statement by statement, proved to
  compute the functions of EventGroupModel.dfy.
 */
module EventGroups {
  import opened EventGroupModel

  lemma WithAssociates(a: Bits, b: Bits, c: Bits)
    ensures With(With(a, b), c) == With(a, With(b, c))
  {
  }

  lemma WithNothing(a: Bits)
    ensures With(0, a) == a && With(a, 0) == a
  {
  }

  lemma {:induction false} UnmatchedAppend(ws: seq<Waiter>, w: Waiter, b: Bits)
    ensures Unmatched(ws + [w], b) == Unmatched(ws, b) + if Matches(b, w.value) then [] else [w]
  {
    hide Matches;
    if |ws| == 0 {
      assert ws + [w] == [w];
    } else {
      UnmatchedAppend(ws[1..], w, b);
      assert (ws + [w])[1..] == ws[1..] + [w];
    }
  }

  /** The list after k waiters have been looked at: those left waiting, then those still to come. */
  function Walked(ws: seq<Waiter>, k: nat, b: Bits): seq<Waiter>
    requires k <= |ws|
  {
    Unmatched(ws[..k], b) + ws[k..]
  }

  lemma WalkStep(ws: seq<Waiter>, k: nat, b: Bits)
    requires k < |ws|
    ensures var l, i := Walked(ws, k, b), |Unmatched(ws[..k], b)|;
      && l[i] == ws[k]
      && (Matches(b, ws[k].value) ==> Walked(ws, k + 1, b) == l[..i] + l[i + 1..] && |Unmatched(ws[..k + 1], b)| == i)
      && (!Matches(b, ws[k].value) ==> Walked(ws, k + 1, b) == l && |Unmatched(ws[..k + 1], b)| == i + 1)
  {
    hide Matches;
    assert ws[..k + 1] == ws[..k] + [ws[k]];
    UnmatchedAppend(ws[..k], ws[k], b);
  }

  lemma MaskStep(ws: seq<Waiter>, k: nat, b: Bits, sofar: Bits)
    requires k < |ws|
    ensures With(sofar, ClearMask(ws[k..], b)) ==
      With(if Matches(b, ws[k].value) && Clears(ws[k].value) then With(sofar, Waited(ws[k].value)) else sofar, ClearMask(ws[k + 1..], b))
  {
    hide Matches, With, Clears, Waited;
    assert ws[k..][1..] == ws[k + 1..];
    WithAssociates(sofar, Waited(ws[k].value), ClearMask(ws[k + 1..], b));
    WithNothing(ClearMask(ws[k + 1..], b));
  }

  lemma StoreStep(ws: seq<Waiter>, k: nat, b: Bits, stored: map<nat, Bits>)
    requires k < |ws|
    ensures Store(ws[k..], b, stored) ==
      Store(ws[k + 1..], b, if Matches(b, ws[k].value) then stored[ws[k].task := Told(b)] else stored)
  {
    hide Matches, Told;
    assert ws[k..][1..] == ws[k + 1..];
  }

  lemma WalkEnds(ws: seq<Waiter>, b: Bits, stored: map<nat, Bits>)
    ensures Walked(ws, 0, b) == ws && Unmatched(ws[..0], b) == [] && ws[0..] == ws
    ensures Walked(ws, |ws|, b) == Unmatched(ws, b) && ClearMask(ws[|ws|..], b) == 0 && Store(ws[|ws|..], b, stored) == stored
  {
    assert ws[..|ws|] == ws;
  }

  lemma ControlByteDecides(v: Bits)
    ensures ForAll(v & CONTROL) <==> ForAll(v)
  {
  }

  class EventGroup {
    var eventBits: Bits
    var tasksWaitingForBits: seq<Waiter>
    var itemValues: map<nat, Bits>        // of tasks taken off the list that have not run again
    ghost var asked: map<nat, Bits>

    constructor ()
      ensures View() == Group(0, [], map[], map[])
    {
      eventBits, tasksWaitingForBits, itemValues, asked := 0, [], map[], map[];
    }

    ghost function View(): Group
      reads this
    {
      Group(eventBits, tasksWaitingForBits, asked, itemValues)
    }

    /** xEventGroupSetBits: the list is walked while tasks are taken off it; nobody else runs before the bits are read again */
    method Set(bitsToSet: Bits) returns (value: Bits)
      modifies this`eventBits, this`tasksWaitingForBits, this`itemValues
      ensures View() == SetBits(old(View()), bitsToSet) && value == View().bits
    {
      hide Matches, With, Minus, Told, Waited, Clears, Unmatched, ClearMask, Store, Walked;
      ghost var ws, b := tasksWaitingForBits, With(eventBits, bitsToSet);
      WalkEnds(ws, b, itemValues);
      var bitsToClear: Bits := 0;
      WithNothing(ClearMask(ws, b));
      eventBits := With(eventBits, bitsToSet);
      var i := 0;
      ghost var k := 0;
      while i < |tasksWaitingForBits|
        invariant k <= |ws| && eventBits == b
        invariant i == |Unmatched(ws[..k], b)| && tasksWaitingForBits == Walked(ws, k, b)
        invariant |tasksWaitingForBits| == i + |ws| - k
        invariant With(bitsToClear, ClearMask(ws[k..], b)) == ClearMask(ws, b)
        invariant Store(ws[k..], b, itemValues) == Store(ws, b, old(itemValues))
        decreases |ws| - k
      {
        WalkStep(ws, k, b);
        MaskStep(ws, k, b, bitsToClear);
        StoreStep(ws, k, b, itemValues);
        var item := tasksWaitingForBits[i];
        var matchFound := TestItem(item.value);
        if matchFound {
          if Clears(item.value) {
            bitsToClear := With(bitsToClear, Waited(item.value));
          }
          // vTaskRemoveFromUnorderedEventList: the next item now stands at i
          itemValues := itemValues[item.task := Told(eventBits)];
          tasksWaitingForBits := tasksWaitingForBits[..i] + tasksWaitingForBits[i + 1..];
        } else {
          i := i + 1;
        }
        k := k + 1;
      }
      WalkEnds(ws, b, itemValues);
      WithNothing(bitsToClear);
      eventBits := Minus(eventBits, bitsToClear);
      value := eventBits;
    }

    /** The test inside that walk */
    method TestItem(value: Bits) returns (matchFound: bool)
      ensures matchFound == Matches(eventBits, value)
    {
      hide Waited, ForAll, SomeOf, AllOf;
      matchFound := false;
      var controlBits, bitsWaitedFor := value & CONTROL, Waited(value);
      ControlByteDecides(value);
      if !ForAll(controlBits) {
        if SomeOf(bitsWaitedFor, eventBits) {
          matchFound := true;
        }
      } else if AllOf(bitsWaitedFor, eventBits) {
        matchFound := true;
      }
    }

    /** xEventGroupClearBits */
    method Clear(bitsToClear: Bits) returns (was: Bits)
      modifies this`eventBits
      ensures View() == ClearBits(old(View()), bitsToClear) && was == old(eventBits)
    {
      was := eventBits;
      eventBits := Minus(eventBits, bitsToClear);
    }

    method PlaceOnUnorderedEventList(t: nat, value: Bits)
      modifies this`tasksWaitingForBits, this`asked
      ensures View() == Place(old(View()), t, value)
    {
      tasksWaitingForBits := tasksWaitingForBits + [Waiter(t, value)];
      asked := asked[t := value];
    }

    /** xEventGroupWaitBits with the scheduler suspended: the value it returns unless it blocks */
    method Wait(t: nat, bitsToWaitFor: Bits, clearOnExit: bool, waitForAll: bool, ticksToWait: nat)
      returns (blocks: bool, value: Bits)
      modifies this`eventBits, this`tasksWaitingForBits, this`asked
      ensures View() == WaitBits(old(View()), t, bitsToWaitFor, clearOnExit, waitForAll, ticksToWait > 0)
      ensures blocks == (!TestWait(old(eventBits), bitsToWaitFor, waitForAll) && ticksToWait > 0)
      ensures !blocks ==> value == old(eventBits)
    {
      hide TestWait, Minus, Encode;
      var currentEventBits := eventBits;
      var waitConditionMet := TestWait(currentEventBits, bitsToWaitFor, waitForAll);
      blocks, value := false, 0;
      if waitConditionMet {
        value := currentEventBits;
        if clearOnExit {
          eventBits := Minus(eventBits, bitsToWaitFor);
        }
      } else if ticksToWait == 0 {
        value := currentEventBits;
      } else {
        blocks := true;
        PlaceOnUnorderedEventList(t, Encode(bitsToWaitFor, clearOnExit, waitForAll));
      }
    }

    /** xEventGroupSync with the scheduler suspended */
    method Rendezvous(t: nat, bitsToSet: Bits, bitsToWaitFor: Bits, ticksToWait: nat) returns (blocks: bool, value: Bits)
      modifies this`eventBits, this`tasksWaitingForBits, this`itemValues, this`asked
      ensures View() == Sync(old(View()), t, bitsToSet, bitsToWaitFor, ticksToWait > 0)
      ensures blocks == (!Has(With(old(eventBits), bitsToSet), bitsToWaitFor) && ticksToWait > 0)
      ensures Has(With(old(eventBits), bitsToSet), bitsToWaitFor) ==> value == With(old(eventBits), bitsToSet)
      ensures !blocks && !Has(With(old(eventBits), bitsToSet), bitsToWaitFor) ==> value == eventBits
    {
      hide Has, With, Minus, Encode, SetBits;
      var originalBitValue := eventBits;
      value := Set(bitsToSet);
      blocks := false;
      if Has(With(originalBitValue, bitsToSet), bitsToWaitFor) {
        value := With(originalBitValue, bitsToSet);
        eventBits := Minus(eventBits, bitsToWaitFor);
      } else {
        if ticksToWait != 0 {
          PlaceOnUnorderedEventList(t, Encode(bitsToWaitFor, true, true));
          blocks := true;
        } else {
          value := eventBits;
        }
      }
    }

    /** Both functions again after the task has been blocked and runs again */
    method ReturnFromBlock(t: nat, bitsToWaitFor: Bits, clearOnExit: bool, waitForAll: bool) returns (value: Bits)
      requires t in itemValues && t in asked && NoControl(bitsToWaitFor)
      requires asked[t] == Encode(bitsToWaitFor, clearOnExit, waitForAll)
      modifies this`eventBits, this`itemValues, this`asked
      ensures View() == Return(old(View()), t) && value == Result(old(View()), t)
    {
      hide TestWait, Minus, Encode, Matches, Clears, WasUnblocked, Waited;
      EncodeMeans(bitsToWaitFor, clearOnExit, waitForAll);
      EncodeMatches(bitsToWaitFor, clearOnExit, waitForAll, eventBits);
      value := itemValues[t];
      itemValues, asked := itemValues - {t}, asked - {t};
      if !WasUnblocked(value) {
        value := eventBits;
        if TestWait(value, bitsToWaitFor, waitForAll) {
          if clearOnExit {
            eventBits := Minus(eventBits, bitsToWaitFor);
          }
        }
        value := Minus(value, CONTROL);
      } else {
        value := Waited(value);
      }
    }
  }
}
