/**
 * The per-therapist availability registry: the value-level meaning of
 * Therapist.AddAvailability and SystemClass.UploadTherapistAvailabilities.
 * Times are DateTime values written as tick counts (DateTime.MinValue is 0).
 */
module Availability {
  import opened Sequences

  /**
   * An AvailabilitySlot. The source compares two slots by StartTime and EndTime
   * only, and a slot has no other field, so two slots with the same window are
   * equal values here.
   */
  datatype Slot = Slot(StartTime: int, EndTime: int)

  /** The list after AddAvailability(slot): unchanged if the window is already listed, else slot appended. */
  function AddSlot(slots: seq<Slot>, slot: Slot): seq<Slot> {
    if slot in slots then slots else slots + [slot]
  }

  /** The list after AddAvailability has been applied to every slot of batch, in order. */
  function AddAll(slots: seq<Slot>, batch: seq<Slot>): seq<Slot>
    decreases |batch|
  {
    if batch == [] then slots
    else AddSlot(AddAll(slots, batch[..|batch| - 1]), batch[|batch| - 1])
  }

  /**
   * Reference definition of a batch upload: the slots of batch, in input order,
   * whose window is neither in seen nor earlier in the batch.
   */
  function NewWindows(batch: seq<Slot>, seen: seq<Slot>): seq<Slot>
    decreases |batch|
  {
    if batch == [] then []
    else if batch[0] in seen then NewWindows(batch[1..], seen)
    else [batch[0]] + NewWindows(batch[1..], seen + [batch[0]])
  }

  /** Adding a slot keeps the list free of duplicate windows, and the slot is listed afterwards. */
  lemma {:induction false} AddSlotKeepsDistinct(slots: seq<Slot>, slot: Slot)
    requires Distinct(slots)
    ensures Distinct(AddSlot(slots, slot))
    ensures slot in AddSlot(slots, slot)
  {
  }

  /** NewWindows grows one step at a time from the end of the batch. */
  lemma {:induction false} NewWindowsSnoc(batch: seq<Slot>, x: Slot, seen: seq<Slot>)
    ensures NewWindows(batch + [x], seen)
         == NewWindows(batch, seen) + (if x in seen + NewWindows(batch, seen) then [] else [x])
    decreases |batch|
  {
    if batch == [] {
      assert batch + [x] == [x];
      assert ([x])[1..] == [];
    } else {
      var y, rest := batch[0], batch[1..];
      assert (batch + [x])[0] == y;
      assert (batch + [x])[1..] == rest + [x];
      if y in seen {
        NewWindowsSnoc(rest, x, seen);
      } else {
        NewWindowsSnoc(rest, x, seen + [y]);
        assert seen + NewWindows(batch, seen) == (seen + [y]) + NewWindows(rest, seen + [y]);
      }
    }
  }

  /**
   * An upload leaves the old list in place and appends, in input order, exactly
   * the new windows of the batch (a window added earlier in the same batch counts
   * as present).
   */
  lemma {:induction false} AddAllAppendsNewWindows(slots: seq<Slot>, batch: seq<Slot>)
    ensures AddAll(slots, batch) == slots + NewWindows(batch, slots)
    decreases |batch|
  {
    if batch != [] {
      var init, x := batch[..|batch| - 1], batch[|batch| - 1];
      assert batch == init + [x];
      AddAllAppendsNewWindows(slots, init);
      NewWindowsSnoc(init, x, slots);
    }
  }

  /** What NewWindows yields is drawn from the batch, avoids seen and has no repeats; nothing of the batch is lost. */
  lemma {:induction false} NewWindowsFresh(batch: seq<Slot>, seen: seq<Slot>)
    ensures forall x :: x in NewWindows(batch, seen) ==> x in batch && x !in seen
    ensures forall x :: x in batch ==> x in seen || x in NewWindows(batch, seen)
    ensures Distinct(NewWindows(batch, seen))
    decreases |batch|
  {
    if batch != [] {
      var y, rest := batch[0], batch[1..];
      assert batch == [y] + rest;
      if y in seen {
        NewWindowsFresh(rest, seen);
      } else {
        NewWindowsFresh(rest, seen + [y]);
        var tail := NewWindows(rest, seen + [y]);
        assert NewWindows(batch, seen) == [y] + tail;
        forall i, j | 0 <= i < j < |[y] + tail|
          ensures ([y] + tail)[i] != ([y] + tail)[j]
        {
          if i == 0 {
            assert ([y] + tail)[j] == tail[j - 1];
            assert tail[j - 1] in tail;
          }
        }
      }
    }
  }

  /** Uploading a batch keeps a duplicate-free list duplicate-free. */
  lemma {:induction false} AddAllKeepsDistinct(slots: seq<Slot>, batch: seq<Slot>)
    requires Distinct(slots)
    ensures Distinct(AddAll(slots, batch))
  {
    AddAllAppendsNewWindows(slots, batch);
    NewWindowsFresh(batch, slots);
    var nw := NewWindows(batch, slots);
    forall i, j | 0 <= i < j < |slots + nw|
      ensures (slots + nw)[i] != (slots + nw)[j]
    {
      if i < |slots| && |slots| <= j {
        assert (slots + nw)[i] in slots;
        assert (slots + nw)[j] == nw[j - |slots|];
        assert nw[j - |slots|] in nw;
      }
    }
  }

  /** After an upload a window is listed exactly when it was listed before or occurs in the batch. */
  lemma {:induction false} AddAllMembers(slots: seq<Slot>, batch: seq<Slot>, x: Slot)
    ensures x in AddAll(slots, batch) <==> x in slots || x in batch
  {
    AddAllAppendsNewWindows(slots, batch);
    NewWindowsFresh(batch, slots);
  }

  /** A batch whose windows are all listed already adds nothing. */
  lemma {:induction false} NewWindowsOfListed(batch: seq<Slot>, seen: seq<Slot>)
    requires forall x :: x in batch ==> x in seen
    ensures NewWindows(batch, seen) == []
    decreases |batch|
  {
    if batch != [] {
      assert batch[0] in batch;
      NewWindowsOfListed(batch[1..], seen);
    }
  }

  /** Uploading the same batch twice has the effect of uploading it once. */
  lemma AddAllIdempotent(slots: seq<Slot>, batch: seq<Slot>)
    ensures AddAll(AddAll(slots, batch), batch) == AddAll(slots, batch)
  {
    var once := AddAll(slots, batch);
    forall x | x in batch ensures x in once {
      AddAllMembers(slots, batch, x);
    }
    AddAllAppendsNewWindows(once, batch);
    NewWindowsOfListed(batch, once);
  }
}
