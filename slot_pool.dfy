/**
 * The system-wide pool of bookable time labels ("10:00 AM", ...). Booking a
 * slot removes its first occurrence from the pool, as List<string>.Remove does.
 */
module SlotPool {
  import opened Sequences

  /** The pool SystemClass starts with. */
  const InitialLabels: seq<string> := ["9:00 AM", "10:00 AM", "11:00 AM", "1:00 PM", "2:00 PM"]

  /** The pool after removing the first occurrence of slot; unchanged when slot is absent. */
  function RemoveFirst(labels: seq<string>, slot: string): seq<string>
    decreases |labels|
  {
    if labels == [] then []
    else if labels[0] == slot then labels[1..]
    else [labels[0]] + RemoveFirst(labels[1..], slot)
  }

  /** Removing a slot that is not in the pool changes nothing. */
  lemma {:induction false} RemoveFirstAbsent(labels: seq<string>, slot: string)
    requires slot !in labels
    ensures RemoveFirst(labels, slot) == labels
    decreases |labels|
  {
    if labels != [] {
      assert labels[0] != slot;
      RemoveFirstAbsent(labels[1..], slot);
    }
  }

  /** RemoveFirst cuts out exactly the element at the first index holding slot. */
  lemma {:induction false} RemoveFirstAt(labels: seq<string>, slot: string, i: nat)
    requires i < |labels| && labels[i] == slot && slot !in labels[..i]
    ensures RemoveFirst(labels, slot) == labels[..i] + labels[i + 1..]
    decreases i
  {
    if i > 0 {
      assert labels[0] == labels[..i][0];
      assert labels[1..][..i - 1] == labels[..i][1..];
      RemoveFirstAt(labels[1..], slot, i - 1);
      assert labels[..i] == [labels[0]] + labels[1..][..i - 1];
    }
  }

  /** Booking a present slot shrinks the pool by exactly that one slot. */
  lemma {:induction false} RemoveFirstCount(labels: seq<string>, slot: string)
    requires slot in labels
    ensures |RemoveFirst(labels, slot)| == |labels| - 1
    ensures multiset(RemoveFirst(labels, slot)) == multiset(labels) - multiset{slot}
    decreases |labels|
  {
    if labels[0] != slot {
      assert labels == [labels[0]] + labels[1..];
      RemoveFirstCount(labels[1..], slot);
    } else {
      assert labels == [slot] + labels[1..];
    }
  }

  /** In a pool without repeats the booked slot is gone afterwards, every other slot stays, and no repeat appears. */
  lemma RemoveFirstFromDistinct(labels: seq<string>, slot: string)
    requires Distinct(labels)
    ensures slot !in RemoveFirst(labels, slot)
    ensures forall l :: l in RemoveFirst(labels, slot) <==> l in labels && l != slot
    ensures Distinct(RemoveFirst(labels, slot))
  {
    if slot !in labels {
      RemoveFirstAbsent(labels, slot);
    } else {
      var i :| 0 <= i < |labels| && labels[i] == slot;
      assert slot !in labels[..i];
      RemoveFirstAt(labels, slot, i);
      var r := labels[..i] + labels[i + 1..];
      forall l ensures l in r <==> l in labels && l != slot {
        if l in labels && l != slot {
          var k :| 0 <= k < |labels| && labels[k] == l;
          if k < i { assert r[k] == l; } else { assert r[k - 1] == l; }
        }
      }
      forall p, q | 0 <= p < q < |r| ensures r[p] != r[q] {
        var p' := if p < i then p else p + 1;
        var q' := if q < i then q else q + 1;
        assert r[p] == labels[p'] && r[q] == labels[q'];
      }
    }
  }
}
