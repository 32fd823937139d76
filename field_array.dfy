/**
 * The field array of the form library (`useFieldArray`): an ordered list
 * of entries changed by `append` and `remove(index)`, and the effect both
 * attendee sections run to bring it to a target length.
 */
module FieldArrays {

  class FieldArray<T> {
    var fields: seq<T>

    constructor (init: seq<T>)
      ensures fields == init
    {
      fields := init;
    }

    /** `append(x)`: adds x at the end. */
    method Append(x: T)
      modifies this
      ensures fields == old(fields) + [x]
    {
      fields := fields + [x];
    }

    /** `remove(i)`: drops the entry at index i. */
    method Remove(i: nat)
      requires i < |fields|
      modifies this
      ensures fields == old(fields)[..i] + old(fields)[i + 1..]
    {
      fields := fields[..i] + fields[i + 1..];
    }
  }

  /**
   * The list brought to `count` entries: cut back to its first `count`
   * entries, or padded at the end with copies of `blank`.
   */
  function Resized<T>(s: seq<T>, count: nat, blank: T): (r: seq<T>)
    ensures |r| == count
    ensures forall k :: 0 <= k < |s| && k < count ==> r[k] == s[k]
    ensures forall k :: |s| <= k < count ==> r[k] == blank
  {
    if count <= |s| then s[..count] else s + seq(count - |s|, _ => blank)
  }

  /** A list already of the target length is left as it is. */
  lemma ResizedSameLength<T>(s: seq<T>, blank: T)
    ensures Resized(s, |s|, blank) == s
  {
  }

  /** Resizing twice to the same count is resizing once. */
  lemma ResizedIdempotent<T>(s: seq<T>, count: nat, blank: T)
    ensures Resized(Resized(s, count, blank), count, blank) == Resized(s, count, blank)
  {
  }

  /**
   * The synchronising effect: append blanks from the current length up to
   * `count`, or remove entries from the last index down to `count`.
   */
  method SyncToCount<T>(fa: FieldArray<T>, count: nat, blank: T)
    modifies fa
    ensures fa.fields == Resized(old(fa.fields), count, blank)
  {
    var currentLength := |fa.fields|;
    if count > currentLength {
      var i := currentLength;
      while i < count
        invariant currentLength <= i <= count
        invariant fa.fields == old(fa.fields) + seq(i - currentLength, _ => blank)
      {
        fa.Append(blank);
        i := i + 1;
      }
    } else if count < currentLength {
      var i := currentLength - 1;
      while i >= count
        invariant count - 1 <= i < currentLength
        invariant fa.fields == old(fa.fields)[..i + 1]
      {
        fa.Remove(i);
        i := i - 1;
      }
    }
  }
}
