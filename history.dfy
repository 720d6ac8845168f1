/**
 * The bounded undo/redo timeline of whole-document snapshots, as
 * `saveHistory`, `undo` and `redo` maintain it.
 */
module History {
  import opened Elements

  type Snapshot = seq<Element>

  /** At most this many snapshots are kept. */
  const MaxEntries: nat := 50

  /** The snapshot list and the cursor (`historyIndex`, -1 before the first push). */
  datatype Timeline = Timeline(entries: seq<Snapshot>, index: int)

  /** The page's initial timeline. */
  const Initial: Timeline := Timeline([], -1)

  /**
   * The states `saveHistory`, `undo` and `redo` can produce.  The cursor can
   * sit ONE PAST the last entry, but only when the list is full: `saveHistory`
   * sets the cursor to the length before trimming to 50, minus one.
   */
  predicate Valid(t: Timeline) {
    && -1 <= t.index <= |t.entries| <= MaxEntries
    && (t.index == |t.entries| ==> |t.entries| == MaxEntries)
  }

  /** `history.slice(0, historyIndex + 1)`; the slice end is clamped to the length. */
  function Kept(t: Timeline): (k: seq<Snapshot>)
    requires Valid(t)
    ensures |k| <= |t.entries| && k == t.entries[..|k|]
    ensures |k| == if t.index < |t.entries| then t.index + 1 else |t.entries|
  {
    if t.index + 1 <= |t.entries| then t.entries[..t.index + 1] else t.entries
  }

  /**
   * `saveHistory`: drop everything after the cursor, append the snapshot,
   * keep the 50 newest.  The cursor becomes the pre-trim length minus one:
   * the last entry normally, one past it once the list has overflowed.
   */
  function Push(t: Timeline, s: Snapshot): (r: Timeline)
    requires Valid(t)
    ensures Valid(r)
  {
    var grown := Kept(t) + [s];
    Timeline(if |grown| > MaxEntries then grown[|grown| - MaxEntries..] else grown, |grown| - 1)
  }

  /**
   * What `saveHistory` promises: the snapshot is the last entry; before it
   * come the newest of the entries up to the cursor, at most 50 in all; the
   * cursor is the last entry normally and one past it after an overflow.
   */
  lemma PushSpec(t: Timeline, s: Snapshot)
    requires Valid(t)
    ensures var r := Push(t, s);
      && |r.entries| == (if |Kept(t)| < MaxEntries then |Kept(t)| + 1 else MaxEntries)
      && r.entries[|r.entries| - 1] == s
      && (forall k :: 0 <= k < |r.entries| - 1 ==>
            r.entries[k] == Kept(t)[|Kept(t)| + 1 - |r.entries| + k])
      && (|Kept(t)| < MaxEntries ==> r.index == |r.entries| - 1)
      && (|Kept(t)| == MaxEntries ==> r.index == |r.entries| == MaxEntries)
  {
  }

  predicate CanUndo(t: Timeline) { t.index > 0 }
  predicate CanRedo(t: Timeline) { t.index < |t.entries| - 1 }

  /** `undo`: step the cursor back, unless it is at 0 (or -1). */
  function Undo(t: Timeline): (r: Timeline)
    requires Valid(t)
    ensures Valid(r) && r.entries == t.entries
    ensures CanUndo(t) ==> r.index == t.index - 1 && 0 <= r.index < |r.entries|
    ensures !CanUndo(t) ==> r == t
  {
    if CanUndo(t) then Timeline(t.entries, t.index - 1) else t
  }

  /** `redo`: step the cursor forward, unless it is at the last entry. */
  function Redo(t: Timeline): (r: Timeline)
    requires Valid(t)
    ensures Valid(r) && r.entries == t.entries
    ensures CanRedo(t) ==> r.index == t.index + 1 && 0 <= r.index < |r.entries|
    ensures !CanRedo(t) ==> r == t
  {
    if CanRedo(t) then Timeline(t.entries, t.index + 1) else t
  }

  /** Undo followed by redo returns to the undone cursor, whose snapshot is restored. */
  lemma UndoThenRedo(t: Timeline)
    requires Valid(t) && CanUndo(t) && t.index < |t.entries|
    ensures CanRedo(Undo(t))
    ensures Redo(Undo(t)) == t
  {
  }

  /** A new push after an undo prunes the redo branch. */
  lemma PushAfterUndoPrunesRedo(t: Timeline, s: Snapshot)
    requires Valid(t) && 0 <= t.index && CanRedo(t)
    ensures Push(t, s).entries == t.entries[..t.index + 1] + [s]
    ensures !CanRedo(Push(t, s))
  {
    var r := Push(t, s);
    assert |Kept(t)| == t.index + 1 < MaxEntries;
    assert r.entries == Kept(t) + [s];
  }

  /** Pushing onto a full list with the cursor at its end evicts exactly the oldest entry. */
  lemma PushEvictsOldest(t: Timeline, s: Snapshot)
    requires Valid(t) && |t.entries| == MaxEntries && t.index >= MaxEntries - 1
    ensures Push(t, s).entries == t.entries[1..] + [s]
    ensures Push(t, s).index == MaxEntries
  {
    var r := Push(t, s);
    assert Kept(t) == t.entries;
    assert r.entries == (t.entries + [s])[1..];
  }

  /**
   * Consequence of the overflow cursor: once 51 pushes have happened, `undo`
   * restores the snapshot that was just pushed (the screen does not change)
   * and, after that, `redo` is a no-op.
   */
  lemma UndoAfterOverflow(t: Timeline, s: Snapshot)
    requires Valid(t) && |t.entries| == MaxEntries && t.index >= MaxEntries - 1
    ensures var u := Undo(Push(t, s));
            u.index == MaxEntries - 1 && u.entries[u.index] == s && !CanRedo(u)
  {
    PushEvictsOldest(t, s);
  }

  /** Three pushes from the initial state, then undo twice: back to the first snapshot; a third undo is a no-op. */
  lemma ThreeEditsTwoUndos(s1: Snapshot, s2: Snapshot, s3: Snapshot)
    ensures var t := Push(Push(Push(Initial, s1), s2), s3);
            && Undo(t).entries[Undo(t).index] == s2
            && Undo(Undo(t)).entries[Undo(Undo(t)).index] == s1
            && Undo(Undo(Undo(t))) == Undo(Undo(t))
  {
    var t1 := Push(Initial, s1);
    assert t1 == Timeline([s1], 0);
    var t2 := Push(t1, s2);
    assert t2 == Timeline([s1, s2], 1);
    var t3 := Push(t2, s3);
    assert t3 == Timeline([s1, s2, s3], 2);
  }
}
