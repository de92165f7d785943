/**
 Time-stamped entries in the order of a clock, and the windows that the
 moderation monitors keep of them: pruned at the front, one per identity.
 */
module SlidingWindow {
  type Time = int

  datatype Timed = Timed(at: Time, text: string)

  predicate WithinWindow(previous: Time, now: Time, window: int) {
    0 <= now - previous <= window
  }

  predicate AtLeast(n: int, threshold: int) {
    threshold > 0 && n >= threshold
  }

  /** Entries without the leading ones that are too old. */
  function DropOld(ms: seq<Timed>, cutoff: Time): (kept: seq<Timed>)
    ensures |kept| <= |ms|
  {
    if ms == [] || ms[0].at >= cutoff then ms else DropOld(ms[1..], cutoff)
  }

  /** It drops a stretch at the front, all of it too old, and stops at the first that is not. */
  lemma {:induction false} DropOldDrops(ms: seq<Timed>, cutoff: Time)
    ensures var kept := DropOld(ms, cutoff);
            kept == ms[|ms| - |kept|..] && (kept != [] ==> kept[0].at >= cutoff)
            && forall i :: 0 <= i < |ms| - |kept| ==> ms[i].at < cutoff
  {
    if ms != [] && ms[0].at < cutoff {
      DropOldDrops(ms[1..], cutoff);
      var kept := DropOld(ms, cutoff);
      assert kept == ms[1..][|ms| - 1 - |kept|..] == ms[|ms| - |kept|..];
      assert forall i :: 0 <= i < |ms| - 1 ==> ms[1..][i] == ms[i + 1];
    }
  }

  lemma {:induction false} DropTwice(ms: seq<Timed>, early: Time, late: Time)
    requires early <= late
    ensures DropOld(DropOld(ms, early), late) == DropOld(ms, late)
  {
    if ms != [] && ms[0].at < early { DropTwice(ms[1..], early, late); }
  }

  /** Dropping old messages before or after one more arrives comes to the same. */
  lemma {:induction false} DropThenAppend(ms: seq<Timed>, m: Timed, cutoff: Time)
    ensures DropOld(DropOld(ms, cutoff) + [m], cutoff) == DropOld(ms + [m], cutoff)
  {
    if ms == [] || ms[0].at >= cutoff {
      assert DropOld(ms, cutoff) == ms;
    } else {
      assert (ms + [m])[1..] == ms[1..] + [m];
      DropThenAppend(ms[1..], m, cutoff);
    }
  }

  lemma {:induction false} NothingToDrop(cutoff: Time)
    ensures DropOld([], cutoff) == []
  {
  }

  /** pruneMessages and prune. */
  method PruneFront(ms: seq<Timed>, cutoff: Time) returns (kept: seq<Timed>)
    ensures kept == DropOld(ms, cutoff)
  {
    kept := ms;
    while kept != [] && kept[0].at < cutoff
      invariant DropOld(kept, cutoff) == DropOld(ms, cutoff)
    {
      kept := kept[1..];
    }
  }

  lemma SomeElement(ids: set<string>)
    requires ids != {}
    ensures exists id :: id in ids
  {
    assert (forall id :: id !in ids) ==> ids == {};
  }

  /** An identity's window in a map of windows. */
  function Lookup(windows: map<string, seq<Timed>>, id: string): seq<Timed> {
    if id in windows then windows[id] else []
  }

  method PruneWindows(windows: map<string, seq<Timed>>, cutoff: Time) returns (out: map<string, seq<Timed>>)
    ensures forall id :: Lookup(out, id) == DropOld(Lookup(windows, id), cutoff)
  {
    out := windows;
    var left := windows.Keys;
    while left != {}
      invariant left <= windows.Keys
      invariant forall id :: Lookup(out, id) == if id in left then Lookup(windows, id) else DropOld(Lookup(windows, id), cutoff)
    {
      SomeElement(left);
      var id :| id in left;
      left := left - {id};
      var kept := PruneFront(windows[id], cutoff);
      if kept == [] { out := out - {id}; } else { out := out[id := kept]; }
    }
  }
}
