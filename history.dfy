/**
 * The command-history buffer and its recall cursor (`commandHistory`, `historyIndex`):
 * entries are recorded by `handleCommand`, browsed with the arrow keys, persisted as their
 * last twenty, and restored at startup.
 */
module History {
  import opened Wrappers
  import opened Text

  /** How many entries are written to local storage. */
  const PersistLimit: nat := 20

  /**
   * `handleCommand` records a line when it is not blank and differs from the last entry
   * (compared as typed, untrimmed).
   */
  predicate ShouldRecord(entries: seq<string>, cmd: string)
    ensures ShouldRecord(entries, cmd) <==> !AllSpace(cmd) && (entries == [] || entries[|entries| - 1] != cmd)
  {
    Trim(cmd) != [] && (|entries| == 0 || entries[|entries| - 1] != cmd)
  }

  /** `s.slice(-n)`: the last `n` elements, or all of them when there are fewer. */
  function LastN(s: seq<string>, n: nat): (r: seq<string>)
    ensures |r| == if |s| < n then |s| else n
    ensures r == s[|s| - |r|..]
  {
    if |s| <= n then s else s[|s| - n..]
  }

  /**
   * Once the buffer holds `n` or more entries, recording one more drops the oldest of the
   * persisted window and appends the new one; below `n` nothing is dropped.
   */
  lemma LastNPush(s: seq<string>, x: string, n: nat)
    requires n >= 1
    ensures |s| >= n ==> LastN(s + [x], n) == LastN(s, n)[1..] + [x]
    ensures |s| < n ==> LastN(s + [x], n) == s + [x]
  {
    if |s| >= n {
      assert (s + [x])[|s| + 1 - n..] == s[|s| - n..][1..] + [x];
    }
  }

  /** Recording the same line twice in a row stores it once. */
  lemma RecordTwice(entries: seq<string>, cmd: string)
    ensures var once := if ShouldRecord(entries, cmd) then entries + [cmd] else entries;
      !ShouldRecord(once, cmd)
  {
  }

  class CommandHistory {
    var entries: seq<string>
    var index: int

    /**
     * The cursor stays in [-1, |entries|] (-1 only before anything is recorded or browsed),
     * and no entry is empty, whichever way it got there.
     */
    ghost predicate Valid()
      reads this
    {
      -1 <= index <= |entries| && forall i :: 0 <= i < |entries| ==> entries[i] != []
    }

    constructor ()
      ensures Valid() && entries == [] && index == -1
    {
      entries := [];
      index := -1;
    }

    /** The history bookkeeping of `handleCommand`: maybe append, then park the cursor past the end. */
    method Record(cmd: string)
      requires Valid()
      modifies this
      ensures Valid()
      ensures entries == if ShouldRecord(old(entries), cmd) then old(entries) + [cmd] else old(entries)
      ensures index == |entries|
    {
      if Trim(cmd) != [] && (|entries| == 0 || entries[|entries| - 1] != cmd) {
        entries := entries + [cmd];
      }
      index := |entries|;
    }

    /** The array written to the "cmd-history" slot: the last twenty entries, in order. */
    function Persisted(): (p: seq<string>)
      reads this
      requires Valid()
      ensures |p| <= PersistLimit && p == LastN(entries, PersistLimit)
      ensures forall i :: 0 <= i < |p| ==> p[i] != []
    {
      LastN(entries, PersistLimit)
    }

    /**
     * ArrowUp: step back one entry and recall it, when there is an entry before the
     * cursor; otherwise leave the cursor and the input line alone.
     */
    method Up() returns (recalled: Option<string>)
      requires Valid()
      modifies this`index
      ensures Valid()
      ensures if |entries| > 0 && old(index) > 0
        then index == old(index) - 1 && recalled == Some(entries[index])
        else index == old(index) && recalled == None
    {
      if |entries| > 0 && index > 0 {
        index := index - 1;
        recalled := Some(entries[index]);
      } else {
        recalled := None;
      }
    }

    /**
     * ArrowDown: step forward one entry and recall it while one is left; past the last
     * entry park the cursor at |entries| and clear the input line.
     */
    method Down() returns (line: string)
      requires Valid()
      modifies this`index
      ensures Valid()
      ensures if old(index) < |entries| - 1
        then index == old(index) + 1 && line == entries[index]
        else index == |entries| && line == ""
    {
      if index < |entries| - 1 {
        index := index + 1;
        line := entries[index];
      } else {
        index := |entries|;
        line := "";
      }
    }

    /** The startup restore: replace the entries and park the cursor past the end. */
    method Restore(restored: seq<string>)
      requires forall i :: 0 <= i < |restored| ==> restored[i] != []
      modifies this
      ensures Valid()
      ensures entries == restored && index == |restored|
    {
      entries := restored;
      index := |restored|;
    }
  }
}
