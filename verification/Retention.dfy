/** The limits on recordings that wait for their upload: 30 days each and 1 GiB together. */
module Retention {
  import opened Prelude

  /** A directory entry. `known` says whether its size and time could be read. Times are nanoseconds. */
  datatype Entry = Entry(name: string, isDir: bool, known: bool, size: nat, modTime: int)

  const MAX_TOTAL := 0x4000_0000
  const MAX_AGE := 30 * 24 * 3600 * 1_000_000_000
  const SUFFIX := ".cast.gz"

  predicate HasSuffix(s: string) { |s| >= |SUFFIX| && s[|s| - |SUFFIX|..] == SUFFIX }

  /** An inactive recording, the only kind of entry the limits may touch. */
  predicate Waiting(e: Entry, active: set<string>) {
    !e.isDir && HasSuffix(e.name) && e.name !in active && e.known
  }

  predicate Old(e: Entry, now: int) { e.modTime < now - MAX_AGE }

  /** The waiting entries that are past their age, or those that are not, in directory order. */
  function Select(entries: seq<Entry>, active: set<string>, now: int, aged: bool): seq<Entry> {
    if entries == [] then [] else
      var e := entries[|entries| - 1];
      Select(entries[..|entries| - 1], active, now, aged)
      + if Waiting(e, active) && Old(e, now) == aged then [e] else []
  }

  function Total(es: seq<Entry>): nat { if es == [] then 0 else es[0].size + Total(es[1..]) }

  predicate ByTime(es: seq<Entry>) { forall i, j :: 0 <= i < j < |es| ==> es[i].modTime <= es[j].modTime }

  lemma {:induction false} TotalMore(es: seq<Entry>, e: Entry)
    ensures Total(es + [e]) == Total(es) + e.size
    decreases |es|
  {
    if es == [] {
      assert es + [e] == [e] && [e][1..] == [];
    } else {
      assert (es + [e])[1..] == es[1..] + [e];
      TotalMore(es[1..], e);
    }
  }

  lemma {:induction false} TotalRemove(es: seq<Entry>, i: nat)
    requires i < |es|
    ensures Total(es) == es[i].size + Total(es[..i] + es[i + 1..])
    decreases |es|
  {
    if i == 0 {
      assert es[..0] + es[1..] == es[1..];
    } else {
      TotalRemove(es[1..], i - 1);
      assert (es[..i] + es[i + 1..])[1..] == es[1..][..i - 1] + es[1..][i..];
    }
  }

  lemma RemovedElements(s: seq<Entry>, i: nat)
    requires i < |s|
    ensures multiset(s[..i] + s[i + 1..]) == multiset(s) - multiset{s[i]}
  {
    assert s == s[..i] + [s[i]] + s[i + 1..];
  }

  lemma HeadElsewhere(a: seq<Entry>, b: seq<Entry>) returns (i: nat)
    requires a != [] && multiset(a) == multiset(b)
    ensures i < |b| && b[i] == a[0]
  {
    assert a[0] in multiset(b);
    i :| 0 <= i < |b| && b[i] == a[0];
  }

  lemma WithoutHead(a: seq<Entry>)
    requires a != []
    ensures multiset(a[1..]) == multiset(a) - multiset{a[0]}
  {
    assert a == [a[0]] + a[1..];
  }

  /** The total does not depend on the order. */
  lemma {:induction false} TotalPermuted(a: seq<Entry>, b: seq<Entry>)
    requires multiset(a) == multiset(b)
    ensures Total(a) == Total(b)
    decreases |a|
  {
    if a == [] {
      assert |multiset(b)| == 0;
    } else {
      var i := HeadElsewhere(a, b);
      TotalRemove(b, i);
      WithoutHead(a);
      RemovedElements(b, i);
      TotalPermuted(a[1..], b[..i] + b[i + 1..]);
    }
  }

  lemma InsertedElements(s: seq<Entry>, j: nat, e: Entry)
    requires j <= |s|
    ensures multiset(s[..j] + [e] + s[j..]) == multiset(s) + multiset{e}
  {
    assert s == s[..j] + s[j..];
  }

  lemma InsertedOrder(s: seq<Entry>, j: nat, e: Entry)
    requires ByTime(s) && j <= |s|
    requires j > 0 ==> s[j - 1].modTime <= e.modTime
    requires j < |s| ==> e.modTime <= s[j].modTime
    ensures ByTime(s[..j] + [e] + s[j..])
  {
    var r := s[..j] + [e] + s[j..];
    forall a, b | 0 <= a < b < |r| ensures r[a].modTime <= r[b].modTime {
      if b < j {
        assert r[a] == s[a] && r[b] == s[b];
      } else if a > j {
        assert r[a] == s[a - 1] && r[b] == s[b - 1];
      } else {
        assert a < j ==> r[a] == s[a] && s[a].modTime <= s[j - 1].modTime;
        assert b > j ==> r[b] == s[b - 1] && s[j].modTime <= s[b - 1].modTime;
      }
    }
  }

  /** Sorts by time, oldest first. */
  method SortByTime(es: seq<Entry>) returns (sorted: seq<Entry>)
    ensures ByTime(sorted) && multiset(sorted) == multiset(es)
  {
    sorted := [];
    for i := 0 to |es|
      invariant ByTime(sorted) && multiset(sorted) == multiset(es[..i])
    {
      var j := |sorted|;
      while j > 0 && sorted[j - 1].modTime > es[i].modTime
        invariant 0 <= j <= |sorted|
        invariant j < |sorted| ==> sorted[j].modTime > es[i].modTime
      {
        j := j - 1;
      }
      InsertedElements(sorted, j, es[i]);
      InsertedOrder(sorted, j, es[i]);
      assert es[..i + 1] == es[..i] + [es[i]];
      sorted := sorted[..j] + [es[i]] + sorted[j..];
    }
    assert es[..|es|] == es;
  }

  /** `drops` is the shortest prefix of `drops + kept` whose removal brings the rest within the limit. */
  ghost predicate ShortestPrefix(drops: seq<Entry>, kept: seq<Entry>) {
    && Total(kept) <= 0x4000_0000
    && forall k :: 0 <= k < |drops| ==> Total((drops + kept)[k..]) > 0x4000_0000
  }

  /**
   * enforceRetention. Drops every waiting recording past its age, then, oldest first, the fewest others that
   * bring the rest within the space limit. No other entry is touched.
   */
  method EnforceRetention(entries: seq<Entry>, active: set<string>, now: int)
    returns (expired: seq<Entry>, drops: seq<Entry>, kept: seq<Entry>)
    ensures expired == Select(entries, active, now, true)
    ensures multiset(drops + kept) == multiset(Select(entries, active, now, false)) && ByTime(drops + kept)
    ensures ShortestPrefix(drops, kept)
    ensures forall e :: e in expired ==> now - e.modTime > 30 * 24 * 3600 * 1_000_000_000
    ensures forall e :: e in drops + kept ==> now - e.modTime <= 30 * 24 * 3600 * 1_000_000_000
    ensures forall e :: e in expired + drops + kept <==> e in entries && Droppable(e, active)
  {
    var total;
    expired, kept, total := SelectWaiting(entries, active, now);
    var sorted := SortByTime(kept);
    TotalPermuted(kept, sorted);
    drops, kept := DropOldest(sorted, total);
    forall e ensures e in expired + drops + kept <==> e in entries && Droppable(e, active)
      ensures e in expired ==> now - e.modTime > 30 * 24 * 3600 * 1_000_000_000
      ensures e in drops + kept ==> now - e.modTime <= 30 * 24 * 3600 * 1_000_000_000
    {
      OnlyWaitingDropped(entries, active, now, expired, drops, kept, e);
    }
  }

  /** A file with the name of a recording that is not active, and whose size and time could be read. */
  predicate Droppable(e: Entry, active: set<string>) {
    && !e.isDir && e.known && e.name !in active
    && |e.name| >= 8 && e.name[|e.name| - 8..] == ".cast.gz"
  }

  /** The scan of the directory: drops what expired and adds up the rest. */
  method SelectWaiting(entries: seq<Entry>, active: set<string>, now: int)
    returns (expired: seq<Entry>, kept: seq<Entry>, total: int)
    ensures expired == Select(entries, active, now, true)
    ensures kept == Select(entries, active, now, false) && total == Total(kept)
  {
    expired, kept, total := [], [], 0;
    for i := 0 to |entries|
      invariant expired == Select(entries[..i], active, now, true)
      invariant kept == Select(entries[..i], active, now, false)
      invariant total == Total(kept)
    {
      var e := entries[i];
      assert entries[..i + 1][..i] == entries[..i];
      Empty(expired);
      Empty(kept);
      if e.isDir || !HasSuffix(e.name) { continue; }
      if e.name in active { continue; }
      if !e.known { continue; }
      if Old(e, now) {
        expired := expired + [e];
        continue;
      }
      TotalMore(kept, e);
      kept := kept + [e];
      total := total + e.size;
    }
    assert entries[..|entries|] == entries;
  }

  /** Drops from the front until the rest fits. */
  method DropOldest(sorted: seq<Entry>, sum: int) returns (drops: seq<Entry>, kept: seq<Entry>)
    requires sum == Total(sorted)
    ensures drops + kept == sorted && ShortestPrefix(drops, kept)
  {
    var total := sum;
    drops, kept := [], sorted;
    Empty(sorted);
    while total > MAX_TOTAL && |kept| > 0
      invariant drops + kept == sorted && total == Total(kept)
      invariant forall k :: 0 <= k < |drops| ==> Total(sorted[k..]) > MAX_TOTAL
      decreases |kept|
    {
      assert sorted[|drops|..] == kept;
      MoveHead(drops, kept);
      total := total - kept[0].size;
      drops, kept := drops + [kept[0]], kept[1..];
    }
  }

  lemma {:induction false} SelectedAreWaiting(entries: seq<Entry>, active: set<string>, now: int, aged: bool, e: Entry)
    ensures e in Select(entries, active, now, aged) <==> e in entries && Waiting(e, active) && Old(e, now) == aged
    decreases |entries|
  {
    if entries != [] {
      var init, last := entries[..|entries| - 1], entries[|entries| - 1];
      assert entries == init + [last];
      SelectedAreWaiting(init, active, now, aged, e);
    }
  }

  /**
   * Whatever the limits drop is a recording that is not active, for its age exactly if it is more than thirty days
   * old, and every recording that could be dropped is accounted for.
   */
  lemma OnlyWaitingDropped(entries: seq<Entry>, active: set<string>, now: int, expired: seq<Entry>, drops: seq<Entry>,
                           kept: seq<Entry>, e: Entry)
    requires expired == Select(entries, active, now, true)
    requires multiset(drops + kept) == multiset(Select(entries, active, now, false))
    ensures e in expired <==>
            e in entries && Droppable(e, active) && now - e.modTime > 30 * 24 * 3600 * 1_000_000_000
    ensures e in drops || e in kept <==>
            e in entries && Droppable(e, active) && now - e.modTime <= 30 * 24 * 3600 * 1_000_000_000
  {
    SelectedAreWaiting(entries, active, now, true, e);
    SelectedAreWaiting(entries, active, now, false, e);
    assert e in drops + kept <==> e in multiset(drops + kept);
    assert e in drops + kept <==> e in drops || e in kept;
    var sel := Select(entries, active, now, false);
    assert e in sel <==> e in multiset(sel);
  }

  /** The newest waiting recording survives unless it is over the limit alone. New's own file is empty and newest. */
  lemma {:induction false} NewestSurvives(drops: seq<Entry>, kept: seq<Entry>)
    requires ShortestPrefix(drops, kept) && drops + kept != []
    ensures var newest := (drops + kept)[|drops + kept| - 1];
            newest.size <= MAX_TOTAL <==> kept != []
  {
    var all := drops + kept;
    var n := |all| - 1;
    assert all[n..] == [all[n]] && [all[n]][1..] == [];
    assert Total(all[n..]) == all[n].size;
    if kept != [] {
      TotalOfLast(kept);
    }
  }

  lemma {:induction false} TotalOfLast(es: seq<Entry>)
    requires es != []
    ensures Total(es) >= es[|es| - 1].size
    decreases |es|
  {
    if |es| > 1 { TotalOfLast(es[1..]); }
  }
}
