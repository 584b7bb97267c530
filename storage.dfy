/**
 * The summary history (src/shared/storage.js): a newest-first list of saved summaries,
 * kept under the `summaryHistory` key of the extension's local storage and capped at
 * 50 entries.
 *
 * The storage area is the field `summaryHistory` of a `HistoryStore` object (`None`
 * while nothing has been written under the key). Whether the storage call rejects is a
 * parameter of each operation; a rejected call writes nothing.
 */
module Storage {
  import opened Wrappers
  import Prompt

  datatype Metadata = Metadata(title: string, url: string, timestamp: string)

  /** One saved summary: its text, the page it came from, and the options it was made with. */
  datatype Entry = Entry(content: string, metadata: Metadata, options: Prompt.Options)

  const HistoryLimit: nat := 50

  /** `history.slice(0, 50)`: the first 50 entries, or all of them when there are fewer. */
  function Capped(history: seq<Entry>): (r: seq<Entry>)
    ensures |r| == if |history| <= HistoryLimit then |history| else HistoryLimit
    ensures r <= history
    ensures |history| <= HistoryLimit ==> r == history
  {
    if |history| > HistoryLimit then history[..HistoryLimit] else history
  }

  /**
   * The list after `history.unshift(entry)` and the cap: the new entry first, then the
   * previous entries in their previous order, the oldest dropped once 50 are reached.
   */
  function Prepended(history: seq<Entry>, entry: Entry): (r: seq<Entry>)
    ensures |r| == if |history| + 1 < HistoryLimit then |history| + 1 else HistoryLimit
    ensures r[0] == entry
    ensures forall i :: 1 <= i < |r| ==> r[i] == history[i - 1]
  {
    Capped([entry] + history)
  }

  /** `history.splice(index, 1)`: the list without the entry at `index`. */
  function RemovedAt(history: seq<Entry>, index: nat): (r: seq<Entry>)
    requires index < |history|
    ensures |r| == |history| - 1
    ensures r[..index] == history[..index]
    ensures forall i :: index <= i < |r| ==> r[i] == history[i + 1]
    ensures multiset(r) + multiset{history[index]} == multiset(history)
  {
    assert history == history[..index] + [history[index]] + history[index + 1..];
    history[..index] + history[index + 1..]
  }

  /** Removing an entry just inserted at some position gives back the list before. */
  lemma RemoveUndoesInsert(history: seq<Entry>, index: nat, entry: Entry)
    requires index <= |history|
    ensures RemovedAt(history[..index] + [entry] + history[index..], index) == history
  {
    var inserted := history[..index] + [entry] + history[index..];
    var r := RemovedAt(inserted, index);
    assert r == history by {
      assert inserted[..index] == history[..index];
      forall i | index <= i < |r| ensures r[i] == history[i] {
        assert inserted[i + 1] == history[i];
      }
    }
  }

  /** Deleting the newest entry undoes a save that evicted nothing. */
  lemma DeleteNewestUndoesSave(history: seq<Entry>, entry: Entry)
    requires |history| < HistoryLimit
    ensures RemovedAt(Prepended(history, entry), 0) == history
  {
    var r := RemovedAt(Prepended(history, entry), 0);
    assert forall i :: 0 <= i < |r| ==> r[i] == history[i];
  }

  /** A save onto a full list evicts exactly the oldest entry. */
  lemma SaveOntoFullListEvictsOldest(history: seq<Entry>, entry: Entry)
    requires |history| == HistoryLimit
    ensures Prepended(history, entry) == [entry] + history[..HistoryLimit - 1]
    ensures multiset(Prepended(history, entry)) + multiset{history[HistoryLimit - 1]}
         == multiset(history) + multiset{entry}
  {
    var r := Prepended(history, entry);
    assert r == [entry] + history[..HistoryLimit - 1];
    assert history == history[..HistoryLimit - 1] + [history[HistoryLimit - 1]];
  }

  /** The entries in reverse order. */
  function Reversed(entries: seq<Entry>): (r: seq<Entry>)
    ensures |r| == |entries|
    ensures forall i :: 0 <= i < |entries| ==> r[i] == entries[|entries| - 1 - i]
  {
    if entries == [] then [] else Reversed(entries[1..]) + [entries[0]]
  }

  /** The list after saving `entries`, first to last, onto `history`. */
  function AfterSaves(history: seq<Entry>, entries: seq<Entry>): seq<Entry>
    decreases |entries|
  {
    if entries == [] then history
    else AfterSaves(Prepended(history, entries[0]), entries[1..])
  }

  /** Capping before putting more entries in front changes nothing once the whole is capped. */
  lemma CappedAbsorbs(front: seq<Entry>, history: seq<Entry>)
    ensures Capped(front + Capped(history)) == Capped(front + history)
  {
    if |history| > HistoryLimit {
      var a, b := front + Capped(history), front + history;
      assert |a| >= HistoryLimit;
      forall i | 0 <= i < HistoryLimit ensures a[i] == b[i] {
        if i >= |front| {
          assert a[i] == history[i - |front|];
        }
      }
    }
  }

  /**
   * A run of saves leaves the saved entries newest first, followed by what was there
   * before, cut to the 50 most recent.
   */
  lemma {:induction false} SavesKeepNewestFirst(history: seq<Entry>, entries: seq<Entry>)
    requires |history| <= HistoryLimit || entries != []
    ensures AfterSaves(history, entries) == Capped(Reversed(entries) + history)
    decreases |entries|
  {
    if entries != [] {
      var entry, rest := entries[0], entries[1..];
      var saved := Prepended(history, entry);
      SavesKeepNewestFirst(saved, rest);
      CappedAbsorbs(Reversed(rest), [entry] + history);
      AppendAssoc(Reversed(rest), [entry], history);
      assert Reversed(entries) == Reversed(rest) + [entry];
    }
  }

  /** Concatenation of lists is associative. */
  lemma AppendAssoc(a: seq<Entry>, b: seq<Entry>, c: seq<Entry>)
    ensures a + (b + c) == a + b + c
  {
  }

  /**
   * Fifty-one saves onto an empty history keep the fifty newest, newest first: the first
   * entry saved is gone.
   */
  lemma FiftyOneSavesEvictFirst(entries: seq<Entry>)
    requires |entries| == HistoryLimit + 1
    ensures var h := AfterSaves([], entries);
      && |h| == HistoryLimit
      && h[0] == entries[HistoryLimit]
      && forall i :: 0 <= i < HistoryLimit ==> h[i] == entries[HistoryLimit - i]
  {
    SavesKeepNewestFirst([], entries);
    assert Reversed(entries) + [] == Reversed(entries);
  }

  /**
   * The storage area behind `chrome.storage.local`, as far as these functions use it:
   * the value under `summaryHistory`.
   */
  class HistoryStore {
    var summaryHistory: Option<seq<Entry>>

    constructor (stored: Option<seq<Entry>>)
      ensures summaryHistory == stored
    {
      summaryHistory := stored;
    }

    /** `data.summaryHistory || []`: the stored list, or the empty list when none was written. */
    function Stored(): (history: seq<Entry>)
      reads this
      ensures summaryHistory.None? ==> history == []
      ensures summaryHistory.Some? ==> history == summaryHistory.value
    {
      summaryHistory.GetOr([])
    }

    /**
     * `saveSummaryToHistory(summaryData)`: puts the entry first and writes back at most
     * 50 entries; reports whether the storage calls went through.
     */
    method SaveSummaryToHistory(summaryData: Entry, storageFails: bool) returns (saved: bool)
      modifies this
      ensures saved == !storageFails
      ensures saved ==> summaryHistory == Some(Prepended(old(Stored()), summaryData))
      ensures !saved ==> summaryHistory == old(summaryHistory)
    {
      if storageFails {
        return false;
      }
      var history := Stored();
      history := [summaryData] + history;
      var limitedHistory := Capped(history);
      summaryHistory := Some(limitedHistory);
      return true;
    }

    /** `getSummaryHistory()`: the stored list, or the empty list when nothing is stored or the read fails. */
    method GetSummaryHistory(storageFails: bool) returns (history: seq<Entry>)
      ensures storageFails ==> history == []
      ensures !storageFails ==> history == Stored()
      ensures summaryHistory.None? ==> history == []
    {
      if storageFails {
        return [];
      }
      history := Stored();
    }

    /**
     * `deleteSummaryFromHistory(index)`: removes the entry at an index inside the list
     * and writes the rest back; an index outside it changes nothing and reports `false`.
     */
    method DeleteSummaryFromHistory(index: int, storageFails: bool) returns (deleted: bool)
      modifies this
      ensures deleted <==> !storageFails && 0 <= index < |old(Stored())|
      ensures deleted ==> summaryHistory == Some(RemovedAt(old(Stored()), index))
      ensures !deleted ==> summaryHistory == old(summaryHistory)
    {
      if storageFails {
        return false;
      }
      var history := Stored();
      if index >= 0 && index < |history| {
        history := history[..index] + history[index + 1..];
        summaryHistory := Some(history);
        return true;
      }
      return false;
    }

    /** `clearSummaryHistory()`: writes the empty list. */
    method ClearSummaryHistory(storageFails: bool) returns (cleared: bool)
      modifies this
      ensures cleared == !storageFails
      ensures cleared ==> summaryHistory == Some([])
      ensures !cleared ==> summaryHistory == old(summaryHistory)
    {
      if storageFails {
        return false;
      }
      summaryHistory := Some([]);
      return true;
    }
  }
}
