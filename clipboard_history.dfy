/** The clipboard history both client generations keep: entries appended in
    order, each marked as sent or received, and the query
    `clipboardHistory.filter(\.received).last` that both of them use. */
module ClipboardHistory {

  import opened Wrappers

  datatype HistoryEntry<C> = HistoryEntry(clipboardContent: C, received: bool)

  /** `history.filter(\.received)`. */
  function ReceivedEntries<C>(history: seq<HistoryEntry<C>>): (r: seq<HistoryEntry<C>>)
    ensures |r| <= |history|
    ensures forall i :: 0 <= i < |r| ==> r[i].received
    decreases |history|
  {
    if history == [] then []
    else ReceivedEntries(history[..|history| - 1]) +
         (if history[|history| - 1].received then [history[|history| - 1]] else [])
  }

  /** The filter drops nothing it should keep: every entry it returns comes
      from the history, and every received entry of the history is kept as
      often as it occurs there. */
  lemma {:induction false} ReceivedEntriesKeepsReceived<C>(history: seq<HistoryEntry<C>>)
    ensures forall i :: 0 <= i < |ReceivedEntries(history)| ==> ReceivedEntries(history)[i] in history
    ensures forall i :: 0 <= i < |history| && history[i].received ==>
              multiset(ReceivedEntries(history))[history[i]] == multiset(history)[history[i]]
    decreases |history|
  {
    if history != [] {
      var init := history[..|history| - 1];
      var last := history[|history| - 1];
      assert history == init + [last];
      ReceivedEntriesKeepsReceived(init);
      var tail := if last.received then [last] else [];
      assert ReceivedEntries(history) == ReceivedEntries(init) + tail;
      assert multiset(ReceivedEntries(history)) == multiset(ReceivedEntries(init)) + multiset(tail);
      assert multiset(history) == multiset(init) + multiset([last]);
      forall i | 0 <= i < |history| && history[i].received
        ensures multiset(ReceivedEntries(history))[history[i]] == multiset(history)[history[i]]
      {
        var e := history[i];
        if e !in init {
          assert e !in ReceivedEntries(init);
        } else {
          var k :| 0 <= k < |init| && init[k] == e;
        }
      }
    }
  }

  /** The filter keeps the order of the history: filtering a concatenation
      concatenates the filtered parts. */
  lemma {:induction false} ReceivedEntriesAppend<C>(a: seq<HistoryEntry<C>>, b: seq<HistoryEntry<C>>)
    ensures ReceivedEntries(a + b) == ReceivedEntries(a) + ReceivedEntries(b)
    decreases |b|
  {
    if b == [] {
      assert a + b == a;
    } else {
      var init := b[..|b| - 1];
      assert a + b == (a + init) + [b[|b| - 1]];
      assert (a + b)[..|a + b| - 1] == a + init;
      ReceivedEntriesAppend(a, init);
    }
  }

  /** `history.filter(\.received).last?.clipboardContent`. */
  function LastReceived<C>(history: seq<HistoryEntry<C>>): Option<C> {
    var received := ReceivedEntries(history);
    if received == [] then None else Some(received[|received| - 1].clipboardContent)
  }

  /** The index of the last received entry, searching from the end. */
  function LastReceivedIndex<C>(history: seq<HistoryEntry<C>>): (r: Option<nat>)
    ensures r.Some? ==> r.value < |history| && history[r.value].received
    ensures r.Some? ==> forall j :: r.value < j < |history| ==> !history[j].received
    ensures r.None? ==> forall j :: 0 <= j < |history| ==> !history[j].received
    decreases |history|
  {
    if history == [] then None
    else if history[|history| - 1].received then Some(|history| - 1)
    else LastReceivedIndex(history[..|history| - 1])
  }

  /** The filter-then-last query is the content of the last entry marked
      received, and there is none exactly when no entry is marked received. */
  lemma {:induction false} LastReceivedIsLastMarked<C>(history: seq<HistoryEntry<C>>)
    ensures LastReceived(history).None? <==> LastReceivedIndex(history).None?
    ensures LastReceivedIndex(history).Some? ==>
              LastReceived(history) == Some(history[LastReceivedIndex(history).value].clipboardContent)
    decreases |history|
  {
    if history != [] && !history[|history| - 1].received {
      var init := history[..|history| - 1];
      LastReceivedIsLastMarked(init);
      assert ReceivedEntries(history) == ReceivedEntries(init) + [];
    }
  }

  /** Recording a received content makes it the last received content. */
  lemma AppendReceived<C>(history: seq<HistoryEntry<C>>, c: C)
    ensures LastReceived(history + [HistoryEntry(c, true)]) == Some(c)
  {
    var h := history + [HistoryEntry(c, true)];
    assert h[..|h| - 1] == history;
  }

  /** Recording a sent content leaves the last received content as it was. */
  lemma AppendSent<C>(history: seq<HistoryEntry<C>>, c: C)
    ensures LastReceived(history + [HistoryEntry(c, false)]) == LastReceived(history)
  {
    var h := history + [HistoryEntry(c, false)];
    assert h[..|h| - 1] == history;
    assert ReceivedEntries(h) == ReceivedEntries(history) + [];
  }
}
