/** Row selection for one replay page: at most `limit` rows within the wire byte budget. */
module ReplayPages {
  import opened RelayWatch

  const MAX_REPLAY_PAGE_BYTES: nat := 16 * 1024 * 1024
  const MAX_RELAY_ENVELOPE_BYTES: nat := 1024 * 1024
  const REPLAY_PAGE_FIXED_WIRE_BUDGET: nat := 64
  const STORED_ENVELOPE_WIRE_OVERHEAD_BUDGET: nat := 32

  datatype Selection = InvalidStoredData | Selected(count: nat, hasMore: bool)
  datatype Loaded = LoadFailed | LoadedPage(page: Page)

  /** Wire bytes of a page that carries the first `n` rows. */
  function PageBytes(lengths: seq<nat>, n: nat): (bytes: nat)
    requires n <= |lengths|
    ensures bytes >= REPLAY_PAGE_FIXED_WIRE_BUDGET
  {
    if n == 0 then REPLAY_PAGE_FIXED_WIRE_BUDGET
    else PageBytes(lengths, n - 1) + lengths[n - 1] + STORED_ENVELOPE_WIRE_OVERHEAD_BUDGET
  }

  predicate ValidLength(length: nat) {
    1 <= length <= MAX_RELAY_ENVELOPE_BYTES
  }

  /** Row `i` is looked at: all rows before it are valid and were taken. */
  ghost predicate Reached(lengths: seq<nat>, limit: nat, i: nat) {
    && i < |lengths| && i <= limit
    && PageBytes(lengths, i) <= MAX_REPLAY_PAGE_BYTES
    && forall j :: 0 <= j < i ==> ValidLength(lengths[j])
  }

  ghost predicate Rejects(lengths: seq<nat>, limit: nat) {
    exists i: nat :: Reached(lengths, limit, i) && !ValidLength(lengths[i])
  }

  /** Takes the longest prefix that respects both bounds, and never an empty one. */
  method SelectReplayRows(lengths: seq<nat>, limit: nat) returns (r: Selection)
    requires 1 <= limit
    ensures r.InvalidStoredData? <==> Rejects(lengths, limit)
    ensures r.Selected? ==>
              && r.count <= limit && r.count <= |lengths|
              && PageBytes(lengths, r.count) <= MAX_REPLAY_PAGE_BYTES
              && (r.hasMore <==> r.count < |lengths|)
              && (r.hasMore ==> r.count == limit || PageBytes(lengths, r.count + 1) > MAX_REPLAY_PAGE_BYTES)
              && (lengths != [] ==> r.count >= 1)
  {
    var used := REPLAY_PAGE_FIXED_WIRE_BUDGET;
    var count := 0;
    while count < |lengths|
      invariant count <= |lengths| && count <= limit
      invariant used == PageBytes(lengths, count) <= MAX_REPLAY_PAGE_BYTES
      invariant forall j :: 0 <= j < count ==> ValidLength(lengths[j])
    {
      if !ValidLength(lengths[count]) {
        assert Reached(lengths, limit, count);
        return InvalidStoredData;
      }
      var next := used + lengths[count] + STORED_ENVELOPE_WIRE_OVERHEAD_BUDGET;
      if count == limit || next > MAX_REPLAY_PAGE_BYTES {
        PrefixStopsReaching(lengths, limit, count);
        return Selected(count, true);
      }
      used, count := next, count + 1;
    }
    r := Selected(count, false);
  }

  lemma {:induction false} PageBytesGrow(lengths: seq<nat>, n: nat, m: nat)
    requires n <= m <= |lengths|
    ensures PageBytes(lengths, n) <= PageBytes(lengths, m)
  {
    if n < m {
      PageBytesGrow(lengths, n, m - 1);
    }
  }

  /** Once a row does not fit, no later row is looked at. */
  lemma PrefixStopsReaching(lengths: seq<nat>, limit: nat, count: nat)
    requires count < |lengths|
    requires count == limit || PageBytes(lengths, count + 1) > MAX_REPLAY_PAGE_BYTES
    ensures forall i: nat :: count < i ==> !Reached(lengths, limit, i)
  {
    forall i: nat | count < i ensures !Reached(lengths, limit, i) {
      if i < |lengths| {
        PageBytesGrow(lengths, count + 1, i);
      }
    }
  }

  function RowLengths(log: seq<Entry>, from: nat, to: nat): (lengths: seq<nat>)
    requires from <= to <= |log|
  {
    seq(to - from, i requires 0 <= i < to - from => |log[from + i].envelope.body|)
  }

  /** How many rows are read to fill one page: one more than the page may carry. */
  function FetchEnd(log: seq<Entry>, from: nat, limit: nat): (to: nat)
    requires from <= |log|
    ensures from <= to <= |log|
  {
    if from + limit + 1 < |log| then from + limit + 1 else |log|
  }

  /** `page` could not carry one more entry: it is full, over budget or at the end. */
  ghost predicate Maximal(log: seq<Entry>, cursor: nat, limit: nat, page: Page) {
    var from := Position(log, cursor);
    var lengths := RowLengths(log, from, FetchEnd(log, from, limit));
    var n := |page.entries|;
    && n <= |lengths| && n <= limit && PageBytes(lengths, n) <= MAX_REPLAY_PAGE_BYTES
    && (page.hasMore ==> n < |lengths| && (n == limit || PageBytes(lengths, n + 1) > MAX_REPLAY_PAGE_BYTES))
  }

  lemma InvalidRowInLog(log: seq<Entry>, from: nat, to: nat, limit: nat)
    requires from <= to <= |log|
    requires Rejects(RowLengths(log, from, to), limit)
    ensures exists i :: from <= i < to && !ValidLength(|log[i].envelope.body|)
  {
  }

  /** The page that carries the first `count` of the remaining entries. */
  function PageOf(log: seq<Entry>, cursor: nat, count: nat, hasMore: bool): Page
    requires Position(log, cursor) + count <= |log|
  {
    var from := Position(log, cursor);
    Page(log[from..from + count], if count == 0 then cursor else log[from + count - 1].cursor, hasMore)
  }

  ghost predicate Selects(lengths: seq<nat>, limit: nat, count: nat) {
    && count <= |lengths| && count <= limit && PageBytes(lengths, count) <= MAX_REPLAY_PAGE_BYTES
    && (count < |lengths| ==> count == limit || PageBytes(lengths, count + 1) > MAX_REPLAY_PAGE_BYTES)
    && (lengths != [] ==> count >= 1)
  }

  /** What the selection says about the fetched rows is what the page needs of the log. */
  lemma SelectionIsPage(log: seq<Entry>, cursor: nat, limit: nat, count: nat)
    requires 1 <= limit
    requires var from := Position(log, cursor); Selects(RowLengths(log, from, FetchEnd(log, from, limit)), limit, count)
    ensures Position(log, cursor) + count <= |log|
    ensures var from := Position(log, cursor);
            var page := PageOf(log, cursor, count, count < FetchEnd(log, from, limit) - from);
            page == PageAt(log, cursor, if count == 0 then 1 else count) && Maximal(log, cursor, limit, page)
  {
  }

  /** Reads the next page after `cursor`: some prefix of what remains, at least one entry
      when anything remains, and `hasMore` exactly when something is left. */
  method LoadReplayEntries(log: seq<Entry>, cursor: nat, limit: nat) returns (r: Loaded, ghost take: nat)
    requires 1 <= limit
    ensures 1 <= take <= limit
    ensures r.LoadedPage? ==> r.page == PageAt(log, cursor, take) && Maximal(log, cursor, limit, r.page)
    ensures r.LoadFailed? ==>
              exists i :: Position(log, cursor) <= i < |log| && !ValidLength(|log[i].envelope.body|)
  {
    var from := Position(log, cursor);
    var to := FetchEnd(log, from, limit);
    var selection := SelectReplayRows(RowLengths(log, from, to), limit);
    take := 1;
    if selection.InvalidStoredData? {
      InvalidRowInLog(log, from, to, limit);
      return LoadFailed, take;
    }
    assert Selects(RowLengths(log, from, to), limit, selection.count);
    SelectionIsPage(log, cursor, limit, selection.count);
    take := if selection.count == 0 then 1 else selection.count;
    r := LoadedPage(PageOf(log, cursor, selection.count, selection.hasMore));
  }
}
