/**
 * The recent-files widget: a sort order that toggles between newest-first
 * and oldest-first, and a fetch that shows the source list as it is or
 * reversed (on a copy).
 */
module RecentFilesWidget {
  import opened JsText
  import opened AuthContext

  datatype SortOrder = Desc | Asc

  /** `prev === 'desc' ? 'asc' : 'desc'`. */
  function Toggle(order: SortOrder): (r: SortOrder)
    ensures r != order
  {
    if order == Desc then Asc else Desc
  }

  /** Toggling twice gives back the original order. */
  lemma ToggleInvolution(order: SortOrder)
    ensures Toggle(Toggle(order)) == order
  {
  }

  /** `source` back to front. */
  function Reversed<T>(source: seq<T>): (r: seq<T>)
    ensures |r| == |source|
    ensures forall i :: 0 <= i < |source| ==> r[i] == source[|source| - 1 - i]
  {
    if source == [] then [] else Reversed(source[1..]) + [source[0]]
  }

  /** Reversal keeps every element, with its multiplicity. */
  lemma {:induction false} ReversedSameElements<T>(source: seq<T>)
    ensures multiset(Reversed(source)) == multiset(source)
  {
    if source != [] {
      ReversedSameElements(source[1..]);
      assert source == [source[0]] + source[1..];
    }
  }

  lemma ReversedInvolution<T>(source: seq<T>)
    ensures Reversed(Reversed(source)) == source
  {
  }

  /** The list the widget shows for a sort order: `desc` keeps the source order, `asc` reverses it. */
  function Arranged<T>(order: SortOrder, source: seq<T>): seq<T> {
    if order == Desc then source else Reversed(source)
  }

  /** Flipping the order shows the reverse of what was shown, with the same elements. */
  lemma ToggleReversesArrangement<T>(order: SortOrder, source: seq<T>)
    ensures Arranged(Toggle(order), source) == Reversed(Arranged(order, source))
    ensures multiset(Arranged(order, source)) == multiset(source)
  {
    ReversedInvolution(source);
    ReversedSameElements(source);
  }

  /** The selection `sortOrder === 'desc' ? files : [...files].reverse()`: reversal on a fresh copy. */
  method ArrangedCopy<T>(order: SortOrder, source: seq<T>) returns (shown: seq<T>)
    ensures shown == Arranged(order, source)
  {
    if order == Desc {
      return source;
    }
    var n := |source|;
    var copy := new T[n](i requires 0 <= i < n => source[i]);
    var lo, hi := 0, n;
    while lo + 1 < hi
      invariant 0 <= lo <= hi <= n && lo + hi == n
      invariant forall k :: lo <= k < hi ==> copy[k] == source[k]
      invariant forall k :: 0 <= k < lo ==> copy[k] == source[n - 1 - k]
      invariant forall k :: hi <= k < n ==> copy[k] == source[n - 1 - k]
    {
      copy[lo], copy[hi - 1] := copy[hi - 1], copy[lo];
      lo, hi := lo + 1, hi - 1;
    }
    shown := copy[..];
  }

  /** One entry of the recent-files list. */
  datatype RecentFile = RecentFile(satelliteId: int, satelliteName: string, subsystemId: int, fileId: int,
                                   updatedDate: string, updatedTimeAgo: string, latestVersion: int)

  const ConnectionError: string := "Error connecting to server"

  /** The outcome of one fetch: the source list, or a failure. */
  datatype FetchOutcome = Fetched(files: seq<RecentFile>) | FetchFailed

  /** The widget's state cells. */
  class RecentFiles {
    const auth: Option<Identity>
    var recentFiles: seq<RecentFile>
    var loading: bool
    var error: Option<string>
    var sortOrder: SortOrder

    constructor (auth: Option<Identity>)
      ensures this.auth == auth && recentFiles == [] && loading && error.None? && sortOrder == Desc
    {
      this.auth := auth;
      recentFiles := [];
      loading := true;
      error := None;
      sortOrder := Desc;
    }

    /** The fetch effect's start, for the current sort order: nothing without `auth`. */
    method StartFetch() returns (started: Option<SortOrder>)
      modifies this`loading, this`error
      ensures auth.None? ==> started.None? && unchanged(this)
      ensures auth.Some? ==> started == Some(sortOrder) && loading && error.None?
    {
      if auth.None? {
        return None;
      }
      loading, error := true, None;
      started := Some(sortOrder);
    }

    /** `toggleSortOrder`; the change re-runs the fetch effect. */
    method ToggleSortOrder() returns (started: Option<SortOrder>)
      modifies this`sortOrder, this`loading, this`error
      ensures sortOrder == Toggle(old(sortOrder))
      ensures auth.None? ==> started.None? && loading == old(loading) && error == old(error)
      ensures auth.Some? ==> started == Some(sortOrder) && loading && error.None?
    {
      sortOrder := Toggle(sortOrder);
      started := StartFetch();
    }

    /** The end of a fetch started with `order`: the arranged list, or `[]` and an error; loading stops either way. */
    method FetchArrived(order: SortOrder, outcome: FetchOutcome)
      modifies this`recentFiles, this`loading, this`error
      ensures !loading
      ensures outcome.Fetched? ==> recentFiles == Arranged(order, outcome.files) && error == old(error)
      ensures outcome.FetchFailed? ==> recentFiles == [] && error == Some(ConnectionError)
    {
      match outcome {
        case Fetched(source) =>
          recentFiles := ArrangedCopy(order, source);
        case FetchFailed =>
          error := Some(ConnectionError);
          recentFiles := [];
      }
      loading := false;
    }
  }
}
