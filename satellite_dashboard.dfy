/**
 * The satellite dashboard: a cascade of selections (satellite, subsystem,
 * file, version), the per-file version map, metadata and downloads. Every
 * fetch is split at its await: a start method checks the guard, raises its
 * own loading flag and returns the request it issued (with the values its
 * closure captured); an arrival method applies the reply.
 */
module SatelliteDashboard {
  import opened JsText
  import opened AuthContext
  import opened FileSearch

  // ---------------------------------------------------------------------------
  // Values
  // ---------------------------------------------------------------------------

  datatype Satellite = Satellite(id: int, name: string)
  datatype SubsystemItem = SubsystemItem(id: int, name: string)
  datatype FileEntry = FileEntry(id: int, name: string)
  datatype FileVersion = FileVersion(version: int, uploadedAt: string)
  type Metadata = map<string, string>

  /** The six loading flags. */
  datatype Loading = Loading(satellites: bool, subsystems: bool, files: bool,
                             versions: bool, metadata: bool, download: bool)

  const NotLoading: Loading := Loading(false, false, false, false, false, false)

  /**
   * The settled `api.get` promise: a rejection (the `detail` of the error
   * body, the error's `message`, and the JSON text of the error body when
   * there is one), or the response body.
   */
  datatype Reply<T> = Failed(detail: Option<string>, message: string, bodyJson: Option<string>) | Replied(body: T)

  /** A body of the shape `{status, data}`. */
  datatype StatusBody<T> = StatusBody(status: string, data: Option<T>)

  /** A selected id or an id argument is truthy: present, and neither 0 nor NaN. */
  predicate Truthy(id: Option<int>) {
    id.Some? && id.value != 0
  }

  /** `err.response?.data?.detail || err.message`. */
  function ErrorText(detail: Option<string>, message: string): (text: string)
    ensures detail.Some? && detail.value != "" ==> text == detail.value
    ensures detail.None? || detail.value == "" ==> text == message
  {
    if detail.Some? && detail.value != "" then detail.value else message
  }

  /** `JSON.stringify` of a string, for text without characters that need escaping. */
  function JsonString(s: string): string {
    "\"" + s + "\""
  }

  /** `response.data.subsystems.map(item => item.id)`. */
  function SubsystemIds(items: seq<SubsystemItem>): (ids: seq<int>)
    ensures |ids| == |items|
    ensures forall i :: 0 <= i < |items| ==> ids[i] == items[i].id
  {
    if items == [] then [] else [items[0].id] + SubsystemIds(items[1..])
  }

  /** Ids of a concatenation are the concatenation of the ids: the order of the list is kept. */
  lemma {:induction false} SubsystemIdsAppend(a: seq<SubsystemItem>, b: seq<SubsystemItem>)
    ensures SubsystemIds(a + b) == SubsystemIds(a) + SubsystemIds(b)
  {
    assert |SubsystemIds(a + b)| == |SubsystemIds(a) + SubsystemIds(b)|;
    forall i | 0 <= i < |a + b| ensures SubsystemIds(a + b)[i] == (SubsystemIds(a) + SubsystemIds(b))[i] {
      if i < |a| {
        assert (a + b)[i] == a[i];
      } else {
        assert (a + b)[i] == b[i - |a|];
      }
    }
  }

  // ---------------------------------------------------------------------------
  // URLs and the download filename
  // ---------------------------------------------------------------------------

  const SatellitesUrl: string := "/api/satellites/"

  function SubsystemsUrl(satellite: int): string {
    SatellitesUrl + IntToString(satellite) + "/subsystems/"
  }

  function FilesUrl(satellite: int, subsystem: int): string {
    SubsystemsUrl(satellite) + IntToString(subsystem) + "/files/"
  }

  function VersionsUrl(satellite: int, subsystem: int, fileId: int): string {
    FilesUrl(satellite, subsystem) + IntToString(fileId) + "/"
  }

  function MetadataUrl(satellite: int, subsystem: int, fileId: int, version: int): string {
    VersionsUrl(satellite, subsystem, fileId) + "version/" + IntToString(version) + "/"
  }

  function DownloadUrl(satellite: int, subsystem: int, fileId: int, version: int): string {
    MetadataUrl(satellite, subsystem, fileId, version) + "download/"
  }

  /** `{prefix}{n}{rest}`: a fixed prefix, a number in decimal, and what follows. */
  function Segment(prefix: string, n: int, rest: string): string {
    prefix + IntToString(n) + rest
  }

  /** `sat{S}_sub{B}_file{F}_v{V}.bin`. */
  function DownloadName(satellite: int, subsystem: int, fileId: int, version: int): string {
    Segment("sat", satellite, Segment("_sub", subsystem, Segment("_file", fileId, Segment("_v", version, ".bin"))))
  }

  lemma DropCommonPrefix(p: string, x: string, y: string)
    requires p + x == p + y
    ensures x == y
  {
    assert x == (p + x)[|p|..];
    assert y == (p + y)[|p|..];
  }

  /** Two segments with the same prefix, followed by text starting with the same separator, agree. */
  lemma PeelSegment(p: string, n1: int, r1: string, n2: int, r2: string)
    requires r1 != [] && r2 != [] && r1[0] == r2[0] && !IsNumberChar(r1[0])
    requires Segment(p, n1, r1) == Segment(p, n2, r2)
    ensures n1 == n2 && r1 == r2
  {
    var x1, x2 := IntToString(n1), IntToString(n2);
    assert p + x1 + r1 == p + (x1 + r1);
    assert p + x2 + r2 == p + (x2 + r2);
    DropCommonPrefix(p, x1 + r1, x2 + r2);
    SplitAtSeparator(x1, r1, x2, r2);
    IntToStringInjective(n1, n2);
  }

  lemma SegmentStart(p: string, n: int, rest: string)
    requires p != []
    ensures Segment(p, n, rest) != [] && Segment(p, n, rest)[0] == p[0]
  {
    assert Segment(p, n, rest) == p + (IntToString(n) + rest);
  }

  /** Distinct (satellite, subsystem, file, version) tuples get distinct filenames. */
  lemma DownloadNameInjective(s1: int, b1: int, f1: int, v1: int, s2: int, b2: int, f2: int, v2: int)
    requires DownloadName(s1, b1, f1, v1) == DownloadName(s2, b2, f2, v2)
    ensures s1 == s2 && b1 == b2 && f1 == f2 && v1 == v2
  {
    var rv1, rv2 := Segment("_v", v1, ".bin"), Segment("_v", v2, ".bin");
    var rf1, rf2 := Segment("_file", f1, rv1), Segment("_file", f2, rv2);
    var rb1, rb2 := Segment("_sub", b1, rf1), Segment("_sub", b2, rf2);
    SegmentStart("_sub", b1, rf1);
    SegmentStart("_sub", b2, rf2);
    PeelSegment("sat", s1, rb1, s2, rb2);
    SegmentStart("_file", f1, rv1);
    SegmentStart("_file", f2, rv2);
    PeelSegment("_sub", b1, rf1, b2, rf2);
    SegmentStart("_v", v1, ".bin");
    SegmentStart("_v", v2, ".bin");
    PeelSegment("_file", f1, rv1, f2, rv2);
    PeelSegment("_v", v1, ".bin", v2, ".bin");
  }

  /** The metadata and download URLs extend the versions URL of the same file. */
  lemma UrlsNest(satellite: int, subsystem: int, fileId: int, version: int)
    ensures StartsWith(MetadataUrl(satellite, subsystem, fileId, version), VersionsUrl(satellite, subsystem, fileId))
    ensures StartsWith(DownloadUrl(satellite, subsystem, fileId, version), MetadataUrl(satellite, subsystem, fileId, version))
    ensures StartsWith(VersionsUrl(satellite, subsystem, fileId), FilesUrl(satellite, subsystem))
  {
    var f := FilesUrl(satellite, subsystem);
    var v := VersionsUrl(satellite, subsystem, fileId);
    var m := MetadataUrl(satellite, subsystem, fileId, version);
    assert v == f + (IntToString(fileId) + "/");
    StartsWithConcat(f, IntToString(fileId) + "/");
    assert m == v + ("version/" + IntToString(version) + "/");
    StartsWithConcat(v, "version/" + IntToString(version) + "/");
    StartsWithConcat(m, "download/");
  }

  // ---------------------------------------------------------------------------
  // The version map
  // ---------------------------------------------------------------------------

  /** `{...prev, [fileId]: versions}`. */
  function WithVersions(m: map<int, seq<FileVersion>>, fileId: int, versions: seq<FileVersion>): (r: map<int, seq<FileVersion>>)
    ensures r.Keys == m.Keys + {fileId}
    ensures r[fileId] == versions
    ensures forall k :: k in m && k != fileId ==> r[k] == m[k]
  {
    m[fileId := versions]
  }

  /** A copy of `prev` with `delete newVersions[fileId]`. */
  function WithoutVersions(m: map<int, seq<FileVersion>>, fileId: int): (r: map<int, seq<FileVersion>>)
    ensures r.Keys == m.Keys - {fileId}
    ensures forall k :: k in r ==> r[k] == m[k]
  {
    m - {fileId}
  }

  /** Hiding what was just shown gives back the map without that file; other files are untouched. */
  lemma ShowThenHide(m: map<int, seq<FileVersion>>, fileId: int, versions: seq<FileVersion>)
    ensures WithoutVersions(WithVersions(m, fileId, versions), fileId) == WithoutVersions(m, fileId)
    ensures fileId !in m ==> WithoutVersions(WithVersions(m, fileId, versions), fileId) == m
  {
    assert WithoutVersions(WithVersions(m, fileId, versions), fileId).Keys == WithoutVersions(m, fileId).Keys;
    if fileId !in m {
      assert WithoutVersions(m, fileId).Keys == m.Keys;
    }
  }

  /** Hiding then showing is the same as showing. */
  lemma HideThenShow(m: map<int, seq<FileVersion>>, fileId: int, versions: seq<FileVersion>)
    ensures WithVersions(WithoutVersions(m, fileId), fileId, versions) == WithVersions(m, fileId, versions)
  {
    assert WithVersions(WithoutVersions(m, fileId), fileId, versions).Keys == WithVersions(m, fileId, versions).Keys;
  }

  /** The versions a reply to `getFileVersions` stores: the data on a success status, `[]` otherwise. */
  function VersionsFromReply(reply: Reply<Option<StatusBody<seq<FileVersion>>>>): (vs: seq<FileVersion>)
    ensures reply.Replied? && reply.body.Some? && reply.body.value.status == "success" && reply.body.value.data.Some? ==>
      vs == reply.body.value.data.value
    ensures reply.Replied? && reply.body.Some? && reply.body.value.status == "success" && reply.body.value.data.None? ==>
      vs == []
    ensures !(reply.Replied? && reply.body.Some? && reply.body.value.status == "success") ==> vs == []
  {
    if reply.Replied? && reply.body.Some? && reply.body.value.status == "success" then
      (if reply.body.value.data.Some? then reply.body.value.data.value else [])
    else []
  }

  // ---------------------------------------------------------------------------
  // Requests and messages
  // ---------------------------------------------------------------------------

  /** A request a start method issued, with the ids its closure captured. */
  datatype Request =
    | SatellitesRequest
    | SubsystemsRequest(satellite: int)
    | FilesRequest(satellite: int, subsystem: int)
    | VersionsRequest(satellite: int, subsystem: int, fileId: int)
    | MetadataRequest(satellite: int, subsystem: int, fileId: int, version: int)
    | DownloadRequest(satellite: int, subsystem: int, fileId: int, version: int)

  function RequestUrl(r: Request): string {
    match r
    case SatellitesRequest => SatellitesUrl
    case SubsystemsRequest(s) => SubsystemsUrl(s)
    case FilesRequest(s, b) => FilesUrl(s, b)
    case VersionsRequest(s, b, f) => VersionsUrl(s, b, f)
    case MetadataRequest(s, b, f, v) => MetadataUrl(s, b, f, v)
    case DownloadRequest(s, b, f, v) => DownloadUrl(s, b, f, v)
  }

  const SatellitesError: string := "Failed to fetch satellites list"
  const UnexpectedVersionsFormat: string := "Server returned data in unexpected format"
  const UnexpectedMetadataFormat: string := "Failed to get metadata: Server returned unexpected data format"

  /** The error text of a failed versions fetch: the JSON of the error body, else of the message. */
  function VersionsErrorText(reply: Reply<Option<StatusBody<seq<FileVersion>>>>): string
    requires reply.Failed?
  {
    "Failed to fetch file versions: " + (if reply.bodyJson.Some? then reply.bodyJson.value else JsonString(reply.message))
  }

  // ---------------------------------------------------------------------------
  // The component
  // ---------------------------------------------------------------------------

  /**
   * `SatelliteDashboard`'s state cells. `auth` is the context value, fixed
   * for the component's lifetime; `initialSearchResults` is the prop, which
   * the parent replaces after every search and clear;
   * `requests` records every `api.get` issued and `downloads` every file saved.
   */
  class Dashboard {
    const auth: Option<Identity>
    var initialSearchResults: Option<seq<SearchResult>>
    var satellites: seq<Satellite>
    var selectedSatellite: Option<int>
    var subsystems: seq<int>
    var selectedSubsystem: Option<int>
    var files: seq<FileEntry>
    var fileVersions: map<int, seq<FileVersion>>
    var metadata: Option<Metadata>
    var loading: Loading
    var error: Option<string>
    var requests: seq<Request>
    var downloads: seq<string>

    constructor (auth: Option<Identity>, initialSearchResults: Option<seq<SearchResult>>)
      ensures this.auth == auth && this.initialSearchResults == initialSearchResults
      ensures satellites == [] && selectedSatellite.None? && subsystems == [] && selectedSubsystem.None?
      ensures files == [] && fileVersions == map[] && metadata.None? && loading == NotLoading && error.None?
      ensures requests == [] && downloads == []
    {
      this.auth := auth;
      this.initialSearchResults := initialSearchResults;
      satellites, selectedSatellite, subsystems, selectedSubsystem := [], None, [], None;
      files, fileVersions, metadata := [], map[], None;
      loading, error := NotLoading, None;
      requests, downloads := [], [];
    }

    /** The satellites effect: only with `auth`. */
    method FetchSatellites() returns (pending: Option<Request>)
      modifies this`loading, this`requests
      ensures auth.None? ==> pending.None? && unchanged(this)
      ensures auth.Some? ==> pending == Some(SatellitesRequest)
      ensures auth.Some? ==> loading == old(loading).(satellites := true) && requests == old(requests) + [SatellitesRequest]
    {
      if auth.None? {
        return None;
      }
      loading := loading.(satellites := true);
      requests := requests + [SatellitesRequest];
      pending := Some(SatellitesRequest);
    }

    /** `response.data.data.satellites || []`, or the fixed error message. */
    method SatellitesArrived(reply: Reply<Option<seq<Satellite>>>)
      modifies this`satellites, this`error, this`loading
      ensures loading == old(loading).(satellites := false)
      ensures reply.Replied? ==> (error == old(error) &&
        satellites == (if reply.body.Some? then reply.body.value else []))
      ensures reply.Failed? ==> satellites == old(satellites) && error == Some(SatellitesError)
    {
      match reply {
        case Replied(body) =>
          satellites := if body.Some? then body.value else [];
        case Failed(_, _, _) =>
          error := Some(SatellitesError);
      }
      loading := loading.(satellites := false);
    }

    /**
     * The state after `setSelectedSatellite(id)` and the subsystems effect: a
     * changed, truthy id with `auth` resets the subsystem, the files and the
     * version map and fetches the subsystems; otherwise only the selection
     * changes.
     */
    twostate predicate SatelliteSelected(id: Option<int>, new pending: Option<Request>)
      reads this
    {
      && selectedSatellite == id
      && var fetch := auth.Some? && Truthy(id) && id != old(selectedSatellite);
        && (fetch ==>
              && pending == Some(SubsystemsRequest(id.value))
              && selectedSubsystem.None? && files == [] && fileVersions == map[]
              && loading == old(loading).(subsystems := true)
              && requests == old(requests) + [SubsystemsRequest(id.value)])
        && (!fetch ==>
              && pending.None? && selectedSubsystem == old(selectedSubsystem) && files == old(files)
              && fileVersions == old(fileVersions) && loading == old(loading) && requests == old(requests))
    }

    /**
     * `setSelectedSatellite(id)` and, when the value changes, the subsystems
     * effect: with `auth` and a truthy id it resets the subsystem, the files
     * and the version map and fetches the subsystems.
     */
    method SelectSatellite(id: Option<int>) returns (pending: Option<Request>)
      modifies this`selectedSatellite, this`selectedSubsystem, this`files, this`fileVersions,
               this`loading, this`requests
      ensures SatelliteSelected(id, pending)
    {
      var changed := id != selectedSatellite;
      selectedSatellite := id;
      pending := None;
      if changed && auth.Some? && Truthy(id) {
        loading := loading.(subsystems := true);
        selectedSubsystem := None;
        files := [];
        fileVersions := map[];
        requests := requests + [SubsystemsRequest(id.value)];
        pending := Some(SubsystemsRequest(id.value));
      }
    }

    /** The satellite `<select>`: `parseInt` of the chosen option's value (`None` for NaN). */
    method ChooseSatellite(value: string) returns (pending: Option<Request>)
      modifies this`selectedSatellite, this`selectedSubsystem, this`files, this`fileVersions,
               this`loading, this`requests
      ensures SatelliteSelected(ParseInt(value), pending)
      ensures pending.Some? <==> auth.Some? && Truthy(ParseInt(value)) && ParseInt(value) != old(selectedSatellite)
    {
      pending := SelectSatellite(ParseInt(value));
    }

    /**
     * The subsystems arrive: the list of their ids, or an error message; then
     * the preselect effect runs on the new list.
     */
    method SubsystemsArrived(reply: Reply<seq<SubsystemItem>>) returns (pending: Option<Request>)
      modifies this`subsystems, this`error, this`loading, this`selectedSubsystem, this`fileVersions, this`requests
      ensures reply.Replied? ==> subsystems == SubsystemIds(reply.body) && error == old(error)
      ensures reply.Failed? ==> (subsystems == old(subsystems) &&
        error == Some("Erreur: " + ErrorText(reply.detail, reply.message)))
      ensures reply.Failed? ==> (pending.None? && selectedSubsystem == old(selectedSubsystem) &&
        fileVersions == old(fileVersions) && loading == old(loading).(subsystems := false) && requests == old(requests))
      ensures reply.Replied? && !PreselectApplies(SubsystemIds(reply.body)) ==>
        pending.None? && selectedSubsystem == old(selectedSubsystem) && fileVersions == old(fileVersions) &&
        loading == old(loading).(subsystems := false) && requests == old(requests)
      ensures reply.Replied? && PreselectApplies(SubsystemIds(reply.body)) ==>
        var id := initialSearchResults.value[0].subsystemId;
        var fetch := auth.Some? && Truthy(selectedSatellite) && Some(id) != old(selectedSubsystem);
        && selectedSubsystem == Some(id)
        && (fetch ==>
              && pending == Some(FilesRequest(selectedSatellite.value, id))
              && fileVersions == map[]
              && loading == old(loading).(subsystems := false).(files := true)
              && requests == old(requests) + [FilesRequest(selectedSatellite.value, id)])
        && (!fetch ==>
              && pending.None? && fileVersions == old(fileVersions)
              && loading == old(loading).(subsystems := false) && requests == old(requests))
    {
      pending := None;
      match reply {
        case Replied(items) =>
          subsystems := SubsystemIds(items);
        case Failed(detail, message, _) =>
          error := Some("Erreur: " + ErrorText(detail, message));
      }
      loading := loading.(subsystems := false);
      if reply.Replied? {
        pending := PreselectSubsystem();
      }
    }

    /**
     * The state after `setSelectedSubsystem(id)` and the files effect: a
     * changed, truthy id under a truthy satellite with `auth` resets the
     * version map and fetches the files; otherwise only the selection changes.
     */
    twostate predicate SubsystemSelected(id: Option<int>, new pending: Option<Request>)
      reads this
    {
      && selectedSubsystem == id
      && var fetch := auth.Some? && Truthy(selectedSatellite) && Truthy(id) && id != old(selectedSubsystem);
        && (fetch ==>
              && pending == Some(FilesRequest(selectedSatellite.value, id.value))
              && fileVersions == map[]
              && loading == old(loading).(files := true)
              && requests == old(requests) + [FilesRequest(selectedSatellite.value, id.value)])
        && (!fetch ==>
              pending.None? && fileVersions == old(fileVersions) && loading == old(loading) && requests == old(requests))
    }

    /**
     * `setSelectedSubsystem(id)` and, when the value changes, the files
     * effect: with `auth`, a truthy satellite and a truthy id it resets the
     * version map and fetches the files.
     */
    method SelectSubsystem(id: Option<int>) returns (pending: Option<Request>)
      modifies this`selectedSubsystem, this`fileVersions, this`loading, this`requests
      ensures SubsystemSelected(id, pending)
    {
      var changed := id != selectedSubsystem;
      selectedSubsystem := id;
      pending := None;
      if changed && auth.Some? && Truthy(selectedSatellite) && Truthy(id) {
        loading := loading.(files := true);
        fileVersions := map[];
        var r := FilesRequest(selectedSatellite.value, id.value);
        requests := requests + [r];
        pending := Some(r);
      }
    }

    /** The subsystem `<select>`: `parseInt` of the chosen option's value. */
    method ChooseSubsystem(value: string) returns (pending: Option<Request>)
      modifies this`selectedSubsystem, this`fileVersions, this`loading, this`requests
      ensures SubsystemSelected(ParseInt(value), pending)
      ensures pending.Some? <==>
        auth.Some? && Truthy(selectedSatellite) && Truthy(ParseInt(value)) && ParseInt(value) != old(selectedSubsystem)
    {
      pending := SelectSubsystem(ParseInt(value));
    }

    /** `response.data?.files || []`; on an error, `[]` and a message. */
    method FilesArrived(reply: Reply<Option<seq<FileEntry>>>)
      modifies this`files, this`error, this`loading
      ensures loading == old(loading).(files := false)
      ensures reply.Replied? ==> (error == old(error) &&
        files == (if reply.body.Some? then reply.body.value else []))
      ensures reply.Failed? ==> (files == [] &&
        error == Some("Failed to fetch files: " + ErrorText(reply.detail, reply.message)))
    {
      match reply {
        case Replied(body) =>
          files := if body.Some? then body.value else [];
        case Failed(detail, message, _) =>
          error := Some("Failed to fetch files: " + ErrorText(detail, message));
          files := [];
      }
      loading := loading.(files := false);
    }

    /** The satellite-preselect effect: the first search result's satellite, if there is a result. */
    method PreselectSatellite() returns (pending: Option<Request>)
      modifies this`selectedSatellite, this`selectedSubsystem, this`files, this`fileVersions,
               this`loading, this`requests
      ensures initialSearchResults.Some? && |initialSearchResults.value| > 0 ==>
        SatelliteSelected(Some(initialSearchResults.value[0].satelliteId), pending)
      ensures !(initialSearchResults.Some? && |initialSearchResults.value| > 0) ==> pending.None? && unchanged(this)
    {
      pending := None;
      if initialSearchResults.Some? && |initialSearchResults.value| > 0 {
        pending := SelectSatellite(Some(initialSearchResults.value[0].satelliteId));
      }
    }

    /** The first search result names a truthy subsystem that is in `loaded`. */
    predicate PreselectApplies(loaded: seq<int>)
      reads this
    {
      && initialSearchResults.Some? && |initialSearchResults.value| > 0 && |loaded| > 0
      && initialSearchResults.value[0].subsystemId != 0
      && initialSearchResults.value[0].subsystemId in loaded
    }

    /** The subsystem-preselect effect: only a subsystem that is in the loaded list is selected. */
    method PreselectSubsystem() returns (pending: Option<Request>)
      modifies this`selectedSubsystem, this`fileVersions, this`loading, this`requests
      ensures PreselectApplies(subsystems) ==> SubsystemSelected(Some(initialSearchResults.value[0].subsystemId), pending)
      ensures selectedSubsystem.Some? && selectedSubsystem != old(selectedSubsystem) ==> selectedSubsystem.value in subsystems
      ensures !PreselectApplies(subsystems) ==> pending.None? && unchanged(this)
    {
      pending := None;
      if PreselectApplies(subsystems) {
        pending := SelectSubsystem(Some(initialSearchResults.value[0].subsystemId));
      }
    }

    /**
     * A new `initialSearchResults` prop: both preselect effects depend on it
     * and run again, the satellite effect first, as declared.
     */
    method SearchResultsChanged(results: Option<seq<SearchResult>>)
      returns (satellitePending: Option<Request>, subsystemPending: Option<Request>)
      modifies this`initialSearchResults, this`selectedSatellite, this`selectedSubsystem, this`files,
               this`fileVersions, this`loading, this`requests
      ensures initialSearchResults == results
      ensures !(results.Some? && |results.value| > 0) ==>
        && satellitePending.None? && subsystemPending.None?
        && selectedSatellite == old(selectedSatellite) && selectedSubsystem == old(selectedSubsystem)
        && files == old(files) && fileVersions == old(fileVersions) && loading == old(loading)
        && requests == old(requests)
      ensures results.Some? && |results.value| > 0 ==>
        var first := results.value[0];
        var satelliteFetch := auth.Some? && Truthy(Some(first.satelliteId)) && Some(first.satelliteId) != old(selectedSatellite);
        && selectedSatellite == Some(first.satelliteId)
        && (!satelliteFetch ==>
              && satellitePending.None? && files == old(files)
              && (PreselectApplies(subsystems) ==> SubsystemSelected(Some(first.subsystemId), subsystemPending))
              && (!PreselectApplies(subsystems) ==>
                    && subsystemPending.None? && selectedSubsystem == old(selectedSubsystem)
                    && fileVersions == old(fileVersions) && loading == old(loading) && requests == old(requests)))
        && (satelliteFetch ==>
              && satellitePending == Some(SubsystemsRequest(first.satelliteId)) && files == [] && fileVersions == map[]
              && (PreselectApplies(subsystems) ==>
                    && selectedSubsystem == Some(first.subsystemId)
                    && subsystemPending == Some(FilesRequest(first.satelliteId, first.subsystemId))
                    && loading == old(loading).(subsystems := true).(files := true)
                    && requests == old(requests) + [SubsystemsRequest(first.satelliteId), FilesRequest(first.satelliteId, first.subsystemId)])
              && (!PreselectApplies(subsystems) ==>
                    && subsystemPending.None? && selectedSubsystem.None?
                    && loading == old(loading).(subsystems := true)
                    && requests == old(requests) + [SubsystemsRequest(first.satelliteId)]))
    {
      initialSearchResults := results;
      satellitePending := PreselectSatellite();
      subsystemPending := PreselectSubsystem();
    }

    /** The guard shared by `getFileVersions`, `getFileMetadata` and `downloadFile`. */
    predicate Selected()
      reads this
    {
      auth.Some? && Truthy(selectedSatellite) && Truthy(selectedSubsystem)
    }

    /** `toggleVersions(fileId)`: hide the versions if shown, else fetch them. */
    method ToggleVersions(fileId: int) returns (pending: Option<Request>)
      modifies this`fileVersions, this`loading, this`metadata, this`requests
      ensures old(fileId in fileVersions) ==>
        fileVersions == WithoutVersions(old(fileVersions), fileId) && pending.None?
        && loading == old(loading) && metadata == old(metadata) && requests == old(requests)
      ensures old(fileId !in fileVersions) ==> fileVersions == old(fileVersions) && VersionsRequested(fileId, pending)
    {
      if fileId in fileVersions {
        fileVersions := WithoutVersions(fileVersions, fileId);
        return None;
      }
      pending := GetFileVersions(fileId);
    }

    /**
     * The state after `getFileVersions(fileId)`: with the guard holding, the
     * metadata is cleared, the versions flag raised and the versions URL
     * requested; otherwise nothing changes.
     */
    twostate predicate VersionsRequested(fileId: int, new pending: Option<Request>)
      reads this
    {
      && (!(Selected() && fileId != 0) ==>
            && pending.None? && loading == old(loading) && metadata == old(metadata) && requests == old(requests))
      && (Selected() && fileId != 0 ==>
            var r := VersionsRequest(selectedSatellite.value, selectedSubsystem.value, fileId);
            && pending == Some(r) && RequestUrl(r) == VersionsUrl(selectedSatellite.value, selectedSubsystem.value, fileId)
            && loading == old(loading).(versions := true) && metadata.None? && requests == old(requests) + [r])
    }

    /** `getFileVersions(fileId)`: guarded; clears the metadata and fetches the versions. */
    method GetFileVersions(fileId: int) returns (pending: Option<Request>)
      modifies this`loading, this`metadata, this`requests
      ensures !(Selected() && fileId != 0) ==> unchanged(this)
      ensures VersionsRequested(fileId, pending)
    {
      if !(Selected() && fileId != 0) {
        return None;
      }
      loading := loading.(versions := true);
      metadata := None;
      var r := VersionsRequest(selectedSatellite.value, selectedSubsystem.value, fileId);
      requests := requests + [r];
      pending := Some(r);
    }

    /** The versions arrive: only the entry of this file changes. */
    method VersionsArrived(req: Request, reply: Reply<Option<StatusBody<seq<FileVersion>>>>)
      requires req.VersionsRequest?
      modifies this`fileVersions, this`error, this`loading
      ensures fileVersions == WithVersions(old(fileVersions), req.fileId, VersionsFromReply(reply))
      ensures loading == old(loading).(versions := false)
      ensures reply.Replied? && reply.body.Some? && reply.body.value.status == "success" ==> error == old(error)
      ensures reply.Replied? && !(reply.body.Some? && reply.body.value.status == "success") ==>
        error == Some(UnexpectedVersionsFormat)
      ensures reply.Failed? ==> error == Some(VersionsErrorText(reply))
    {
      match reply {
        case Replied(body) =>
          if body.Some? && body.value.status == "success" {
            fileVersions := WithVersions(fileVersions, req.fileId, if body.value.data.Some? then body.value.data.value else []);
          } else {
            error := Some(UnexpectedVersionsFormat);
            fileVersions := WithVersions(fileVersions, req.fileId, []);
          }
        case Failed(_, _, _) =>
          error := Some(VersionsErrorText(reply));
          fileVersions := WithVersions(fileVersions, req.fileId, []);
      }
      loading := loading.(versions := false);
    }

    /** `getFileMetadata(fileId, fileVer)`: guarded on every id. */
    method GetFileMetadata(fileId: int, fileVer: int) returns (pending: Option<Request>)
      modifies this`loading, this`requests
      ensures !(Selected() && fileId != 0 && fileVer != 0) ==> pending.None? && unchanged(this)
      ensures Selected() && fileId != 0 && fileVer != 0 ==>
        var r := MetadataRequest(selectedSatellite.value, selectedSubsystem.value, fileId, fileVer);
        && pending == Some(r) && loading == old(loading).(metadata := true) && requests == old(requests) + [r]
    {
      if !(Selected() && fileId != 0 && fileVer != 0) {
        return None;
      }
      loading := loading.(metadata := true);
      var r := MetadataRequest(selectedSatellite.value, selectedSubsystem.value, fileId, fileVer);
      requests := requests + [r];
      pending := Some(r);
    }

    /** `response.data.data || {}` on a success status; otherwise the metadata is kept and a message set. */
    method MetadataArrived(reply: Reply<Option<StatusBody<Metadata>>>)
      modifies this`metadata, this`error, this`loading
      ensures loading == old(loading).(metadata := false)
      ensures reply.Replied? && reply.body.Some? && reply.body.value.status == "success" ==>
        error == old(error) &&
        metadata == Some(if reply.body.value.data.Some? then reply.body.value.data.value else map[])
      ensures reply.Replied? && !(reply.body.Some? && reply.body.value.status == "success") ==>
        metadata == old(metadata) && error == Some(UnexpectedMetadataFormat)
      ensures reply.Failed? ==> (metadata == old(metadata) &&
        error == Some("Failed to fetch metadata: " + ErrorText(reply.detail, reply.message)))
    {
      match reply {
        case Replied(body) =>
          if body.Some? && body.value.status == "success" {
            metadata := Some(if body.value.data.Some? then body.value.data.value else map[]);
          } else {
            error := Some(UnexpectedMetadataFormat);
          }
        case Failed(detail, message, _) =>
          error := Some("Failed to fetch metadata: " + ErrorText(detail, message));
      }
      loading := loading.(metadata := false);
    }

    /** `downloadFile(fileId, fileVer)`: guarded on every id. */
    method DownloadFile(fileId: int, fileVer: int) returns (pending: Option<Request>)
      modifies this`loading, this`requests
      ensures !(Selected() && fileId != 0 && fileVer != 0) ==> pending.None? && unchanged(this)
      ensures Selected() && fileId != 0 && fileVer != 0 ==>
        var r := DownloadRequest(selectedSatellite.value, selectedSubsystem.value, fileId, fileVer);
        && pending == Some(r) && loading == old(loading).(download := true) && requests == old(requests) + [r]
    {
      if !(Selected() && fileId != 0 && fileVer != 0) {
        return None;
      }
      loading := loading.(download := true);
      var r := DownloadRequest(selectedSatellite.value, selectedSubsystem.value, fileId, fileVer);
      requests := requests + [r];
      pending := Some(r);
    }

    /** The blob arrives: it is saved under the name built from the captured ids. */
    method DownloadArrived(req: Request, reply: Reply<()>)
      requires req.DownloadRequest?
      modifies this`downloads, this`error, this`loading
      ensures loading == old(loading).(download := false)
      ensures reply.Replied? ==> (error == old(error) &&
        downloads == old(downloads) + [DownloadName(req.satellite, req.subsystem, req.fileId, req.version)])
      ensures reply.Failed? ==> (downloads == old(downloads) &&
        error == Some("Failed to download file: " + ErrorText(reply.detail, reply.message)))
    {
      match reply {
        case Replied(_) =>
          downloads := downloads + [DownloadName(req.satellite, req.subsystem, req.fileId, req.version)];
        case Failed(detail, message, _) =>
          error := Some("Failed to download file: " + ErrorText(detail, message));
      }
      loading := loading.(download := false);
    }

    /** The error banner's close button. */
    method DismissError()
      modifies this`error
      ensures error.None?
    {
      error := None;
    }

    /** The metadata panel's close button. */
    method CloseMetadata()
      modifies this`metadata
      ensures metadata.None?
    {
      metadata := None;
    }
  }

  /** A dashboard with satellite 1 and, from its loaded list, subsystem 6 selected. */
  method SubsystemChosenDashboard() returns (d: Dashboard)
    ensures fresh(d) && d.auth.Some? && d.selectedSatellite == Some(1) && d.selectedSubsystem == Some(6)
    ensures d.fileVersions == map[] && d.subsystems == [3, 6]
  {
    d := new Dashboard(Some(Identity("t0k3n", Some("operator"), false)), None);
    var _ := d.SelectSatellite(Some(1));
    var _ := d.SubsystemsArrived(Replied([SubsystemItem(3, "power"), SubsystemItem(6, "payload")]));
    assert d.selectedSatellite == Some(1);
    var _ := d.SelectSubsystem(Some(6));
  }

  /** A dashboard with satellite 1, subsystem 6, its files and one file's versions loaded. */
  method LoadedDashboard() returns (d: Dashboard)
    ensures fresh(d) && d.auth.Some? && d.selectedSatellite == Some(1)
    ensures d.selectedSubsystem == Some(6) && d.files != [] && d.fileVersions != map[]
  {
    d := SubsystemChosenDashboard();
    d.FilesArrived(Replied(Some([FileEntry(14, "telemetry")])));
    var p := d.ToggleVersions(14);
    assert p == Some(VersionsRequest(1, 6, 14));
    d.VersionsArrived(p.value, Replied(Some(StatusBody("success", Some([FileVersion(1, "2025-03-15")])))));
    assert 14 in d.fileVersions;
  }

  /**
   * Picking a new satellite clears everything below it, so a subsystem, its
   * files and their versions from the previous satellite never survive.
   */
  method SelectionCascadeScenario() returns (cleared: bool)
    ensures cleared
  {
    var d := LoadedDashboard();
    var _ := d.SelectSatellite(Some(2));
    cleared := d.selectedSubsystem.None? && d.files == [] && d.fileVersions == map[];
  }

  /**
   * A later search whose first result names the other loaded subsystem of
   * the satellite already shown: the preselect effect switches the subsystem
   * and fetches its files.
   */
  method NewSearchResultsScenario() returns (subsystem: Option<int>, fetched: Option<Request>)
    ensures subsystem == Some(3) && fetched == Some(FilesRequest(1, 3))
  {
    var d := SubsystemChosenDashboard();
    var _, p := d.SearchResultsChanged(Some([SearchResult(1, "MOHAMMEDIA-SAT", 3, 14, "2025-03-15")]));
    subsystem, fetched := d.selectedSubsystem, p;
  }
}
