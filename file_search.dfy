/**
 * The file-search form: three text fields, a simulated search that reports
 * at most one result through the `onSearchResults` callback, and a clear
 * action that reports `null`.
 */
module FileSearch {
  import opened JsText
  import opened AuthContext

  /** The `searchParams` state: the raw text of the three inputs. */
  datatype SearchParams = SearchParams(satelliteId: string, subsystemId: string, fileId: string)

  /** The `name` attribute of an input: `satellite_id`, `subsystem_id` or `file_id`. */
  datatype Field = SatelliteIdField | SubsystemIdField | FileIdField

  const EmptyParams: SearchParams := SearchParams("", "", "")

  /** `{...prev, [name]: value}`. */
  function WithField(p: SearchParams, name: Field, value: string): (r: SearchParams)
    ensures r.satelliteId == (if name == SatelliteIdField then value else p.satelliteId)
    ensures r.subsystemId == (if name == SubsystemIdField then value else p.subsystemId)
    ensures r.fileId == (if name == FileIdField then value else p.fileId)
  {
    match name
    case SatelliteIdField => p.(satelliteId := value)
    case SubsystemIdField => p.(subsystemId := value)
    case FileIdField => p.(fileId := value)
  }

  /** The last write to a field wins, and writes to different fields commute. */
  lemma WithFieldOverwrites(p: SearchParams, a: Field, b: Field, x: string, y: string)
    ensures a == b ==> WithField(WithField(p, a, x), b, y) == WithField(p, b, y)
    ensures a != b ==> WithField(WithField(p, a, x), b, y) == WithField(WithField(p, b, y), a, x)
  {
  }

  /** One entry of the reported results. */
  datatype SearchResult = SearchResult(satelliteId: int, satelliteName: string, subsystemId: int, fileId: int, updatedDate: string)

  const DefaultSatelliteId: int := 2
  const DefaultSubsystemId: int := 6
  const DefaultFileId: int := 14
  const SimulatedUpdatedDate: string := "2025-03-15 10:42:17"

  /** `parseInt(text) || fallback`: NaN and 0 are falsy. */
  function IdOrDefault(text: string, fallback: int): (id: int)
    ensures fallback != 0 ==> id != 0
    ensures ParseInt(text).None? ==> id == fallback
    ensures ParseInt(text) == Some(0) ==> id == fallback
    ensures ParseInt(text).Some? && ParseInt(text).value != 0 ==> id == ParseInt(text).value
  {
    match ParseInt(text)
    case None => fallback
    case Some(n) => if n != 0 then n else fallback
  }

  /** Any non-zero integer typed in its decimal form comes back unchanged. */
  lemma IdOrDefaultOfNumeral(n: int, fallback: int)
    requires n != 0
    ensures IdOrDefault(IntToString(n), fallback) == n
  {
    ParseIntOfIntToString(n);
  }

  /** A typed zero is falsy, so it yields the default. */
  lemma ZeroFallsBack(fallback: int)
    ensures IdOrDefault("0", fallback) == fallback
  {
    ZeroParsesToZero();
  }

  lemma ZeroParsesToZero()
    ensures ParseInt("0") == Some(0)
  {
    ParseIntOfIntToString(0);
    assert IntToString(0) == "0";
  }

  /**
   * Blank text, and text whose first non-blank character is neither a sign
   * nor a decimal digit, is NaN for `parseInt`, so it yields the default.
   */
  lemma NonNumericFallsBack(text: string, fallback: int)
    requires TrimStart(text) == [] || (TrimStart(text)[0] != '+' && TrimStart(text)[0] != '-' && !IsDecimalDigit(TrimStart(text)[0]))
    ensures IdOrDefault(text, fallback) == fallback
  {
    ParseIntNaN(text);
  }

  /** The satellite name is decided by the raw text, not by the parsed id. */
  function SatelliteName(satelliteIdText: string): (name: string)
    ensures name == "UM5-EOSAT" <==> satelliteIdText == "1"
    ensures name == "MOHAMMEDIA-SAT" <==> satelliteIdText != "1"
  {
    if satelliteIdText == "1" then "UM5-EOSAT" else "MOHAMMEDIA-SAT"
  }

  /** Any of the three fields is truthy. */
  predicate AnyFieldSet(p: SearchParams) {
    p.satelliteId != "" || p.subsystemId != "" || p.fileId != ""
  }

  /** The result list `handleSearch` reports for given parameters. */
  function SimulatedResults(p: SearchParams): (rs: seq<SearchResult>)
    ensures |rs| == (if AnyFieldSet(p) then 1 else 0)
    ensures forall r :: r in rs ==>
      && r.satelliteId == IdOrDefault(p.satelliteId, DefaultSatelliteId)
      && r.satelliteName == SatelliteName(p.satelliteId)
      && r.subsystemId == IdOrDefault(p.subsystemId, DefaultSubsystemId)
      && r.fileId == IdOrDefault(p.fileId, DefaultFileId)
      && r.updatedDate == SimulatedUpdatedDate
    ensures forall r :: r in rs ==> r.satelliteId != 0 && r.subsystemId != 0 && r.fileId != 0
  {
    if AnyFieldSet(p) then
      [SearchResult(IdOrDefault(p.satelliteId, DefaultSatelliteId), SatelliteName(p.satelliteId),
                    IdOrDefault(p.subsystemId, DefaultSubsystemId), IdOrDefault(p.fileId, DefaultFileId),
                    SimulatedUpdatedDate)]
    else []
  }

  /** "01" reads as 1: the leading zero is just another digit. */
  lemma PaddedOneParsesToOne()
    ensures ParseInt("01") == Some(1)
  {
    var s := "01";
    assert IsDecimalDigit(s[0]) && IsDecimalDigit(s[1]);
    ParseIntOfDigits(s);
    PaddedOneDigits();
  }

  lemma PaddedOneDigits()
    ensures DigitsValue("01", 10) == 1
  {
    var s := "01";
    assert IsDecimalDigit(s[0]) && IsDecimalDigit(s[1]);
    assert s[..1] == "0" && "0"[..0] == "";
    assert DigitsValue("0", 10) == 0;
  }

  /** "01" parses to satellite 1 but is not the text "1", so its name is the other satellite's. */
  lemma PaddedIdNamesOtherSatellite()
    ensures SimulatedResults(SearchParams("01", "", "")) ==
      [SearchResult(1, "MOHAMMEDIA-SAT", DefaultSubsystemId, DefaultFileId, SimulatedUpdatedDate)]
  {
    PaddedOneParsesToOne();
    assert IdOrDefault("01", DefaultSatelliteId) == 1;
    NonNumericFallsBack("", DefaultSubsystemId);
    NonNumericFallsBack("", DefaultFileId);
    assert SatelliteName("01") == "MOHAMMEDIA-SAT";
  }

  /**
   * The component's state: the form fields, the loading flag, and every value
   * passed to `onSearchResults` (`None` for the `null` of a clear).
   */
  class FileSearchForm {
    const auth: Option<Identity>
    var searchParams: SearchParams
    var loading: bool
    var reports: seq<Option<seq<SearchResult>>>

    constructor (auth: Option<Identity>)
      ensures this.auth == auth && searchParams == EmptyParams && !loading && reports == []
    {
      this.auth := auth;
      searchParams := EmptyParams;
      loading := false;
      reports := [];
    }

    /** `handleInputChange` for the input named `name`. */
    method HandleInputChange(name: Field, value: string)
      modifies this`searchParams
      ensures searchParams == WithField(old(searchParams), name, value)
    {
      searchParams := WithField(searchParams, name, value);
    }

    /** `handleSearch`: nothing without `auth`; otherwise one report of the simulated results. */
    method HandleSearch() returns (results: seq<SearchResult>)
      modifies this`loading, this`reports
      ensures auth.None? ==> results == [] && unchanged(this)
      ensures auth.Some? ==> results == SimulatedResults(searchParams)
      ensures auth.Some? ==> reports == old(reports) + [Some(results)] && !loading
    {
      results := [];
      if auth.None? {
        return;
      }
      loading := true;
      var p := searchParams;
      if AnyFieldSet(p) {
        var found := SearchResult(IdOrDefault(p.satelliteId, DefaultSatelliteId), SatelliteName(p.satelliteId),
                                  IdOrDefault(p.subsystemId, DefaultSubsystemId), IdOrDefault(p.fileId, DefaultFileId),
                                  SimulatedUpdatedDate);
        results := results + [found];
      }
      assert results == SimulatedResults(p);
      reports := reports + [Some(results)];
      loading := false;
    }

    /** `clearSearch`: all fields empty, and `null` reported. */
    method ClearSearch()
      modifies this`searchParams, this`reports
      ensures searchParams == EmptyParams
      ensures reports == old(reports) + [None]
    {
      searchParams := EmptyParams;
      reports := reports + [None];
    }
  }
}
