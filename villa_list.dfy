/**
 * The search page (src/components/VillaList.jsx): the filter inputs, the
 * listings request they produce, the page's fetch state and the status
 * panels derived from it, and the hand-off from "Book Now" to the sign-in
 * dialog or the booking form.
 */
module Catalog {
  import opened JsRuntime
  import opened Listing
  import opened Booking
  import opened Orchestrator

  // ---------------------------------------------------------------------
  // Filters and the listings request
  // ---------------------------------------------------------------------

  /** The three filter inputs, as the text they hold. */
  datatype Filters = Filters(location: string, minPrice: string, maxPrice: string)

  const EmptyFilters := Filters("", "", "")

  /** The `name` attributes of the filter inputs. */
  datatype FilterField = Location | MinPrice | MaxPrice

  function FilterValue(f: Filters, field: FilterField): string {
    match field
    case Location => f.location
    case MinPrice => f.minPrice
    case MaxPrice => f.maxPrice
  }

  /** `{...prev, [name]: value}`: the named filter takes the new text, the others keep theirs. */
  function WithFilter(f: Filters, field: FilterField, value: string): (r: Filters)
    ensures FilterValue(r, field) == value
    ensures forall g :: g != field ==> FilterValue(r, g) == FilterValue(f, g)
  {
    match field
    case Location => f.(location := value)
    case MinPrice => f.(minPrice := value)
    case MaxPrice => f.(maxPrice := value)
  }

  type Param = (string, string)

  /** The query key a filter is sent under: its input's `name`. */
  function KeyName(field: FilterField): string {
    match field
    case Location => "location"
    case MinPrice => "minPrice"
    case MaxPrice => "maxPrice"
  }

  /** Where a query key sits in the fixed order location, minPrice, maxPrice. */
  function KeyRank(key: string): int {
    if key == "location" then 0 else if key == "minPrice" then 1 else if key == "maxPrice" then 2 else 3
  }

  /**
   * The parameters a fetch appends: one per non-empty filter, under the
   * filter's own name, in the order location, minPrice, maxPrice.
   */
  function Params(f: Filters): (ps: seq<Param>)
    ensures |ps| <= 3
    ensures forall k :: 0 <= k < |ps| ==> ps[k].1 != "" && KeyRank(ps[k].0) < 3
    ensures ("location", f.location) in ps <==> f.location != ""
    ensures ("minPrice", f.minPrice) in ps <==> f.minPrice != ""
    ensures ("maxPrice", f.maxPrice) in ps <==> f.maxPrice != ""
    ensures forall p :: p in ps ==>
      p == ("location", f.location) || p == ("minPrice", f.minPrice) || p == ("maxPrice", f.maxPrice)
    ensures forall i, j :: 0 <= i < j < |ps| ==> KeyRank(ps[i].0) < KeyRank(ps[j].0)
    ensures ps == [] <==> f == EmptyFilters
  {
    (if f.location != "" then [("location", f.location)] else [])
    + (if f.minPrice != "" then [("minPrice", f.minPrice)] else [])
    + (if f.maxPrice != "" then [("maxPrice", f.maxPrice)] else [])
  }

  /** Setting any one filter alone asks for exactly that filter, under its own name. */
  lemma SingleFilter(field: FilterField, value: string)
    requires value != ""
    ensures Params(WithFilter(EmptyFilters, field, value)) == [(KeyName(field), value)]
  {
  }

  // The application/x-www-form-urlencoded serializer of the URL Standard
  // (section 5.2), which `URLSearchParams` uses to print itself.

  /** The UTF-8 bytes of one character, most significant first. */
  function Utf8(c: char): (bytes: seq<int>)
    ensures 1 <= |bytes| <= 4
    ensures forall k :: 0 <= k < |bytes| ==> 0 <= bytes[k] < 256
    ensures (c as int) < 0x80 ==> bytes == [c as int]
    ensures (c as int) >= 0x80 ==> forall k :: 0 <= k < |bytes| ==> bytes[k] >= 0x80
  {
    var cp := c as int;
    if cp < 0x80 then [cp]
    else if cp < 0x800 then [0xC0 + cp / 64, 0x80 + cp % 64]
    else if cp < 0x10000 then [0xE0 + cp / 64 / 64, 0x80 + cp / 64 % 64, 0x80 + cp % 64]
    else [0xF0 + cp / 64 / 64 / 64, 0x80 + cp / 64 / 64 % 64, 0x80 + cp / 64 % 64, 0x80 + cp % 64]
  }

  /** The bytes the serializer leaves as they are: ASCII letters and digits, `*`, `-`, `.` and `_`. */
  predicate Unreserved(b: int) {
    ('0' as int <= b <= '9' as int) || ('A' as int <= b <= 'Z' as int) || ('a' as int <= b <= 'z' as int)
    || b == '*' as int || b == '-' as int || b == '.' as int || b == '_' as int
  }

  function HexDigit(d: int): (c: char)
    requires 0 <= d < 16
    ensures ('0' <= c <= '9') || ('A' <= c <= 'F')
    ensures IsHexChar(c) && HexValue(c) == d
  {
    if d < 10 then ('0' as int + d) as char else ('A' as int + d - 10) as char
  }

  /** Neither of the characters that delimit the parameters of a query. */
  predicate NoDelimiter(s: string) {
    forall k :: 0 <= k < |s| ==> s[k] != '&' && s[k] != '='
  }

  /** One byte: space becomes `+`, an unreserved byte stays, any other becomes `%XX`. */
  function EncodeByte(b: int): (r: string)
    requires 0 <= b < 256
    ensures NoDelimiter(r)
    ensures Unreserved(b) ==> r == [b as char]
    ensures b == 0x20 ==> r == "+"
    ensures b != 0x20 && !Unreserved(b) ==> |r| == 3 && r[0] == '%'
  {
    if b == 0x20 then "+"
    else if Unreserved(b) then [b as char]
    else ['%', HexDigit(b / 16), HexDigit(b % 16)]
  }

  function EncodeBytes(bytes: seq<int>): (r: string)
    requires forall k :: 0 <= k < |bytes| ==> 0 <= bytes[k] < 256
    ensures NoDelimiter(r)
  {
    if bytes == [] then "" else EncodeByte(bytes[0]) + EncodeBytes(bytes[1..])
  }

  /** A name or a value, percent-encoded over its UTF-8 bytes. */
  function FormEncode(s: string): (r: string)
    ensures NoDelimiter(r)
  {
    if s == [] then "" else EncodeBytes(Utf8(s[0])) + FormEncode(s[1..])
  }

  /** Text made of unreserved ASCII characters alone, such as a price, is sent unchanged. */
  lemma {:induction false} PlainTextUnchanged(s: string)
    requires forall k :: 0 <= k < |s| ==> Unreserved(s[k] as int)
    ensures FormEncode(s) == s
  {
    if s != [] {
      PlainTextUnchanged(s[1..]);
      assert EncodeBytes(Utf8(s[0])) == [s[0]];
    }
  }

  // The reverse direction: the application/x-www-form-urlencoded parser of
  // the URL Standard (section 5.1), which gives back what the server reads.

  predicate IsHexChar(c: char) {
    ('0' <= c <= '9') || ('A' <= c <= 'F') || ('a' <= c <= 'f')
  }

  function HexValue(c: char): (d: int)
    requires IsHexChar(c)
    ensures 0 <= d < 16
  {
    if c <= '9' then c as int - '0' as int
    else if c <= 'F' then c as int - 'A' as int + 10
    else c as int - 'a' as int + 10
  }

  /**
   * The bytes an encoded component stands for: `+` is a space, `%` and two
   * hexadecimal digits is that byte, and any other character (a `%` without
   * two digits after it included) stands for its own UTF-8 bytes.
   */
  function PercentDecode(s: string): (bytes: seq<int>)
  {
    if s == [] then []
    else if s[0] == '+' then [0x20] + PercentDecode(s[1..])
    else if s[0] == '%' && |s| >= 3 && IsHexChar(s[1]) && IsHexChar(s[2]) then
      [HexValue(s[1]) * 16 + HexValue(s[2])] + PercentDecode(s[3..])
    else Utf8(s[0]) + PercentDecode(s[1..])
  }

  predicate Continuation(b: int) {
    0x80 <= b < 0xC0
  }

  /** A code point that is a Unicode scalar value, that is, a `char`. */
  predicate IsScalar(cp: int) {
    0 <= cp < 0xD800 || 0xE000 <= cp < 0x110000
  }

  /** The length of the UTF-8 sequence a lead byte opens, or 0 for a byte that opens none. */
  function SequenceLength(b: int): (n: int)
    ensures 0 <= n <= 4
  {
    if 0 <= b < 0x80 then 1
    else if 0xC0 <= b < 0xE0 then 2
    else if 0xE0 <= b < 0xF0 then 3
    else if 0xF0 <= b < 0xF8 then 4
    else 0
  }

  /** The code point of the UTF-8 sequence at the start of `bytes`, `n` bytes long. */
  function CodePoint(bytes: seq<int>, n: int): int
    requires 1 <= n <= 4 && n <= |bytes|
  {
    var b := bytes[0];
    if n == 1 then b
    else if n == 2 then (b - 0xC0) * 64 + (bytes[1] - 0x80)
    else if n == 3 then ((b - 0xE0) * 64 + (bytes[1] - 0x80)) * 64 + (bytes[2] - 0x80)
    else (((b - 0xF0) * 64 + (bytes[1] - 0x80)) * 64 + (bytes[2] - 0x80)) * 64 + (bytes[3] - 0x80)
  }

  /**
   * The characters UTF-8 bytes stand for, one lead byte and its
   * continuation bytes at a time. It is None where the bytes are not
   * UTF-8, where the parser would put U+FFFD instead; encoded text never
   * reaches that case (Utf8DecodeAll).
   */
  function Utf8Decode(bytes: seq<int>): (r: Option<string>)
    decreases |bytes|
  {
    if bytes == [] then Some([])
    else
      var n := SequenceLength(bytes[0]);
      if n == 0 || |bytes| < n || !(forall k :: 1 <= k < n ==> Continuation(bytes[k])) then None
      else
        var cp := CodePoint(bytes, n);
        if !IsScalar(cp) then None
        else match Utf8Decode(bytes[n..])
          case None => None
          case Some(rest) => Some([cp as char] + rest)
  }

  /** What the parser reads back from one encoded name or value. */
  function FormDecode(s: string): Option<string> {
    Utf8Decode(PercentDecode(s))
  }

  /** The UTF-8 bytes of a whole string. */
  function Utf8All(s: string): (bytes: seq<int>)
    ensures forall k :: 0 <= k < |bytes| ==> 0 <= bytes[k] < 256
  {
    if s == [] then [] else Utf8(s[0]) + Utf8All(s[1..])
  }

  /** Decoding reads one encoded byte back, whatever follows it. */
  lemma PercentDecodeByte(b: int, rest: string)
    requires 0 <= b < 256
    ensures PercentDecode(EncodeByte(b) + rest) == [b] + PercentDecode(rest)
  {
    var e := EncodeByte(b);
    var s := e + rest;
    if b == 0x20 {
      assert s[0] == '+' && s[1..] == rest;
    } else if Unreserved(b) {
      assert s[0] == b as char && s[1..] == rest;
    } else {
      assert s[0] == '%' && s[1] == HexDigit(b / 16) && s[2] == HexDigit(b % 16) && s[3..] == rest;
    }
  }

  lemma {:induction false} PercentDecodeBytes(bytes: seq<int>, rest: string)
    requires forall k :: 0 <= k < |bytes| ==> 0 <= bytes[k] < 256
    ensures PercentDecode(EncodeBytes(bytes) + rest) == bytes + PercentDecode(rest)
  {
    if bytes == [] {
      assert EncodeBytes(bytes) + rest == rest;
    } else {
      var head := EncodeByte(bytes[0]);
      var tail := EncodeBytes(bytes[1..]) + rest;
      calc {
        PercentDecode(EncodeBytes(bytes) + rest);
        { assert EncodeBytes(bytes) + rest == head + tail; }
        PercentDecode(head + tail);
        { PercentDecodeByte(bytes[0], tail); }
        [bytes[0]] + PercentDecode(tail);
        { PercentDecodeBytes(bytes[1..], rest); }
        [bytes[0]] + (bytes[1..] + PercentDecode(rest));
        { assert [bytes[0]] + bytes[1..] == bytes; }
        bytes + PercentDecode(rest);
      }
    }
  }

  /** Decoding the encoded text gives back the text's UTF-8 bytes. */
  lemma {:induction false} PercentDecodeFormEncode(s: string)
    ensures PercentDecode(FormEncode(s)) == Utf8All(s)
  {
    if s != [] {
      PercentDecodeFormEncode(s[1..]);
      PercentDecodeBytes(Utf8(s[0]), FormEncode(s[1..]));
    }
  }

  /** UTF-8 decoding reads one encoded character back, whatever follows it. */
  lemma Utf8DecodeChar(c: char, rest: seq<int>, text: string)
    requires Utf8Decode(rest) == Some(text)
    ensures Utf8Decode(Utf8(c) + rest) == Some([c] + text)
  {
    var bytes := Utf8(c) + rest;
    var n := |Utf8(c)|;
    var cp := c as int;
    assert bytes[n..] == rest;
    assert bytes[..n] == Utf8(c);
    if cp < 0x80 {
      assert SequenceLength(bytes[0]) == 1;
    } else if cp < 0x800 {
      assert SequenceLength(bytes[0]) == 2;
      assert CodePoint(bytes, 2) == cp / 64 * 64 + cp % 64;
    } else if cp < 0x10000 {
      assert SequenceLength(bytes[0]) == 3;
      assert CodePoint(bytes, 3) == (cp / 64 / 64 * 64 + cp / 64 % 64) * 64 + cp % 64;
    } else {
      assert cp / 64 / 64 / 64 < 8;
      assert SequenceLength(bytes[0]) == 4;
      assert CodePoint(bytes, 4) == ((cp / 64 / 64 / 64 * 64 + cp / 64 / 64 % 64) * 64 + cp / 64 % 64) * 64 + cp % 64;
    }
    assert CodePoint(bytes, n) == cp;
  }

  lemma {:induction false} Utf8DecodeAll(s: string)
    ensures Utf8Decode(Utf8All(s)) == Some(s)
  {
    if s != [] {
      Utf8DecodeAll(s[1..]);
      Utf8DecodeChar(s[0], Utf8All(s[1..]), s[1..]);
      assert [s[0]] + s[1..] == s;
    }
  }

  /** The parser reads back exactly the text the serializer encoded. */
  lemma FormEncodeRoundTrip(s: string)
    ensures FormDecode(FormEncode(s)) == Some(s)
  {
    PercentDecodeFormEncode(s);
    Utf8DecodeAll(s);
  }

  /** Two different filter values are never sent as the same text. */
  lemma FormEncodeInjective(a: string, b: string)
    requires FormEncode(a) == FormEncode(b)
    ensures a == b
  {
    FormEncodeRoundTrip(a);
    FormEncodeRoundTrip(b);
  }

  /** Text is encoded one character at a time: encoding distributes over concatenation. */
  lemma {:induction false} FormEncodeAppend(a: string, b: string)
    ensures FormEncode(a + b) == FormEncode(a) + FormEncode(b)
  {
    if a != [] {
      FormEncodeAppend(a[1..], b);
      assert (a + b)[1..] == a[1..] + b;
    } else {
      assert a + b == b;
    }
  }

  /** A space between two plain words, as in "Goa Beach", is sent as `+`. */
  lemma SpaceAsPlus(a: string, b: string)
    requires forall k :: 0 <= k < |a| ==> Unreserved(a[k] as int)
    requires forall k :: 0 <= k < |b| ==> Unreserved(b[k] as int)
    ensures FormEncode(a + " " + b) == a + "+" + b
  {
    PlainTextUnchanged(a);
    PlainTextUnchanged(b);
    assert FormEncode(" ") == "+" by {
      assert Utf8(' ') == [0x20];
      assert EncodeBytes([0x20]) == "+";
    }
    FormEncodeAppend(a, " ");
    FormEncodeAppend(a + " ", b);
  }

  /** The rupee sign is sent as its three UTF-8 bytes. */
  lemma RupeeExample()
    ensures FormEncode("\U{20B9}") == "%E2%82%B9"
  {
    assert Utf8('\U{20B9}') == [0xE2, 0x82, 0xB9];
    assert EncodeBytes([0xB9]) == "%B9";
    assert EncodeBytes([0x82, 0xB9]) == "%82%B9";
  }

  function EncodePair(p: Param): string {
    FormEncode(p.0) + "=" + FormEncode(p.1)
  }

  function EncodePairs(ps: seq<Param>): (parts: seq<string>)
    ensures |parts| == |ps|
    ensures forall k :: 0 <= k < |ps| ==> parts[k] == EncodePair(ps[k])
  {
    if ps == [] then [] else [EncodePair(ps[0])] + EncodePairs(ps[1..])
  }

  /** The parts joined with `&`. */
  function Join(parts: seq<string>): string {
    if parts == [] then ""
    else if |parts| == 1 then parts[0]
    else parts[0] + "&" + Join(parts[1..])
  }

  /** `s.split("&")`. */
  function SplitAmp(s: string): (parts: seq<string>)
    ensures |parts| >= 1
  {
    if s == [] then [""]
    else
      var rest := SplitAmp(s[1..]);
      if s[0] == '&' then [""] + rest else [[s[0]] + rest[0]] + rest[1..]
  }

  lemma {:induction false} SplitWithoutAmp(a: string)
    requires forall k :: 0 <= k < |a| ==> a[k] != '&'
    ensures SplitAmp(a) == [a]
  {
    if a != [] {
      SplitWithoutAmp(a[1..]);
      assert [a[0]] + a[1..] == a;
    }
  }

  lemma {:induction false} SplitAtFirstAmp(a: string, b: string)
    requires forall k :: 0 <= k < |a| ==> a[k] != '&'
    ensures SplitAmp(a + "&" + b) == [a] + SplitAmp(b)
  {
    if a == [] {
      assert a + "&" + b == ['&'] + b;
    } else {
      SplitAtFirstAmp(a[1..], b);
      assert (a + "&" + b)[1..] == a[1..] + "&" + b;
      assert [a[0]] + a[1..] == a;
    }
  }

  /**
   * `queryParams.toString()`. It is empty exactly when there are no
   * parameters; otherwise, split at `&`, it gives back one `name=value`
   * component per parameter, in order.
   */
  function Query(ps: seq<Param>): (q: string)
    ensures q == "" <==> ps == []
    ensures ps != [] ==> SplitAmp(q) == EncodePairs(ps)
  {
    var parts := EncodePairs(ps);
    if ps == [] then ""
    else
      NoAmpInPairs(parts, ps);
      SplitJoinAmpFree(parts);
      assert |parts[0]| > 0;
      Join(parts)
  }

  predicate AmpFree(s: string) {
    forall k :: 0 <= k < |s| ==> s[k] != '&'
  }

  lemma NoAmpInPairs(parts: seq<string>, ps: seq<Param>)
    requires |parts| == |ps|
    requires forall k :: 0 <= k < |ps| ==> parts[k] == EncodePair(ps[k])
    ensures forall i :: 0 <= i < |parts| ==> AmpFree(parts[i])
  {
  }

  /** Splitting a join of `&`-free parts gives the parts back. */
  lemma {:induction false} SplitJoinAmpFree(parts: seq<string>)
    requires |parts| >= 1
    requires forall i :: 0 <= i < |parts| ==> AmpFree(parts[i])
    ensures SplitAmp(Join(parts)) == parts
  {
    if |parts| == 1 {
      SplitWithoutAmp(parts[0]);
    } else {
      SplitAtFirstAmp(parts[0], Join(parts[1..]));
      SplitJoinAmpFree(parts[1..]);
      assert [parts[0]] + parts[1..] == parts;
    }
  }

  const ListingsBase := "http://localhost:5001/api/villas?"

  /** The listings request for a set of applied filters. */
  function ListingsUrl(f: Filters): (url: string)
    ensures |url| >= |ListingsBase| && url[..|ListingsBase|] == ListingsBase
    ensures f == EmptyFilters ==> url == ListingsBase
    ensures f != EmptyFilters ==> SplitAmp(url[|ListingsBase|..]) == EncodePairs(Params(f))
  {
    var url := ListingsBase + Query(Params(f));
    assert url[|ListingsBase|..] == Query(Params(f));
    url
  }

  // ---------------------------------------------------------------------
  // Status panels
  // ---------------------------------------------------------------------

  const FetchError := "Failed to fetch villas"

  /** What a listings request came back with. */
  datatype FetchOutcome = Loaded(data: seq<Option<Villa>>) | LoadFailed

  /** Which of the page's status blocks render. */
  datatype Panels = Panels(
    initialSpinner: bool,
    searchingToast: bool,
    errorBanner: bool,
    summary: bool,
    resultsCount: bool,
    noResults: bool,
    grid: bool)

  /**
   * The panels for a fetch state: the first-load spinner alone while the
   * first request is out; a search toast over the old results while a later
   * one is; an error hides the grid, the count and "No villas found", while
   * the summary line stays whenever nothing is loading; once settled
   * without an error, exactly one of the grid and "No villas found" shows.
   */
  function Visibility(initialLoad: bool, loading: bool, hasError: bool, count: nat): (p: Panels)
    ensures p.initialSpinner <==> initialLoad
    ensures p.initialSpinner ==> !p.searchingToast && !p.summary && !p.resultsCount && !p.noResults && !p.grid
    ensures p.searchingToast <==> !initialLoad && loading
    ensures p.errorBanner <==> hasError && !loading
    ensures p.summary <==> !initialLoad && !loading
    ensures p.resultsCount <==> !initialLoad && !loading && !hasError
    ensures p.noResults ==> !loading && count == 0
    ensures hasError ==> !p.resultsCount && !p.noResults && !p.grid
    ensures !(p.noResults && p.grid)
    ensures !initialLoad && !loading && !hasError ==> (p.grid <==> !p.noResults) && p.resultsCount
    ensures !initialLoad && !hasError && count > 0 ==> p.grid
    ensures p.grid ==> count > 0
  {
    Panels(
      initialSpinner := initialLoad,
      searchingToast := !initialLoad && loading,
      errorBanner := hasError && !loading,
      summary := !initialLoad && !loading,
      resultsCount := !initialLoad && !loading && !hasError,
      noResults := !initialLoad && !loading && !hasError && count == 0,
      grid := !initialLoad && !hasError && count > 0)
  }

  // ---------------------------------------------------------------------
  // The component
  // ---------------------------------------------------------------------

  class VillaList {
    /** The orchestrator whose sign-in state and pending flag the page reads and sets. */
    const app: App
    var villas: seq<Option<Villa>>
    var loading: bool
    var initialLoad: bool
    var error: Option<string>
    var filters: Filters
    var searchFilters: Filters
    /**
     * Whether `filters` is a different object from `searchFilters`: they
     * start as one object, every edit makes a new one, and a search makes
     * them one object again.
     */
    var filtersEdited: bool
    var selectedVilla: Option<Villa>
    var isDetailsOpen: bool
    var isBookingOpen: bool
    var bookingConfirmed: Option<BookingRecord>

    ghost predicate Valid()
      reads this
    {
      !filtersEdited ==> filters == searchFilters
    }

    constructor (app: App)
      ensures Valid() && this.app == app
      ensures villas == [] && !loading && initialLoad && error == None
      ensures filters == EmptyFilters && searchFilters == EmptyFilters && !filtersEdited
      ensures selectedVilla == None && !isDetailsOpen && !isBookingOpen && bookingConfirmed == None
    {
      this.app := app;
      villas, loading, initialLoad, error := [], false, true, None;
      filters, searchFilters, filtersEdited := EmptyFilters, EmptyFilters, false;
      selectedVilla, isDetailsOpen, isBookingOpen, bookingConfirmed := None, false, false, None;
    }

    /** The panels for the page's current state. */
    function CurrentPanels(): (p: Panels)
      reads this
      ensures p.grid ==> |villas| > 0 && error.None? && !initialLoad
      ensures p.errorBanner <==> error.Some? && !loading
      ensures p.initialSpinner <==> initialLoad
    {
      Visibility(initialLoad, loading, error.Some?, |villas|)
    }

    /** The parameters `fetchVillas` appends for the applied filters. */
    method QueryParams() returns (params: seq<Param>)
      ensures params == Params(searchFilters)
    {
      params := [];
      if searchFilters.location != "" {
        params := params + [("location", searchFilters.location)];
      }
      if searchFilters.minPrice != "" {
        params := params + [("minPrice", searchFilters.minPrice)];
      }
      if searchFilters.maxPrice != "" {
        params := params + [("maxPrice", searchFilters.maxPrice)];
      }
    }

    /** `fetchVillas` up to the request: raises `loading` and names the URL requested. */
    method StartFetch() returns (url: string)
      modifies this`loading
      ensures loading && url == ListingsUrl(searchFilters)
    {
      loading := true;
      var params := QueryParams();
      url := ListingsBase + Query(params);
    }

    /**
     * `fetchVillas` once the request settles: a reply replaces the listings
     * and clears the error; a failure shows the fixed message and keeps the
     * listings already shown. Either way the page is no longer loading and
     * no longer on its first load.
     */
    method FinishFetch(outcome: FetchOutcome)
      requires Valid()
      modifies this
      ensures Valid() && !loading && !initialLoad
      ensures outcome.Loaded? ==> villas == outcome.data && error == None
      ensures outcome.LoadFailed? ==> villas == old(villas) && error == Some(FetchError)
      ensures outcome.LoadFailed? ==> CurrentPanels().errorBanner && !CurrentPanels().grid
      ensures filters == old(filters) && searchFilters == old(searchFilters)
      ensures filtersEdited == old(filtersEdited) && selectedVilla == old(selectedVilla)
      ensures isDetailsOpen == old(isDetailsOpen) && isBookingOpen == old(isBookingOpen)
      ensures bookingConfirmed == old(bookingConfirmed)
    {
      match outcome {
        case Loaded(data) =>
          villas := data;
          error := None;
        case LoadFailed =>
          error := Some(FetchError);
      }
      loading := false;
      initialLoad := false;
    }

    /** `handleFilterChange`: edits one filter; the applied filters stay as they were. */
    method ChangeFilter(field: FilterField, value: string)
      requires Valid()
      modifies this`filters, this`filtersEdited
      ensures Valid()
      ensures filters == WithFilter(old(filters), field, value) && filtersEdited
    {
      filters := WithFilter(filters, field, value);
      filtersEdited := true;
    }

    /**
     * `handleSearch`: applies the edited filters. A new fetch follows exactly
     * when the filters were edited since the last search; otherwise the
     * applied filters are already the same object and nothing re-renders.
     */
    method Search() returns (refetch: bool)
      requires Valid()
      modifies this`searchFilters, this`filtersEdited
      ensures Valid() && searchFilters == filters && !filtersEdited
      ensures refetch == old(filtersEdited)
      ensures !refetch ==> searchFilters == old(searchFilters)
    {
      refetch := filtersEdited;
      searchFilters := filters;
      filtersEdited := false;
    }

    /** `handleKeyPress`: Enter in a filter input searches; any other key does nothing. */
    method KeyPress(key: string) returns (refetch: bool)
      requires Valid()
      modifies this`searchFilters, this`filtersEdited
      ensures Valid()
      ensures key == "Enter" ==> searchFilters == filters && !filtersEdited && refetch == old(filtersEdited)
      ensures key != "Enter" ==>
        !refetch && searchFilters == old(searchFilters) && filtersEdited == old(filtersEdited)
    {
      refetch := false;
      if key == "Enter" {
        refetch := Search();
      }
    }

    /** `handleViewDetails`: selects the listing and opens its details. */
    method ViewDetails(villa: Villa)
      modifies this`selectedVilla, this`isDetailsOpen
      ensures selectedVilla == Some(villa) && isDetailsOpen
    {
      selectedVilla := Some(villa);
      isDetailsOpen := true;
    }

    /** The details dialog's `onClose`. */
    method CloseDetails()
      modifies this`isDetailsOpen
      ensures !isDetailsOpen
    {
      isDetailsOpen := false;
    }

    /**
     * `handleBookNow`: selects the listing; a signed-out visitor is sent to
     * the sign-in dialog with the booking marked pending, a signed-in one
     * gets the booking form at once.
     */
    method BookNow(villa: Villa)
      modifies this`selectedVilla, this`isBookingOpen, app
      ensures selectedVilla == Some(villa)
      ensures !old(app.isLoggedIn) ==>
        app.pendingBooking && app.isSignInOpen && isBookingOpen == old(isBookingOpen)
      ensures old(app.isLoggedIn) ==>
        isBookingOpen && app.pendingBooking == old(app.pendingBooking)
        && app.isSignInOpen == old(app.isSignInOpen)
      ensures app.isLoggedIn == old(app.isLoggedIn) && app.user == old(app.user)
      ensures app.darkMode == old(app.darkMode)
      ensures old(app.AtRest()) ==> app.AtRest()
    {
      selectedVilla := Some(villa);
      if !app.isLoggedIn {
        app.HandleSignInClick(true);
      } else {
        isBookingOpen := true;
      }
    }

    /**
     * The effect that resumes a pending booking: it fires when the user is
     * signed in, a booking is pending and a listing is selected, and then
     * opens the form and clears the flag, so it fires at most once per
     * pending booking. While the orchestrator is at rest it never fires.
     */
    method ResumeBooking() returns (fired: bool)
      modifies this`isBookingOpen, app
      ensures fired <==> old(app.isLoggedIn) && old(app.pendingBooking) && selectedVilla.Some?
      ensures fired ==> isBookingOpen && !app.pendingBooking
      ensures !fired ==> isBookingOpen == old(isBookingOpen) && app.pendingBooking == old(app.pendingBooking)
      ensures app.isLoggedIn == old(app.isLoggedIn) && app.isSignInOpen == old(app.isSignInOpen)
      ensures app.user == old(app.user) && app.darkMode == old(app.darkMode)
      ensures old(app.AtRest()) ==> !fired
    {
      fired := app.isLoggedIn && app.pendingBooking && selectedVilla.Some?;
      if fired {
        isBookingOpen := true;
        app.pendingBooking := false;
      }
    }

    /**
     * The booking form the page renders for its selected listing. The page
     * hands it `onBookingSuccess`, a prop the form does not read, so the
     * form is created without an `onSuccess` callback.
     */
    method MountBookingForm() returns (form: BookingForm)
      requires selectedVilla.Some?
      ensures fresh(form) && form.Valid()
      ensures form.villa == selectedVilla.value && !form.onSuccessGiven
      ensures form.step == 1 && form.formData == InitialForm && form.errors == map[] && !form.loading
    {
      form := new BookingForm(selectedVilla.value, false);
    }

    /** `handleBookingSuccess`: keeps the booking for the confirmation toast and closes the form. */
    method BookingSuccess(booking: BookingRecord)
      modifies this`bookingConfirmed, this`isBookingOpen
      ensures bookingConfirmed == Some(booking) && !isBookingOpen
    {
      bookingConfirmed := Some(booking);
      isBookingOpen := false;
    }

    /** The booking form's `onClose`. */
    method CloseBooking()
      modifies this`isBookingOpen
      ensures !isBookingOpen
    {
      isBookingOpen := false;
    }
  }
}
