/**
 * The two pure string computations of the browser script `script.js`: the
 * choice of alert type, icon and title in `showAlert`, and the assembly of a
 * readable address from a reverse-geocoding answer in `reverseGeocode`.
 * The DOM, the network and number formatting are left to the caller.
 */
module Client {
  import opened Wrappers

  /** `sub` occurs in `s` starting at position `i`. */
  predicate OccursAt(s: string, sub: string, i: int)
  {
    0 <= i <= |s| - |sub| && s[i..i + |sub|] == sub
  }

  /** JavaScript's `s.includes(sub)`. */
  predicate Contains(s: string, sub: string)
  {
    exists i | 0 <= i <= |s| - |sub| :: OccursAt(s, sub, i)
  }

  /** The message mentions success or thanks. */
  predicate SaysSuccess(message: string)
  {
    Contains(message, "thành công") || Contains(message, "Cảm ơn")
  }

  /** The message mentions an error or an impossibility. */
  predicate SaysError(message: string)
  {
    Contains(message, "lỗi") || Contains(message, "Lỗi") || Contains(message, "không thể")
  }

  /**
   * The alert type `showAlert` settles on; `None` is an omitted argument,
   * which defaults to 'info'. Only 'info' is refined from the message text.
   */
  function AlertType(message: string, kind: Option<string>): (r: string)
    ensures kind.Some? && kind.value != "info" ==> r == kind.value
    ensures (kind.None? || kind == Some("info")) ==>
              && (SaysSuccess(message) ==> r == "success")
              && (!SaysSuccess(message) && SaysError(message) ==> r == "error")
              && (!SaysSuccess(message) && !SaysError(message) ==> r == "info")
  {
    var given := if kind.Some? then kind.value else "info";
    if given == "info" then
      if SaysSuccess(message) then "success"
      else if SaysError(message) then "error"
      else "info"
    else given
  }

  /** The icon and title shown at the top of the alert. */
  datatype AlertHeader = AlertHeader(icon: string, title: string)

  function Header(kind: string): AlertHeader
  {
    if kind == "success" then AlertHeader("✓", "Thành công")
    else if kind == "error" then AlertHeader("✕", "Lỗi")
    else AlertHeader("ℹ", "Thông báo")
  }

  /** The header `showAlert` shows for a message and an optional explicit type. */
  function ShowAlert(message: string, kind: Option<string>): (h: AlertHeader)
    ensures h.icon == "✓" <==> AlertType(message, kind) == "success"
    ensures h.icon == "✕" <==> AlertType(message, kind) == "error"
    ensures h.icon == "ℹ" <==> AlertType(message, kind) != "success" && AlertType(message, kind) != "error"
    ensures h.title == "Thành công" <==> h.icon == "✓"
    ensures h.title == "Lỗi" <==> h.icon == "✕"
    ensures h.title == "Thông báo" <==> h.icon == "ℹ"
  {
    Header(AlertType(message, kind))
  }

  /** Settling the type is idempotent: feeding the settled type back in changes nothing. */
  lemma AlertTypeIdempotent(message: string, kind: Option<string>)
    ensures AlertType(message, Some(AlertType(message, kind))) == AlertType(message, kind)
  {
  }

  /** Every type other than 'success' and 'error' looks the same. */
  lemma HeaderDistinguishesThreeKinds(k1: string, k2: string)
    ensures Header(k1) == Header(k2) <==>
              (k1 == "success") == (k2 == "success") && (k1 == "error") == (k2 == "error")
  {
  }

  /** A success or thanks phrase wins over any error word, whether the type is omitted or 'info'. */
  lemma ThanksBeatsErrorWords(message: string)
    requires SaysSuccess(message) && SaysError(message)
    ensures ShowAlert(message, None) == AlertHeader("✓", "Thành công")
    ensures ShowAlert(message, Some("info")) == AlertHeader("✓", "Thành công")
  {
  }

  /** The `address` object of a Nominatim reverse-geocoding answer; `None` is an absent property. */
  datatype Address = Address(
    houseNumber: Option<string>,
    road: Option<string>,
    suburb: Option<string>,
    neighbourhood: Option<string>,
    city: Option<string>,
    town: Option<string>,
    village: Option<string>,
    state: Option<string>)

  /** The decoded answer: its `address` object and `display_name`. */
  datatype Geocoded = Geocoded(address: Option<Address>, displayName: Option<string>)

  /** JavaScript truthiness of a possibly absent string property. */
  predicate Truthy(o: Option<string>)
  {
    o.Some? && o.value != ""
  }

  /** JavaScript's `a || b`, as far as its truthiness and value matter here. */
  function Or(a: Option<string>, b: Option<string>): Option<string>
  {
    if Truthy(a) then a else b
  }

  /** A component as a list of zero or one part: the part when it is present. */
  function PresentOne(o: Option<string>): (r: seq<string>)
    ensures |r| <= 1
    ensures |r| == 1 <==> Truthy(o)
    ensures |r| == 1 ==> r[0] == o.value && r[0] != ""
  {
    if Truthy(o) then [o.value] else []
  }

  /** The `addressParts` array built by the five conditional pushes. */
  function AddressParts(a: Address): (parts: seq<string>)
    ensures |parts| <= 5
    ensures forall i :: 0 <= i < |parts| ==> parts[i] != ""
    ensures parts == PresentOne(a.houseNumber) + PresentOne(a.road) + PresentOne(Or(a.suburb, a.neighbourhood))
                   + PresentOne(Or(a.city, Or(a.town, a.village))) + PresentOne(a.state)
  {
    var district := Or(a.suburb, a.neighbourhood);
    var place := Or(a.city, Or(a.town, a.village));
    var p0: seq<string> := [];
    var p1 := if Truthy(a.houseNumber) then p0 + [a.houseNumber.value] else p0;
    assert p1 == PresentOne(a.houseNumber);
    var p2 := if Truthy(a.road) then p1 + [a.road.value] else p1;
    assert p2 == p1 + PresentOne(a.road);
    var p3 := if Truthy(district) then p2 + [district.value] else p2;
    assert p3 == p2 + PresentOne(district);
    var p4 := if Truthy(place) then p3 + [place.value] else p3;
    assert p4 == p3 + PresentOne(place);
    if Truthy(a.state) then p4 + [a.state.value] else p4
  }

  /** `parts.join(', ')` */
  function Join(parts: seq<string>): string
  {
    if |parts| == 0 then ""
    else if |parts| == 1 then parts[0]
    else parts[0] + ", " + Join(parts[1..])
  }

  /** Splitting at every ", ", the inverse of `Join` for components without commas. */
  function Split(s: string): (r: seq<string>)
    ensures |r| > 0
  {
    if |s| == 0 then [""]
    else if |s| >= 2 && s[0] == ',' && s[1] == ' ' then [""] + Split(s[2..])
    else
      var t := Split(s[1..]);
      [[s[0]] + t[0]] + t[1..]
  }

  /**
   * `reverseGeocode(lat, lng)` after the fetch: `response` is `None` when the
   * request failed, the status was not ok or the body was not an object, and
   * `coords` is the `lat.toFixed(6), lng.toFixed(6)` fallback text.
   */
  function ReverseGeocode(response: Option<Geocoded>, coords: string): (r: string)
    ensures response.None? ==> r == coords
    ensures response.Some? && response.value.address.Some? && |AddressParts(response.value.address.value)| > 0 ==>
              r == Join(AddressParts(response.value.address.value))
    ensures response.Some? && (response.value.address.None? || |AddressParts(response.value.address.value)| == 0) ==>
              r == (if Truthy(response.value.displayName) then response.value.displayName.value else coords)
  {
    match response
    case None => coords
    case Some(data) =>
      var fallback := if Truthy(data.displayName) then data.displayName.value else coords;
      match data.address
      case Some(addr) =>
        var parts := AddressParts(addr);
        if |parts| > 0 then Join(parts) else fallback
      case None => fallback
  }

  predicate NoComma(s: string)
  {
    forall i :: 0 <= i < |s| ==> s[i] != ','
  }

  /** Splitting text that starts with a comma-free component keeps that component whole. */
  lemma {:induction false} SplitPrefix(p: string, rest: string)
    requires NoComma(p)
    ensures Split(p + rest) == [p + Split(rest)[0]] + Split(rest)[1..]
    decreases |p|
  {
    if |p| > 0 {
      assert (p + rest)[1..] == p[1..] + rest;
      assert (p + rest)[0] == p[0];
      SplitPrefix(p[1..], rest);
      assert [p[0]] + (p[1..] + Split(rest)[0]) == p + Split(rest)[0];
    } else {
      assert p + rest == rest;
      assert p + Split(rest)[0] == Split(rest)[0];
      assert [Split(rest)[0]] + Split(rest)[1..] == Split(rest);
    }
  }

  /** Splitting a join of comma-free components gives the components back. */
  lemma {:induction false} SplitJoin(parts: seq<string>)
    requires |parts| > 0
    requires forall i :: 0 <= i < |parts| ==> NoComma(parts[i])
    ensures Split(Join(parts)) == parts
    decreases |parts|
  {
    if |parts| == 1 {
      SplitPrefix(parts[0], "");
      assert parts[0] + "" == parts[0];
    } else {
      var tail := Join(parts[1..]);
      assert Join(parts) == parts[0] + (", " + tail);
      SplitPrefix(parts[0], ", " + tail);
      assert (", " + tail)[2..] == tail;
      SplitJoin(parts[1..]);
      assert parts[0] + "" == parts[0];
    }
  }

  /**
   * When the answer has address components and none of them contains a
   * comma, the address text splits back into exactly those components,
   * in the fixed order house number, road, district, city, state.
   */
  lemma AddressRoundTrip(addr: Address, displayName: Option<string>, coords: string)
    requires |AddressParts(addr)| > 0
    requires forall i :: 0 <= i < |AddressParts(addr)| ==> NoComma(AddressParts(addr)[i])
    ensures Split(ReverseGeocode(Some(Geocoded(Some(addr), displayName)), coords)) == AddressParts(addr)
  {
    SplitJoin(AddressParts(addr));
  }

  /** `suburb` is preferred to `neighbourhood`, `city` to `town` to `village`. */
  lemma AddressPreferences(a: Address, other: Option<string>)
    ensures Truthy(a.suburb) ==> AddressParts(a.(neighbourhood := other)) == AddressParts(a)
    ensures Truthy(a.city) ==> AddressParts(a.(town := other)) == AddressParts(a)
    ensures Truthy(a.city) ==> AddressParts(a.(village := other)) == AddressParts(a)
    ensures Truthy(a.town) ==> AddressParts(a.(village := other)) == AddressParts(a)
  {
  }

  /** The house number leads and the state closes the address when they are present. */
  lemma AddressOrder(a: Address)
    ensures Truthy(a.houseNumber) ==> AddressParts(a)[0] == a.houseNumber.value
    ensures Truthy(a.state) ==> AddressParts(a)[|AddressParts(a)| - 1] == a.state.value
    ensures !Truthy(a.houseNumber) && !Truthy(a.road) && !Truthy(a.suburb) && !Truthy(a.neighbourhood) &&
            !Truthy(a.city) && !Truthy(a.town) && !Truthy(a.village) && !Truthy(a.state) ==>
              AddressParts(a) == []
  {
  }
}
