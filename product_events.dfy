/**
 * The product-event factory: the `Product` and `ProductEvent` records, the version rule
 * `increment_version` and the record transform `create_event`.
 *
 * Every `unwrap` and every implicit check the Rust code leaves to a panic (the byte slice
 * `v[1..]`, the `u32` parse, the addition `num + 1`) is an `Err(Panic)` result here. The
 * UUID that `create_event` draws when the product has no id is the parameter `freshId`.
 */
module ProductEvents {
  import opened Wrappers
  import opened Decimal

  /** The caller's snapshot of a product. `productType` is the Rust field `r#type`. */
  datatype Product = Product(id: Option<string>, name: string, productType: string, version: Option<string>)

  /** The event built from a snapshot and published to the broker. */
  datatype ProductEvent = ProductEvent(id: string, name: string, productType: string, version: string, event: string)

  /** The ways `increment_version` panics. */
  datatype Panic =
    | SliceOutOfBounds                 // `v[1..]` on the empty string
    | NotCharBoundary                  // byte 1 lies inside a multi-byte first character
    | ParseFailed(kind: IntErrorKind)  // `parse::<u32>().unwrap()` on an error
    | AddOverflow                      // `num + 1` with `num == u32::MAX`

  /** The character is one byte in UTF-8, so byte index 1 is a character boundary after it. */
  predicate IsSingleByte(c: char) {
    c as int < 0x80
  }

  /**
   * The versions `increment_version` handles without panicking: none at all, or a one-byte
   * first character (any, not only 'v') followed by a `u32` literal below `u32::MAX`.
   */
  predicate IsIncrementable(version: Option<string>) {
    match version
    case None => true
    case Some(v) =>
      |v| > 0 && IsSingleByte(v[0]) && IsU32Literal(v[1..]) && Value(UnsignedDigits(v[1..])) < U32_MAX
  }

  /** The number an incrementable version carries; an absent version counts as 0. */
  function PriorNumber(version: Option<string>): nat
    requires IsIncrementable(version)
  {
    match version
    case None => 0
    case Some(v) => Value(UnsignedDigits(v[1..]))
  }

  /** A version as the factory writes it: 'v', then a positive `u32` in canonical decimal. */
  predicate IsVersion(s: string) {
    |s| >= 2 && s[0] == 'v' && IsCanonical(s[1..]) && s[1] != '0' && Value(s[1..]) <= U32_MAX
  }

  function VersionNumber(s: string): nat
    requires IsVersion(s)
  {
    Value(s[1..])
  }

  /**
   * `increment_version`: no version gives "v1"; otherwise the first character is dropped,
   * the rest is parsed as a `u32`, incremented and written after a 'v'.
   */
  function IncrementVersion(version: Option<string>): (r: Result<string, Panic>)
    ensures r.Ok? <==> IsIncrementable(version)
    ensures r.Ok? ==> IsVersion(r.value) && VersionNumber(r.value) == PriorNumber(version) + 1
    ensures r == Err(SliceOutOfBounds) <==> version == Some("")
    ensures r == Err(NotCharBoundary) <==>
              version.Some? && |version.value| > 0 && !IsSingleByte(version.value[0])
    ensures (r.Err? && r.error.ParseFailed?) <==>
              version.Some? && |version.value| > 0 && IsSingleByte(version.value[0]) &&
              !IsU32Literal(version.value[1..])
    ensures r == Err(AddOverflow) <==>
              version.Some? && |version.value| > 0 && IsSingleByte(version.value[0]) &&
              IsU32Literal(version.value[1..]) && Value(UnsignedDigits(version.value[1..])) == U32_MAX
  {
    match version
    case None =>
      assert "v1"[1..] == "1";
      ValueOfDigit('1');
      Ok("v1")
    case Some(v) =>
      if |v| == 0 then
        Err(SliceOutOfBounds)
      else if !IsSingleByte(v[0]) then
        Err(NotCharBoundary)
      else
        match ParseU32(v[1..])
        case Err(e) => Err(ParseFailed(e))
        case Ok(num) =>
          if num + 1 > U32_MAX then
            Err(AddOverflow)
          else
            var s := "v" + RenderNat(num + 1);
            assert s[1..] == RenderNat(num + 1);
            Ok(s)
  }

  /** A version the factory wrote is "v" followed by the rendering of its number. */
  lemma VersionIsRendered(s: string)
    requires IsVersion(s)
    ensures s == "v" + RenderNat(VersionNumber(s))
  {
    RenderValue(s[1..]);
  }

  /** Render, increment, and the rendering of the successor comes back. */
  lemma IncrementRendered(n: nat)
    requires n < U32_MAX
    ensures IncrementVersion(Some("v" + RenderNat(n))) == Ok("v" + RenderNat(n + 1))
  {
  }

  /** What `increment_version` returns is again a valid input to it until `u32::MAX`. */
  lemma IncrementOfVersion(s: string)
    requires IsVersion(s) && VersionNumber(s) < U32_MAX
    ensures IncrementVersion(Some(s)) == Ok("v" + RenderNat(VersionNumber(s) + 1))
  {
  }

  /** The first character is thrown away unchecked: any one-byte character works like 'v'. */
  lemma FirstCharacterIgnored(c: char, rest: string)
    requires IsSingleByte(c)
    ensures IncrementVersion(Some([c] + rest)) == IncrementVersion(Some("v" + rest))
  {
  }

  /** The version after feeding `increment_version` its own output `k` times. */
  function IncrementTimes(version: string, k: nat): Result<string, Panic>
    decreases k
  {
    if k == 0 then
      Ok(version)
    else
      match IncrementVersion(Some(version))
      case Err(e) => Err(e)
      case Ok(next) => IncrementTimes(next, k - 1)
  }

  /** `k` increments of "vN" give "v(N+k)" as long as N+k fits in a `u32`. */
  lemma {:induction false} IncrementTimesRendered(n: nat, k: nat)
    requires n + k <= U32_MAX
    ensures IncrementTimes("v" + RenderNat(n), k) == Ok("v" + RenderNat(n + k))
    decreases k
  {
    if k > 0 {
      IncrementRendered(n);
      IncrementTimesRendered(n + 1, k - 1);
    }
  }

  /** `create_event`: reuse the id or take the fresh one, copy name and type, set the kind and the next version. */
  function CreateEvent(product: Product, eventType: string, freshId: string): (r: Result<ProductEvent, Panic>)
    ensures r.Ok? <==> IsIncrementable(product.version)
    ensures r.Ok? ==> IsVersion(r.value.version) && VersionNumber(r.value.version) == PriorNumber(product.version) + 1
    ensures r.Err? ==> IncrementVersion(product.version) == Err(r.error)
  {
    match IncrementVersion(product.version)
    case Err(e) => Err(e)
    case Ok(version) =>
      var id := match product.id case Some(i) => i case None => freshId;
      Ok(ProductEvent(id, product.name, product.productType, version, eventType))
  }

  /** A present id is kept verbatim, and the fresh id is then not used at all. */
  lemma CreateEventKeepsId(product: Product, eventType: string, freshId: string, otherId: string)
    requires product.id.Some?
    ensures CreateEvent(product, eventType, freshId) == CreateEvent(product, eventType, otherId)
    ensures CreateEvent(product, eventType, freshId).Ok? ==>
              CreateEvent(product, eventType, freshId).value.id == product.id.value
  {
  }

  /** Without an id the event carries the fresh one. */
  lemma CreateEventFreshId(product: Product, eventType: string, freshId: string)
    requires product.id.None?
    ensures CreateEvent(product, eventType, freshId).Ok? ==>
              CreateEvent(product, eventType, freshId).value.id == freshId
  {
  }

  /** A present but empty id is copied as it is, so an event's id can be empty. */
  lemma EmptyIdCopied(eventType: string, freshId: string)
    ensures CreateEvent(Product(Some(""), "n", "t", None), eventType, freshId) ==
            Ok(ProductEvent("", "n", "t", "v1", eventType))
  {
    FirstVersions();
  }

  /** The event's id is non-empty whenever the product's id, if present, and the fresh id are. */
  lemma NonEmptyId(product: Product, eventType: string, freshId: string)
    requires product.id.Some? ==> |product.id.value| > 0
    requires |freshId| > 0
    ensures CreateEvent(product, eventType, freshId).Ok? ==> |CreateEvent(product, eventType, freshId).value.id| > 0
  {
  }

  /** Name and type are copied, the kind is the argument, the version is `increment_version`'s. */
  lemma CreateEventCopies(product: Product, eventType: string, freshId: string)
    requires IsIncrementable(product.version)
    ensures var e := CreateEvent(product, eventType, freshId).value;
            e.name == product.name && e.productType == product.productType && e.event == eventType &&
            Ok(e.version) == IncrementVersion(product.version)
  {
  }

  /** The event kind comes from the argument alone, never from the snapshot. */
  lemma EventKindFromArgument(p: Product, q: Product, eventType: string, freshId: string, otherId: string)
    requires IsIncrementable(p.version) && IsIncrementable(q.version)
    ensures CreateEvent(p, eventType, freshId).value.event == CreateEvent(q, eventType, otherId).value.event == eventType
  {
  }

  /** The snapshot a consumer holds after applying an event. */
  function SnapshotOf(e: ProductEvent): Product {
    Product(Some(e.id), e.name, e.productType, Some(e.version))
  }

  /**
   * Building an event from the snapshot of an earlier event keeps its identity, name and
   * type and moves the version on by one.
   */
  lemma NextEvent(e: ProductEvent, eventType: string, freshId: string)
    requires IsVersion(e.version) && VersionNumber(e.version) < U32_MAX
    ensures CreateEvent(SnapshotOf(e), eventType, freshId) ==
            Ok(ProductEvent(e.id, e.name, e.productType, "v" + RenderNat(VersionNumber(e.version) + 1), eventType))
  {
    IncrementOfVersion(e.version);
  }

  /** The first versions: none gives "v1", and "v1" gives "v2". */
  lemma FirstVersions()
    ensures IncrementVersion(None) == Ok("v1")
    ensures IncrementVersion(Some("v1")) == Ok("v2")
  {
    assert RenderNat(1) == "1" && RenderNat(2) == "2";
    IncrementRendered(1);
    assert "v" + RenderNat(1) == "v1" && "v" + RenderNat(2) == "v2";
  }

  /** Any one-byte first character is accepted in place of 'v', even a digit. */
  lemma OtherPrefixes()
    ensures IncrementVersion(Some("x5")) == Ok("v6")
    ensures IncrementVersion(Some("15")) == Ok("v6")
  {
    assert RenderNat(5) == "5" && RenderNat(6) == "6";
    IncrementRendered(5);
    assert "v" + RenderNat(5) == "v5" && "v" + RenderNat(6) == "v6";
    FirstCharacterIgnored('x', "5");
    FirstCharacterIgnored('1', "5");
    assert [('x')] + "5" == "x5" && ['1'] + "5" == "15" && "v" + "5" == "v5";
  }

  /** Single digits step on, and "v9" steps to the two-digit "v10". */
  lemma LaterVersions()
    ensures IncrementVersion(Some("v3")) == Ok("v4")
    ensures IncrementVersion(Some("v9")) == Ok("v10")
  {
    assert RenderNat(3) == "3" && RenderNat(4) == "4" && RenderNat(9) == "9";
    assert RenderNat(10) == RenderNat(1) + ['0'] && RenderNat(1) == "1";
    IncrementRendered(3);
    IncrementRendered(9);
    assert "v" + RenderNat(3) == "v3" && "v" + RenderNat(4) == "v4";
    assert "v" + RenderNat(9) == "v9" && "v" + RenderNat(10) == "v10";
  }

  /** Leading zeros and a '+' after the first character are accepted; the result is canonical. */
  lemma ZerosAndPlus()
    ensures IncrementVersion(Some("v007")) == Ok("v8")
    ensures IncrementVersion(Some("v+7")) == Ok("v8")
  {
    assert RenderNat(8) == "8" && "v" + RenderNat(8) == "v8";
    ValueOfDigit('7');
    assert ParseU32("7") == Ok(7);
    assert "07" == "0" + "7" && "007" == "0" + "07" && "v007"[1..] == "007";
    ParseLeadingZero("7");
    ParseLeadingZero("07");
    assert "v+7"[1..] == "+7" && "+7" == "+" + "7";
    ParseLeadingPlus("7");
  }

  /** Versions the rule panics on. */
  lemma RejectedVersions()
    ensures IncrementVersion(Some("")) == Err(SliceOutOfBounds)
    ensures IncrementVersion(Some("\U{e9}5")) == Err(NotCharBoundary)
    ensures IncrementVersion(Some("v")) == Err(ParseFailed(Empty))
    ensures IncrementVersion(Some("1")) == Err(ParseFailed(Empty))
    ensures IncrementVersion(Some("v+")) == Err(ParseFailed(InvalidDigit))
    ensures IncrementVersion(Some("v-1")) == Err(ParseFailed(InvalidDigit))
    ensures IncrementVersion(Some("version2")) == Err(ParseFailed(InvalidDigit))
  {
  }

  /** At the top of the `u32` range: the last number overflows on `+ 1`, the next one fails to parse. */
  lemma BoundaryVersions()
    ensures IncrementVersion(Some("v" + RenderNat(U32_MAX))) == Err(AddOverflow)
    ensures IncrementVersion(Some("v" + RenderNat(U32_MAX + 1))) == Err(ParseFailed(PosOverflow))
  {
  }

  /** The message fixture: "some-uuid-1234-5678" at "v1", updated, is the same product at "v2". */
  lemma FixtureUpdate(freshId: string)
    ensures CreateEvent(Product(Some("some-uuid-1234-5678"), "Some Product", "Product Range", Some("v1")), "UPDATED", freshId) ==
            Ok(ProductEvent("some-uuid-1234-5678", "Some Product", "Product Range", "v2", "UPDATED"))
  {
    FirstVersions();
  }
}
