/**
 * Catalogue helpers: finding or creating the catalog that groups a set of
 * stock records for a partner, and deriving the SKU of a product and the UPC
 * of a coupon from an MD5 digest of a space-joined, lower-cased key.
 *
 * MD5 itself is not modelled: it enters as a parameter that maps a key to a
 * 32-character lower-case hexadecimal digest, which is all `hexdigest()`
 * promises about its result.
 */
module CatalogueUtils {
  import opened Wrappers
  import opened Strings

  type StockRecordId = nat
  type PartnerId = nat

  datatype Partner = Partner(id: PartnerId)

  /** A catalog row together with the stock records linked to it. */
  datatype Catalog = Catalog(id: nat, name: string, partner: PartnerId, stockRecords: set<StockRecordId>)

  /** Errors the helpers let escape. */
  datatype Exception =
    | DoesNotExist    // `StockRecord.objects.get` on an unknown id
    | AttributeError  // a product attribute the seat key needs is missing
    | UnicodeEncodeError  // `md5` of a key with a non-ASCII character

  function Elements(ids: seq<StockRecordId>): (s: set<StockRecordId>)
    ensures forall id :: id in s <==> id in ids
  {
    set id | id in ids
  }

  /** The test `get_or_create_catalog` applies to each existing catalog. */
  predicate Matches(c: Catalog, name: string, partner: PartnerId, records: set<StockRecordId>)
  {
    c.name == name && c.partner == partner && c.stockRecords == records
  }

  /** The position of the first catalog in table order that matches, if any. */
  function FirstMatch(catalogs: seq<Catalog>, name: string, partner: PartnerId, records: set<StockRecordId>)
    : (r: Option<nat>)
    ensures r.Some? ==> r.value < |catalogs| && Matches(catalogs[r.value], name, partner, records)
    ensures r.Some? ==> forall k :: 0 <= k < r.value ==> !Matches(catalogs[k], name, partner, records)
    ensures r.None? ==> forall k :: 0 <= k < |catalogs| ==> !Matches(catalogs[k], name, partner, records)
  {
    if |catalogs| == 0 then None
    else if Matches(catalogs[0], name, partner, records) then Some(0)
    else
      match FirstMatch(catalogs[1..], name, partner, records)
      case None => None
      case Some(k) => Some(k + 1)
  }

  /**
   * The effect of `get_or_create_catalog` on the catalog table, as a value:
   * the catalog returned (or the error raised) and the table afterwards.
   */
  function GetOrCreate(catalogs: seq<Catalog>, nextId: nat, known: set<StockRecordId>,
                       name: string, partner: PartnerId, ids: seq<StockRecordId>)
    : (r: (Result<Catalog, Exception>, seq<Catalog>))
    ensures r.0.Err? <==> !(Elements(ids) <= known)
    ensures r.0.Err? ==> r.0.error == DoesNotExist && r.1 == catalogs
    ensures r.0.Ok? ==> Matches(r.0.value, name, partner, Elements(ids)) && r.0.value in r.1
    ensures r.1 == catalogs || r.1 == catalogs + [Catalog(nextId, name, partner, Elements(ids))]
  {
    if !(Elements(ids) <= known) then (Err(DoesNotExist), catalogs)
    else
      match FirstMatch(catalogs, name, partner, Elements(ids))
      case Some(k) => (Ok(catalogs[k]), catalogs)
      case None =>
        var created := Catalog(nextId, name, partner, Elements(ids));
        (Ok(created), catalogs + [created])
  }

  /** An existing matching catalog is returned and nothing is created. */
  lemma ExistingCatalogReused(catalogs: seq<Catalog>, nextId: nat, known: set<StockRecordId>,
                              name: string, partner: PartnerId, ids: seq<StockRecordId>, c: Catalog)
    requires Elements(ids) <= known
    requires c in catalogs && c.name == name && c.partner == partner && c.stockRecords == Elements(ids)
    ensures GetOrCreate(catalogs, nextId, known, name, partner, ids).1 == catalogs
    ensures GetOrCreate(catalogs, nextId, known, name, partner, ids).0.Ok?
  {
    var k :| 0 <= k < |catalogs| && catalogs[k] == c;
    assert Matches(catalogs[k], name, partner, Elements(ids));
  }

  /** Without a matching catalog, exactly one is added, carrying the requested data. */
  lemma NewCatalogCreated(catalogs: seq<Catalog>, nextId: nat, known: set<StockRecordId>,
                          name: string, partner: PartnerId, ids: seq<StockRecordId>)
    requires Elements(ids) <= known
    requires forall c :: c in catalogs ==> !Matches(c, name, partner, Elements(ids))
    ensures var (r, after) := GetOrCreate(catalogs, nextId, known, name, partner, ids);
            && after == catalogs + [Catalog(nextId, name, partner, Elements(ids))]
            && r == Ok(Catalog(nextId, name, partner, Elements(ids)))
  {
    assert forall k :: 0 <= k < |catalogs| ==> catalogs[k] in catalogs;
  }

  /**
   * A second call with the same arguments returns the same catalog and adds
   * nothing, whether the first call found the catalog or created it.
   */
  lemma GetOrCreateIdempotent(catalogs: seq<Catalog>, nextId: nat, known: set<StockRecordId>,
                              name: string, partner: PartnerId, ids: seq<StockRecordId>)
    ensures var (r1, after1) := GetOrCreate(catalogs, nextId, known, name, partner, ids);
            var (r2, after2) := GetOrCreate(after1, nextId + |after1| - |catalogs|, known, name, partner, ids);
            r2 == r1 && after2 == after1
  {
    var records := Elements(ids);
    if records <= known && FirstMatch(catalogs, name, partner, records).None? {
      var created := Catalog(nextId, name, partner, records);
      var after := catalogs + [created];
      assert forall k :: 0 <= k < |catalogs| ==> after[k] == catalogs[k];
      assert Matches(after[|catalogs|], name, partner, records);
    }
  }

  /** Only the set of the given ids matters: reordering or repeating them changes nothing. */
  lemma GetOrCreateIgnoresOrder(catalogs: seq<Catalog>, nextId: nat, known: set<StockRecordId>,
                                name: string, partner: PartnerId, ids1: seq<StockRecordId>, ids2: seq<StockRecordId>)
    requires forall id :: id in ids1 <==> id in ids2
    ensures GetOrCreate(catalogs, nextId, known, name, partner, ids1)
         == GetOrCreate(catalogs, nextId, known, name, partner, ids2)
  {
    assert Elements(ids1) == Elements(ids2);
  }

  /** The catalog table. Catalogs keep the order in which they were created. */
  class CatalogTable {
    var catalogs: seq<Catalog>
    var nextId: nat
    /** The ids of the stock records that exist. */
    const stockRecords: set<StockRecordId>

    ghost predicate Valid()
      reads this
    {
      forall k :: 0 <= k < |catalogs| ==> catalogs[k].id < nextId
    }

    constructor (stockRecords: set<StockRecordId>)
      ensures Valid()
      ensures catalogs == [] && this.stockRecords == stockRecords
    {
      catalogs := [];
      nextId := 0;
      this.stockRecords := stockRecords;
    }

    /** `get_or_create_catalog(name, partner, stock_record_ids)`. */
    method GetOrCreateCatalog(name: string, partner: Partner, ids: seq<StockRecordId>)
      returns (r: Result<Catalog, Exception>)
      requires Valid()
      modifies this
      ensures Valid()
      ensures (r, catalogs) == GetOrCreate(old(catalogs), old(nextId), stockRecords, name, partner.id, ids)
      ensures nextId == old(nextId) + |catalogs| - |old(catalogs)|
      ensures r.Ok? && |catalogs| > |old(catalogs)| ==> r.value.id !in set c | c in old(catalogs) :: c.id
    {
      var i := 0;
      while i < |ids|
        invariant 0 <= i <= |ids|
        invariant forall k :: 0 <= k < i ==> ids[k] in stockRecords
      {
        if ids[i] !in stockRecords {
          return Err(DoesNotExist);
        }
        i := i + 1;
      }
      var records := Elements(ids);

      var j := 0;
      while j < |catalogs|
        invariant 0 <= j <= |catalogs|
        invariant forall k :: 0 <= k < j ==> !Matches(catalogs[k], name, partner.id, records)
      {
        var catalog := catalogs[j];
        if catalog.name == name && catalog.partner == partner.id {
          if catalog.stockRecords == records {
            return Ok(catalog);
          }
        }
        j := j + 1;
      }

      var created := Catalog(nextId, name, partner.id, {});
      catalogs := catalogs + [created];
      nextId := nextId + 1;
      var n := 0;
      assert Elements(ids[..0]) == {};
      while n < |ids|
        invariant 0 <= n <= |ids|
        invariant nextId == old(nextId) + 1
        invariant catalogs == old(catalogs) + [Catalog(old(nextId), name, partner.id, Elements(ids[..n]))]
      {
        var last := catalogs[|catalogs| - 1];
        catalogs := catalogs[|catalogs| - 1 := last.(stockRecords := last.stockRecords + {ids[n]})];
        assert Elements(ids[..n + 1]) == Elements(ids[..n]) + {ids[n]} by {
          assert ids[..n + 1] == ids[..n] + [ids[n]];
        }
        n := n + 1;
      }
      assert ids[..n] == ids;
      r := Ok(catalogs[|catalogs| - 1]);
    }
  }

  // ---------------------------------------------------------------------------
  // SKU and UPC
  // ---------------------------------------------------------------------------

  /** What `hexdigest()` returns: 32 lower-case hexadecimal digits. */
  type HexDigest = s: string | |s| == 32 && forall i :: 0 <= i < |s| ==> IsLowerHex(s[i])
    witness "00000000000000000000000000000000"

  datatype ProductClass = ProductClass(name: string)

  /** The product attributes a seat's key reads; a missing one is None. */
  datatype ProductAttributes = ProductAttributes(
    certificateType: Option<string>,
    courseKey: Option<string>,
    idVerificationRequired: Option<bool>,
    creditProvider: Option<string>)

  datatype CatalogueProduct = CatalogueProduct(id: nat, productClass: Option<ProductClass>, attr: ProductAttributes)

  /** Python's `unicode(flag)` of a boolean. */
  function BoolText(b: bool): string
  {
    if b then "True" else "False"
  }

  predicate IsCoupon(product: CatalogueProduct)
  {
    product.productClass.Some? && product.productClass.value.name == "Coupon"
  }

  /** The text of the optional `catalog` keyword argument, '' when it is not given. */
  function CatalogText(catalog: Option<string>): (r: string)
    ensures catalog.None? ==> r == ""
    ensures catalog.Some? ==> r == catalog.value
  {
    if catalog.Some? then catalog.value else ""
  }

  /**
   * The key `generate_sku` hashes, before lower-casing. `catalog` is the text of
   * the optional `catalog` keyword argument, '' when it is not given.
   */
  function SkuKey(product: CatalogueProduct, partner: Partner, catalog: Option<string>): (r: Result<string, Exception>)
    ensures IsCoupon(product) ==> r.Ok?
    ensures !IsCoupon(product) ==>
              (r.Err? <==> product.attr.courseKey.None? || product.attr.idVerificationRequired.None?)
  {
    if IsCoupon(product) then
      Ok(Join(" ", [NatToString(product.id), CatalogText(catalog), NatToString(partner.id)]))
    else if product.attr.courseKey.None? || product.attr.idVerificationRequired.None? then
      Err(AttributeError)
    else
      var a := product.attr;
      Ok(Join(" ", [if a.certificateType.Some? then a.certificateType.value else "",
                    a.courseKey.value,
                    BoolText(a.idVerificationRequired.value),
                    if a.creditProvider.Some? then a.creditProvider.value else "",
                    NatToString(partner.id)]))
  }

  /**
   * The last `n` digits of the digest of the lower-cased key, upper-cased.
   * Python 2's `md5` takes bytes: the lower-cased unicode key is first encoded
   * with the ASCII codec, which raises for any other character.
   */
  function DigestCode(key: string, n: nat, md5: string -> HexDigest): (r: Result<string, Exception>)
    requires n <= 32
    ensures r.Err? <==> !IsAscii(key)
    ensures r.Err? ==> r.error == UnicodeEncodeError
    ensures r.Ok? ==> |r.value| == n && forall i :: 0 <= i < n ==> IsUpperHex(r.value[i])
    ensures r.Ok? ==> Lower(r.value) == md5(Lower(key))[32 - n..]
  {
    var lowered := Lower(key);
    LowerKeepsAscii(key);
    if !IsAscii(lowered) then Err(UnicodeEncodeError)
    else
      var digest := md5(lowered);
      UpperOfLowerHex(digest[32 - n..]);
      LowerOfUpperHex(digest[32 - n..]);
      Ok(Upper(digest[32 - n..]))
  }

  /** Keys that differ only in the case of their letters give the same code. */
  lemma DigestCodeIgnoresCase(k1: string, k2: string, n: nat, md5: string -> HexDigest)
    requires n <= 32
    requires Lower(k1) == Lower(k2)
    ensures DigestCode(k1, n, md5) == DigestCode(k2, n, md5)
  {
  }

  /** A key `a b c` joined with spaces is ASCII exactly when its three parts are. */
  lemma AsciiJoin3(a: string, b: string, c: string)
    ensures IsAscii(Join(" ", [a, b, c])) <==> IsAscii(a) && IsAscii(b) && IsAscii(c)
  {
    assert [a, b, c][1..] == [b, c] && [b, c][1..] == [c];
    assert Join(" ", [c]) == c;
    assert Join(" ", [b, c]) == b + " " + c;
    assert Join(" ", [a, b, c]) == a + " " + (b + " " + c);
    AsciiConcat(a + " ", b + " " + c);
    AsciiConcat(a, " ");
    AsciiConcat(b + " ", c);
    AsciiConcat(b, " ");
  }

  /** `generate_sku(product, partner, catalog=...)`. */
  function GenerateSku(product: CatalogueProduct, partner: Partner, catalog: Option<string>,
                       md5: string -> HexDigest): (r: Result<string, Exception>)
    ensures r.Ok? ==> |r.value| == 7 && forall i :: 0 <= i < 7 ==> IsUpperHex(r.value[i])
    ensures SkuKey(product, partner, catalog).Err? ==> r == Err(SkuKey(product, partner, catalog).error)
    ensures SkuKey(product, partner, catalog).Ok? ==>
              (r.Err? <==> !IsAscii(SkuKey(product, partner, catalog).value))
    ensures r.Err? && r.error == UnicodeEncodeError ==> SkuKey(product, partner, catalog).Ok?
    ensures r.Ok? ==> Lower(r.value) == md5(Lower(SkuKey(product, partner, catalog).value))[25..]
  {
    match SkuKey(product, partner, catalog)
    case Err(e) => Err(e)
    case Ok(key) => DigestCode(key, 7, md5)
  }

  /** A coupon's SKU fails exactly when the catalog text holds a non-ASCII character. */
  lemma CouponSkuFailsOnNonAsciiCatalog(p: CatalogueProduct, partner: Partner, catalog: Option<string>,
                                        md5: string -> HexDigest)
    requires IsCoupon(p)
    ensures GenerateSku(p, partner, catalog, md5).Err? <==> !IsAscii(CatalogText(catalog))
    ensures GenerateSku(p, partner, catalog, md5).Err? ==>
              GenerateSku(p, partner, catalog, md5).error == UnicodeEncodeError
  {
    AsciiJoin3(NatToString(p.id), CatalogText(catalog), NatToString(partner.id));
  }

  /** `generate_upc(partner, title, catalog)`, with the catalog given by its name. */
  function GenerateUpc(partner: Partner, title: string, catalogName: string, md5: string -> HexDigest)
    : (r: Result<string, Exception>)
    ensures r.Err? <==> !IsAscii(title) || !IsAscii(catalogName)
    ensures r.Err? ==> r.error == UnicodeEncodeError
    ensures r.Ok? ==> |r.value| == 10 && forall i :: 0 <= i < 10 ==> IsUpperHex(r.value[i])
    ensures r.Ok? ==> Lower(r.value) == md5(Lower(Join(" ", [title, catalogName, NatToString(partner.id)])))[22..]
  {
    AsciiJoin3(title, catalogName, NatToString(partner.id));
    DigestCode(Join(" ", [title, catalogName, NatToString(partner.id)]), 10, md5)
  }

  /** A coupon titled "Café" gets no UPC: the accented letter cannot be encoded. */
  lemma AccentedTitleRaises(partner: Partner, catalogName: string, md5: string -> HexDigest)
    ensures GenerateUpc(partner, "Caf\U{00E9}", catalogName, md5) == Err(UnicodeEncodeError)
  {
    assert "Caf\U{00E9}"[3] as int == 0xE9;
  }

  /** A coupon's SKU reads only its id, the catalog text and the partner: its other attributes do not matter. */
  lemma CouponSkuIgnoresAttributes(p: CatalogueProduct, q: CatalogueProduct, partner: Partner,
                                   catalog: Option<string>, md5: string -> HexDigest)
    requires IsCoupon(p) && IsCoupon(q) && p.id == q.id
    ensures GenerateSku(p, partner, catalog, md5) == GenerateSku(q, partner, catalog, md5)
  {
  }

  /**
   * A seat's SKU reads only its certificate type, course key, verification
   * flag, credit provider and the partner: not its id, not the catalog.
   */
  lemma SeatSkuIgnoresIdAndCatalog(p: CatalogueProduct, q: CatalogueProduct, partner: Partner,
                                   c1: Option<string>, c2: Option<string>, md5: string -> HexDigest)
    requires !IsCoupon(p) && !IsCoupon(q) && p.attr == q.attr
    ensures GenerateSku(p, partner, c1, md5) == GenerateSku(q, partner, c2, md5)
  {
  }

  /** Seat attributes that differ only in letter case give the same SKU. */
  lemma SeatSkuIgnoresCase(p: CatalogueProduct, q: CatalogueProduct, partner: Partner,
                           catalog: Option<string>, md5: string -> HexDigest)
    requires !IsCoupon(p) && !IsCoupon(q)
    requires p.attr.courseKey.Some? && q.attr.courseKey.Some?
    requires Lower(p.attr.courseKey.value) == Lower(q.attr.courseKey.value)
    requires p.attr.idVerificationRequired == q.attr.idVerificationRequired
    requires p.attr.certificateType.Some? == q.attr.certificateType.Some?
    requires p.attr.certificateType.Some? ==>
               Lower(p.attr.certificateType.value) == Lower(q.attr.certificateType.value)
    requires p.attr.creditProvider.Some? == q.attr.creditProvider.Some?
    requires p.attr.creditProvider.Some? ==>
               Lower(p.attr.creditProvider.value) == Lower(q.attr.creditProvider.value)
    ensures GenerateSku(p, partner, catalog, md5) == GenerateSku(q, partner, catalog, md5)
  {
    if p.attr.idVerificationRequired.None? {
      return;
    }
    assert Lower(" ") == " ";
    var pp := [if p.attr.certificateType.Some? then p.attr.certificateType.value else "",
               p.attr.courseKey.value, BoolText(p.attr.idVerificationRequired.value),
               if p.attr.creditProvider.Some? then p.attr.creditProvider.value else "",
               NatToString(partner.id)];
    var qq := [if q.attr.certificateType.Some? then q.attr.certificateType.value else "",
               q.attr.courseKey.value, BoolText(q.attr.idVerificationRequired.value),
               if q.attr.creditProvider.Some? then q.attr.creditProvider.value else "",
               NatToString(partner.id)];
    LowerJoin(" ", pp);
    LowerJoin(" ", qq);
    assert LowerAll(pp) == LowerAll(qq);
  }

  /** Catalog texts that differ only in letter case give a coupon the same SKU. */
  lemma CouponSkuIgnoresCase(p: CatalogueProduct, partner: Partner, c1: Option<string>, c2: Option<string>,
                             md5: string -> HexDigest)
    requires IsCoupon(p)
    requires Lower(CatalogText(c1)) == Lower(CatalogText(c2))
    ensures GenerateSku(p, partner, c1, md5) == GenerateSku(p, partner, c2, md5)
  {
    assert Lower(" ") == " ";
    var pp := [NatToString(p.id), CatalogText(c1), NatToString(partner.id)];
    var qq := [NatToString(p.id), CatalogText(c2), NatToString(partner.id)];
    LowerJoin(" ", pp);
    LowerJoin(" ", qq);
    assert LowerAll(pp) == LowerAll(qq);
  }

  /** Titles and catalog names that differ only in letter case give the same UPC. */
  lemma UpcIgnoresCase(partner: Partner, t1: string, t2: string, n1: string, n2: string, md5: string -> HexDigest)
    requires Lower(t1) == Lower(t2) && Lower(n1) == Lower(n2)
    ensures GenerateUpc(partner, t1, n1, md5) == GenerateUpc(partner, t2, n2, md5)
  {
    assert Lower(" ") == " ";
    LowerJoin(" ", [t1, n1, NatToString(partner.id)]);
    LowerJoin(" ", [t2, n2, NatToString(partner.id)]);
    assert LowerAll([t1, n1, NatToString(partner.id)]) == LowerAll([t2, n2, NatToString(partner.id)]);
  }
}
