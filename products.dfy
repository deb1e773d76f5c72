/**
  The `Product` entity: its three constructors, the null-guarded partial update
  `updateProductInfo` and the status setter `updateProductStatus`.
  (src/main/java/com/cocomo/secondhand_transaction/entity/Product.java)
*/
module Products {
  import opened Common

  /** The sale status of a product. */
  datatype Status = AVAILABLE | RESERVED | SOLD_OUT | REPORTED

  /** The `Category` enum, represented by the name of its constant. */
  type Category = string

  /** A `Double` coordinate, kept as its IEEE-754 bit pattern: it is only ever copied. */
  datatype Coordinate = Coordinate(bits: bv64)

  /** The registration form (`ProductDto`): every field may be `null`. */
  datatype ProductDto = ProductDto(
    pdName: Option<string>,
    pdImg: Option<string>,
    pdPrice: Option<int>,
    pdDetail: Option<string>,
    location: Option<string>,
    latitude: Option<Coordinate>,
    longitude: Option<Coordinate>,
    place: Option<string>,
    time: Option<seq<string>>,
    category: Option<Category>)

  /** The value of every field of a `Product` at one moment. */
  datatype ProductInfo = ProductInfo(
    id: Option<int>,
    pdName: Option<string>,
    user: UserId,
    pdImg: Option<string>,
    pdPrice: Option<int>,
    pdDetail: Option<string>,
    location: Option<string>,
    latitude: Option<Coordinate>,
    longitude: Option<Coordinate>,
    place: Option<string>,
    time: Option<seq<string>>,
    status: Status,
    category: Option<Category>,
    createdDt: Option<Minutes>,
    pdNum: PdNum)

  /** `after` is what a null-guarded overwrite of `before` by `patch` must leave. */
  predicate Patched<T(==)>(before: Option<T>, patch: Option<T>, after: Option<T>) {
    (patch.Some? ==> after == patch) && (patch.None? ==> after == before)
  }

  /** `if (patch != null && !patch.equals(current)) current = patch;` */
  function Overwrite<T(==)>(current: Option<T>, patch: Option<T>): Option<T> {
    if patch.Some? && patch != current then patch else current
  }

  /** `if (patch != null) current = patch;` */
  function Overlay<T>(current: Option<T>, patch: Option<T>): Option<T> {
    if patch.Some? then patch else current
  }

  /**
    The product after `updateProductInfo(dto, location, latitude, longitude)`;
    its identity, owner, status and timestamps never move.
  */
  function UpdatedInfo(p: ProductInfo, dto: ProductDto, location: Option<string>,
                       latitude: Option<Coordinate>, longitude: Option<Coordinate>): (r: ProductInfo)
    ensures r.status == p.status && r.user == p.user && r.pdNum == p.pdNum
    ensures r.createdDt == p.createdDt && r.id == p.id
  {
    p.(pdName := Overwrite(p.pdName, dto.pdName),
       pdImg := Overwrite(p.pdImg, dto.pdImg),
       pdPrice := Overwrite(p.pdPrice, dto.pdPrice),
       pdDetail := Overwrite(p.pdDetail, dto.pdDetail),
       location := Overlay(p.location, location),
       latitude := Overlay(p.latitude, latitude),
       longitude := Overlay(p.longitude, longitude),
       place := Overwrite(p.place, dto.place),
       time := Overlay(p.time, dto.time),
       category := Overwrite(p.category, dto.category))
  }

  /** Every editable field is overwritten by its non-null argument and kept when the argument is null. */
  lemma UpdatedInfoFields(p: ProductInfo, dto: ProductDto, location: Option<string>,
                          latitude: Option<Coordinate>, longitude: Option<Coordinate>)
    ensures var r := UpdatedInfo(p, dto, location, latitude, longitude);
      && Patched(p.pdName, dto.pdName, r.pdName)
      && Patched(p.pdImg, dto.pdImg, r.pdImg)
      && Patched(p.pdPrice, dto.pdPrice, r.pdPrice)
      && Patched(p.pdDetail, dto.pdDetail, r.pdDetail)
      && Patched(p.location, location, r.location)
      && Patched(p.latitude, latitude, r.latitude)
      && Patched(p.longitude, longitude, r.longitude)
      && Patched(p.place, dto.place, r.place)
      && Patched(p.time, dto.time, r.time)
      && Patched(p.category, dto.category, r.category)
  {
  }

  /** Applying the same update twice leaves the product as applying it once. */
  lemma UpdatedInfoIdempotent(p: ProductInfo, dto: ProductDto, location: Option<string>,
                              latitude: Option<Coordinate>, longitude: Option<Coordinate>)
    ensures var once := UpdatedInfo(p, dto, location, latitude, longitude);
            UpdatedInfo(once, dto, location, latitude, longitude) == once
  {
  }

  /** The product entity; the service mutates its `status` in place. */
  class Product {
    var id: Option<int>
    var pdName: Option<string>
    var user: UserId
    var pdImg: Option<string>
    var pdPrice: Option<int>
    var pdDetail: Option<string>
    var location: Option<string>
    var latitude: Option<Coordinate>
    var longitude: Option<Coordinate>
    var place: Option<string>
    var time: Option<seq<string>>
    var status: Status
    var category: Option<Category>
    var createdDt: Option<Minutes>
    var pdNum: PdNum

    function Snapshot(): ProductInfo
      reads this
    {
      ProductInfo(id, pdName, user, pdImg, pdPrice, pdDetail, location, latitude, longitude,
                  place, time, status, category, createdDt, pdNum)
    }

    /**
      Constructor 1: every field from the form, status AVAILABLE, a fresh
      registration number `token`; `id` and `createdDt` are not yet assigned.
    */
    constructor (dto: ProductDto, user: UserId, token: PdNum)
      ensures Snapshot() == ProductInfo(None, dto.pdName, user, dto.pdImg, dto.pdPrice, dto.pdDetail,
                                        dto.location, dto.latitude, dto.longitude, dto.place, dto.time,
                                        AVAILABLE, dto.category, None, token)
    {
      pdName := dto.pdName;
      this.user := user;
      pdImg := dto.pdImg;
      pdPrice := dto.pdPrice;
      pdDetail := dto.pdDetail;
      location := dto.location;
      latitude := dto.latitude;
      longitude := dto.longitude;
      place := dto.place;
      time := dto.time;
      status := AVAILABLE;
      category := dto.category;
      pdNum := token;
      id := None;
      createdDt := None;
    }

    /** Constructor 2: as constructor 1, but the coordinates come from the arguments. */
    constructor WithCoordinates(dto: ProductDto, user: UserId, latitude: Coordinate, longitude: Coordinate, token: PdNum)
      ensures Snapshot() == ProductInfo(None, dto.pdName, user, dto.pdImg, dto.pdPrice, dto.pdDetail,
                                        dto.location, Some(latitude), Some(longitude), dto.place, dto.time,
                                        AVAILABLE, dto.category, None, token)
    {
      pdName := dto.pdName;
      this.user := user;
      pdImg := dto.pdImg;
      pdPrice := dto.pdPrice;
      pdDetail := dto.pdDetail;
      location := dto.location;
      this.latitude := Some(latitude);
      this.longitude := Some(longitude);
      place := dto.place;
      time := dto.time;
      status := AVAILABLE;
      category := dto.category;
      pdNum := token;
      id := None;
      createdDt := None;
    }

    /** Constructor 3: as constructor 1, but the location text comes from the argument. */
    constructor WithLocation(dto: ProductDto, user: UserId, location: Option<string>, token: PdNum)
      ensures Snapshot() == ProductInfo(None, dto.pdName, user, dto.pdImg, dto.pdPrice, dto.pdDetail,
                                        location, dto.latitude, dto.longitude, dto.place, dto.time,
                                        AVAILABLE, dto.category, None, token)
    {
      pdName := dto.pdName;
      this.user := user;
      pdImg := dto.pdImg;
      pdPrice := dto.pdPrice;
      pdDetail := dto.pdDetail;
      this.location := location;
      latitude := dto.latitude;
      longitude := dto.longitude;
      place := dto.place;
      time := dto.time;
      status := AVAILABLE;
      category := dto.category;
      pdNum := token;
      id := None;
      createdDt := None;
    }

    /** The `@PrePersist` hook: stamps the creation time `now` and nothing else. */
    method PrePersist(now: Minutes)
      modifies this
      ensures Snapshot() == old(Snapshot()).(createdDt := Some(now))
    {
      createdDt := Some(now);
    }

    /** `updateProductInfo`: the null-guarded overwrites, in source order. */
    method UpdateProductInfo(dto: ProductDto, location: Option<string>,
                             latitude: Option<Coordinate>, longitude: Option<Coordinate>)
      modifies this
      ensures Snapshot() == UpdatedInfo(old(Snapshot()), dto, location, latitude, longitude)
    {
      UpdateListing(dto);
      UpdateCoordinates(location, latitude, longitude);
      UpdateTerms(dto);
    }

    /** Name, image, price and description: overwritten when non-null and different. */
    method UpdateListing(dto: ProductDto)
      modifies this
      ensures Snapshot() == old(Snapshot()).(
        pdName := Overwrite(old(pdName), dto.pdName), pdImg := Overwrite(old(pdImg), dto.pdImg),
        pdPrice := Overwrite(old(pdPrice), dto.pdPrice), pdDetail := Overwrite(old(pdDetail), dto.pdDetail))
    {
      pdName := Overwrite(pdName, dto.pdName);
      pdImg := Overwrite(pdImg, dto.pdImg);
      pdPrice := Overwrite(pdPrice, dto.pdPrice);
      pdDetail := Overwrite(pdDetail, dto.pdDetail);
    }

    /** Location text and coordinates: overwritten when non-null. */
    method UpdateCoordinates(location: Option<string>, latitude: Option<Coordinate>, longitude: Option<Coordinate>)
      modifies this
      ensures Snapshot() == old(Snapshot()).(
        location := Overlay(old(this.location), location), latitude := Overlay(old(this.latitude), latitude),
        longitude := Overlay(old(this.longitude), longitude))
    {
      this.location := Overlay(this.location, location);
      this.latitude := Overlay(this.latitude, latitude);
      this.longitude := Overlay(this.longitude, longitude);
    }

    /** Place and category (overwritten when non-null and different) and time slots (when non-null). */
    method UpdateTerms(dto: ProductDto)
      modifies this
      ensures Snapshot() == old(Snapshot()).(
        place := Overwrite(old(place), dto.place), time := Overlay(old(time), dto.time),
        category := Overwrite(old(category), dto.category))
    {
      place := Overwrite(place, dto.place);
      time := Overlay(time, dto.time);  // a list: the source checks only for null
      category := Overwrite(category, dto.category);
    }

    /** `updateProductStatus`: sets the status and no other field. */
    method UpdateProductStatus(status: Status)
      modifies this
      ensures Snapshot() == old(Snapshot()).(status := status)
    {
      this.status := status;
    }
  }

  /** The field values of every product in a product store. */
  function Catalogue(products: map<PdNum, Product>): (c: map<PdNum, ProductInfo>)
    reads products.Values
    ensures c.Keys == products.Keys
    ensures forall k :: k in products ==> c[k] == products[k].Snapshot()
  {
    map k | k in products :: products[k].Snapshot()
  }
}
