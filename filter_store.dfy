/**
 * The visitor's pick filter (src/stores/filterStore.ts): one mutable record
 * holding the region and category choice, the visitor's coordinates and the
 * search radius in metres. Each setter overwrites its own fields only.
 */
module FilterStore {
  import opened Common

  /** The store's fields as one value. */
  datatype Filters = Filters(region: Region, category: Category, lat: Option<real>, lng: Option<real>, radius: real)

  const DefaultRadius: real := 2000.0

  /** The state a fresh store holds. */
  const Initial: Filters := Filters(AllRegions, AllCategories, None, None, DefaultRadius)

  /** The effect of `resetNearby` on a state. */
  function NearbyReset(f: Filters): (r: Filters)
    ensures r.lat.None? && r.lng.None? && r.radius == DefaultRadius
    ensures r.region == f.region && r.category == f.category
  {
    f.(lat := None, lng := None, radius := DefaultRadius)
  }

  /** Resetting twice is resetting once. */
  lemma ResetNearbyIdempotent(f: Filters)
    ensures NearbyReset(NearbyReset(f)) == NearbyReset(f)
  {
  }

  /** The initial state already has no location and the default radius. */
  lemma InitialIsReset()
    ensures NearbyReset(Initial) == Initial
  {
  }

  class FilterState {
    var region: Region
    var category: Category
    var lat: Option<real>
    var lng: Option<real>
    var radius: real

    function Snapshot(): Filters
      reads this
    {
      Filters(region, category, lat, lng, radius)
    }

    constructor ()
      ensures Snapshot() == Initial
    {
      region := AllRegions;
      category := AllCategories;
      lat := None;
      lng := None;
      radius := DefaultRadius;
    }

    method SetRegion(v: Region)
      modifies this
      ensures Snapshot() == old(Snapshot()).(region := v)
    {
      region := v;
    }

    method SetCategory(v: Category)
      modifies this
      ensures Snapshot() == old(Snapshot()).(category := v)
    {
      category := v;
    }

    method SetLocation(newLat: Option<real>, newLng: Option<real>)
      modifies this
      ensures Snapshot() == old(Snapshot()).(lat := newLat, lng := newLng)
    {
      lat, lng := newLat, newLng;
    }

    method SetRadius(r: real)
      modifies this
      ensures Snapshot() == old(Snapshot()).(radius := r)
    {
      radius := r;
    }

    method ResetNearby()
      modifies this
      ensures Snapshot() == NearbyReset(old(Snapshot()))
    {
      lat, lng, radius := None, None, DefaultRadius;
    }
  }
}
