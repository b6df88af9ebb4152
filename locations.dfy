/** The static catalog of sites (src/data/locations.ts). */
module Locations {
  import opened Types

  /** The five sites, in the order the source lists them. */
  function Addresses(): (r: seq<Location>)
    ensures |r| == 5
  {
    [ Location("Cơ sở 1", "Số 2, ngách 2, ngõ 40 Tạ Quang Bửu, Hai Bà Trưng, Hà Nội",
               Coord(21.0022, 105.8471)),
      Location("Cơ sở 2", "Số 20, ngõ 183 Trần Đại Nghĩa, Hai Bà Trưng, Hà Nội",
               Coord(21.0018, 105.8445)),
      Location("Cơ sở 3", "Ngõ 85 Xuân Thủy, Cầu Giấy, Hà Nội",
               Coord(21.0373, 105.7827)),
      Location("Cơ sở 4", "42C Lý Thường Kiệt, Hoàn Kiếm, Hà Nội",
               Coord(21.0250, 105.8486)),
      Location("Cơ sở 5", "62 Nguyễn Chí Thanh, Đống Đa, Hà Nội",
               Coord(21.0252, 105.8091)) ]
  }

  /** The names run "Cơ sở 1" to "Cơ sở 5" in catalog order. */
  lemma NamesInOrder()
    ensures Addresses()[0].name == "Cơ sở 1"
    ensures Addresses()[1].name == "Cơ sở 2"
    ensures Addresses()[2].name == "Cơ sở 3"
    ensures Addresses()[3].name == "Cơ sở 4"
    ensures Addresses()[4].name == "Cơ sở 5"
  {
  }

  /** No two sites share a name, so a name identifies its site. */
  lemma NamesDistinct()
    ensures forall i, j :: 0 <= i < j < |Addresses()| ==> Addresses()[i].name != Addresses()[j].name
  {
  }

  /** No two sites share coordinates. So a distance that is zero exactly
      between equal points is zero from the third site's point to the third
      site alone, which is what `App.SearchOnEntryThree` requires of it. */
  lemma CoordinatesDistinct()
    ensures forall i, j :: 0 <= i < j < |Addresses()| ==>
      Addresses()[i].coordinates != Addresses()[j].coordinates
  {
  }

  /** Every site lies on the globe's coordinate ranges. */
  lemma CoordinatesInRange()
    ensures forall i :: 0 <= i < |Addresses()| ==> ValidCoord(Addresses()[i].coordinates)
  {
  }

  /** The third site, the one `App.SearchOnEntryThree` searches for. */
  lemma EntryThree()
    ensures Addresses()[2].name == "Cơ sở 3"
    ensures Addresses()[2].coordinates == Coord(21.0373, 105.7827)
  {
  }
}
