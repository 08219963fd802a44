/**
 * The record the price advisor's form builds for one prediction, and what the
 * feature aligner makes of it.
 */
module PricingForm {
  import opened Wrappers
  import opened FeatureAligner

  const NeighbourhoodAttr: string := "neighbourhood_group"
  const RoomTypeAttr: string := "room_type"

  /** The input dictionary of one prediction: two categorical and eight numeric fields. */
  function InputRecord(
    neighbourhood: string, roomType: string,
    latitude: real, longitude: real, minimumNights: real, reviews: real,
    reviewsPerMonth: real, hostListings: real, availability: real, daysSinceReview: real
  ): Record
  {
    [ (NeighbourhoodAttr, Cat(neighbourhood)),
      (RoomTypeAttr, Cat(roomType)),
      ("latitude", Num(latitude)),
      ("longitude", Num(longitude)),
      ("minimum_nights", Num(minimumNights)),
      ("number_of_reviews", Num(reviews)),
      ("reviews_per_month", Num(reviewsPerMonth)),
      ("calculated_host_listings_count", Num(hostListings)),
      ("availability_365", Num(availability)),
      ("days_since_review", Num(daysSinceReview)) ]
  }

  /**
   * Whatever the form's categorical choices are, the encoded frame never has
   * two columns with one label, so alignment always succeeds.
   */
  lemma {:induction false} FormHasNoCollisions(
    neighbourhood: string, roomType: string,
    latitude: real, longitude: real, minimumNights: real, reviews: real,
    reviewsPerMonth: real, hostListings: real, availability: real, daysSinceReview: real,
    features: seq<string>
  )
    ensures NoCollisions(InputRecord(neighbourhood, roomType, latitude, longitude, minimumNights,
                                     reviews, reviewsPerMonth, hostListings, availability, daysSinceReview))
    ensures PreprocessInput(InputRecord(neighbourhood, roomType, latitude, longitude, minimumNights,
                                        reviews, reviewsPerMonth, hostListings, availability, daysSinceReview),
                            features).Ok?
  {
    var r := InputRecord(neighbourhood, roomType, latitude, longitude, minimumNights,
                         reviews, reviewsPerMonth, hostListings, availability, daysSinceReview);
    var n, t := DummyName(NeighbourhoodAttr, neighbourhood), DummyName(RoomTypeAttr, roomType);
    assert n[0] == 'n' && n[1] == 'e';
    assert t[0] == 'r' && t[1] == 'o';
    var cs := Contributions(r);
    assert cs[0].name == n && cs[1].name == t;
  }

  /**
   * A category level the form sends that the feature list has no column for
   * leaves every other indicator column of that attribute at 0; no column is
   * created for it and no error is raised.
   */
  lemma {:induction false} UnseenCategoryIsZero(
    neighbourhood: string, roomType: string,
    latitude: real, longitude: real, minimumNights: real, reviews: real,
    reviewsPerMonth: real, hostListings: real, availability: real, daysSinceReview: real,
    features: seq<string>, i: nat, level: string
  )
    requires i < |features|
    requires || (features[i] == DummyName(NeighbourhoodAttr, level) && level != neighbourhood)
             || (features[i] == DummyName(RoomTypeAttr, level) && level != roomType)
    ensures PreprocessInput(InputRecord(neighbourhood, roomType, latitude, longitude, minimumNights,
                                        reviews, reviewsPerMonth, hostListings, availability, daysSinceReview),
                            features).Ok?
    ensures PreprocessInput(InputRecord(neighbourhood, roomType, latitude, longitude, minimumNights,
                                        reviews, reviewsPerMonth, hostListings, availability, daysSinceReview),
                            features).value[i] == FillValue
  {
    var r := InputRecord(neighbourhood, roomType, latitude, longitude, minimumNights,
                         reviews, reviewsPerMonth, hostListings, availability, daysSinceReview);
    FormHasNoCollisions(neighbourhood, roomType, latitude, longitude, minimumNights,
                        reviews, reviewsPerMonth, hostListings, availability, daysSinceReview, features);
    var f := features[i];
    var n, t := DummyName(NeighbourhoodAttr, neighbourhood), DummyName(RoomTypeAttr, roomType);
    assert n[0] == 'n' && n[1] == 'e';
    assert t[0] == 'r' && t[1] == 'o';
    assert f[1] == 'e' || f[1] == 'o';
    assert f != n by {
      if f == DummyName(NeighbourhoodAttr, level) {
        assert n[|NeighbourhoodAttr| + 1..] == neighbourhood;
        assert f[|NeighbourhoodAttr| + 1..] == level;
      }
    }
    assert f != t by {
      if f == DummyName(RoomTypeAttr, level) {
        assert t[|RoomTypeAttr| + 1..] == roomType;
        assert f[|RoomTypeAttr| + 1..] == level;
      }
    }
    var cs := Contributions(r);
    assert cs[0].name == n && cs[1].name == t;
    assert !Produces(r, f);
    FillZero(r, features, i);
  }

  /** The feature list of the worked example: eight numeric columns, then two indicator blocks. */
  const ExampleFeatures: seq<string> := [
    "latitude", "longitude", "minimum_nights", "number_of_reviews", "reviews_per_month",
    "calculated_host_listings_count", "availability_365", "days_since_review",
    DummyName(NeighbourhoodAttr, "Brooklyn"), DummyName(NeighbourhoodAttr, "Manhattan"),
    DummyName(RoomTypeAttr, "Entire home/apt"), DummyName(RoomTypeAttr, "Private room")]

  /**
   * A Brooklyn listing aligns to its eight numeric values in feature order,
   * then the Brooklyn indicator, then the room-type indicators.
   */
  lemma {:induction false} BrooklynAlignment(
    roomType: string,
    latitude: real, longitude: real, minimumNights: real, reviews: real,
    reviewsPerMonth: real, hostListings: real, availability: real, daysSinceReview: real
  )
    ensures PreprocessInput(InputRecord("Brooklyn", roomType, latitude, longitude, minimumNights,
                                        reviews, reviewsPerMonth, hostListings, availability, daysSinceReview),
                            ExampleFeatures)
            == Ok([latitude, longitude, minimumNights, reviews, reviewsPerMonth, hostListings, availability,
                   daysSinceReview, Indicator, FillValue,
                   if roomType == "Entire home/apt" then Indicator else FillValue,
                   if roomType == "Private room" then Indicator else FillValue])
  {
    var r := InputRecord("Brooklyn", roomType, latitude, longitude, minimumNights,
                         reviews, reviewsPerMonth, hostListings, availability, daysSinceReview);
    FormHasNoCollisions("Brooklyn", roomType, latitude, longitude, minimumNights,
                        reviews, reviewsPerMonth, hostListings, availability, daysSinceReview, ExampleFeatures);
    NumericColumnsOfExample(r);
    BrooklynIndicators(roomType, latitude, longitude, minimumNights,
                       reviews, reviewsPerMonth, hostListings, availability, daysSinceReview);
    var front := [latitude, longitude, minimumNights, reviews, reviewsPerMonth, hostListings, availability,
                  daysSinceReview];
    var back := [Indicator, FillValue,
                 if roomType == "Entire home/apt" then Indicator else FillValue,
                 if roomType == "Private room" then Indicator else FillValue];
    Assemble(PreprocessInput(r, ExampleFeatures), front, back);
    assert PreprocessInput(r, ExampleFeatures) == Ok(front + back);
    assert front + back == [latitude, longitude, minimumNights, reviews, reviewsPerMonth, hostListings, availability,
                   daysSinceReview, Indicator, FillValue,
                   if roomType == "Entire home/apt" then Indicator else FillValue,
                   if roomType == "Private room" then Indicator else FillValue];
  }

  lemma {:induction false} BrooklynIndicators(
    roomType: string,
    latitude: real, longitude: real, minimumNights: real, reviews: real,
    reviewsPerMonth: real, hostListings: real, availability: real, daysSinceReview: real
  )
    ensures PreprocessInput(InputRecord("Brooklyn", roomType, latitude, longitude, minimumNights,
                                        reviews, reviewsPerMonth, hostListings, availability, daysSinceReview),
                            ExampleFeatures).Ok?
    ensures PreprocessInput(InputRecord("Brooklyn", roomType, latitude, longitude, minimumNights,
                                        reviews, reviewsPerMonth, hostListings, availability, daysSinceReview),
                            ExampleFeatures).value[8..]
            == [Indicator, FillValue, if roomType == "Entire home/apt" then Indicator else FillValue,
                   if roomType == "Private room" then Indicator else FillValue]
  {
    var r := InputRecord("Brooklyn", roomType, latitude, longitude, minimumNights,
                         reviews, reviewsPerMonth, hostListings, availability, daysSinceReview);
    FormHasNoCollisions("Brooklyn", roomType, latitude, longitude, minimumNights,
                        reviews, reviewsPerMonth, hostListings, availability, daysSinceReview, ExampleFeatures);
    CategoryLands(r, ExampleFeatures, 0, 8);
    UnseenCategoryIsZero("Brooklyn", roomType, latitude, longitude, minimumNights,
                         reviews, reviewsPerMonth, hostListings, availability, daysSinceReview,
                         ExampleFeatures, 9, "Manhattan");
    if roomType == "Entire home/apt" {
      CategoryLands(r, ExampleFeatures, 1, 10);
    } else {
      UnseenCategoryIsZero("Brooklyn", roomType, latitude, longitude, minimumNights,
                           reviews, reviewsPerMonth, hostListings, availability, daysSinceReview,
                           ExampleFeatures, 10, "Entire home/apt");
    }
    if roomType == "Private room" {
      CategoryLands(r, ExampleFeatures, 1, 11);
    } else {
      UnseenCategoryIsZero("Brooklyn", roomType, latitude, longitude, minimumNights,
                           reviews, reviewsPerMonth, hostListings, availability, daysSinceReview,
                           ExampleFeatures, 11, "Private room");
    }
    var v := PreprocessInput(r, ExampleFeatures).value;
    assert v[8..] == [v[8], v[9], v[10], v[11]];
  }

  lemma {:induction false} Assemble(out: Result<seq<real>, AlignError>, front: seq<real>, back: seq<real>)
    requires out.Ok? && |out.value| == |front| + |back|
    requires out.value[..|front|] == front && out.value[|front|..] == back
    ensures out == Ok(front + back)
  {
    assert out.value == out.value[..|front|] + out.value[|front|..];
  }

  /** The worked example: a Brooklyn entire home. */
  lemma {:induction false} BrooklynExample()
    ensures PreprocessInput(InputRecord("Brooklyn", "Entire home/apt", 40.71, -73.98, 2.0, 10.0, 1.5, 1.0, 150.0, 14.0),
                            ExampleFeatures)
            == Ok([40.71, -73.98, 2.0, 10.0, 1.5, 1.0, 150.0, 14.0, 1.0, 0.0, 1.0, 0.0])
  {
    BrooklynAlignment("Entire home/apt", 40.71, -73.98, 2.0, 10.0, 1.5, 1.0, 150.0, 14.0);
  }

  /** A shared room has no column of its own: both room-type indicators are 0. */
  lemma {:induction false} SharedRoomExample()
    ensures PreprocessInput(InputRecord("Brooklyn", "Shared room", 40.71, -73.98, 2.0, 10.0, 1.5, 1.0, 150.0, 14.0),
                            ExampleFeatures)
            == Ok([40.71, -73.98, 2.0, 10.0, 1.5, 1.0, 150.0, 14.0, 1.0, 0.0, 0.0, 0.0])
  {
    BrooklynAlignment("Shared room", 40.71, -73.98, 2.0, 10.0, 1.5, 1.0, 150.0, 14.0);
  }

  /** The eight numeric fields of the form fill the first eight example columns, in order. */
  lemma {:induction false} NumericColumnsOfExample(r: Record)
    requires |r| == 10 && NoCollisions(r)
    requires forall k :: 2 <= k < 10 ==> r[k].0 == ExampleFeatures[k - 2] && r[k].1.Num?
    ensures PreprocessInput(r, ExampleFeatures).Ok?
    ensures PreprocessInput(r, ExampleFeatures).value[..8]
            == [r[2].1.x, r[3].1.x, r[4].1.x, r[5].1.x, r[6].1.x, r[7].1.x, r[8].1.x, r[9].1.x]
  {
    forall i | 0 <= i < 8 ensures PreprocessInput(r, ExampleFeatures).value[i] == r[i + 2].1.x {
      NumericLands(r, ExampleFeatures, i + 2, i);
    }
  }
}
