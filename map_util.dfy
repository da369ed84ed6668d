/**
 * The landing map's building features: each feature object gets a picture
 * assigned in place, by its position in the feature list.
 */
module MapUtil {
  import opened Base

  /** The eight building pictures, in feature order. */
  const Images: seq<string> := ["/img/F-Building.png", "/img/A-Building.jpeg", "/img/I-Building.avif",
                                "/img/M-Building.jpg", "/img/P-Building.png", "/img/F-Building.png",
                                "/img/L-Building.jpg", "/img/H-Building.webp"]

  /** A GeoJSON feature of the building list; only the picture is ever written. */
  class Feature {
    const name: string
    const category: Option<string>
    var imageUrl: Option<string>

    constructor (name: string, category: Option<string>)
      ensures this.name == name && this.category == category && imageUrl == None
    {
      this.name := name;
      this.category := category;
      imageUrl := None;
    }
  }

  /** `images[i] || images[0]`: the picture at the feature's position, the first once they run out. */
  function ImageFor(i: nat): (r: string)
    ensures r in Images
    ensures r != ""
  {
    if i < |Images| then Images[i] else Images[0]
  }

  /** The first eight features get the eight pictures in order; every later one gets the first. */
  lemma ImageForSpec(i: nat)
    ensures i < 8 ==> ImageFor(i) == Images[i]
    ensures i >= 8 ==> ImageFor(i) == "/img/F-Building.png"
  {
  }

  /**
   * `getFeatures`: every feature object of the list gets the picture of
   * its position, and the list returned holds the same objects in the same
   * order. The features are distinct objects, as the parsed list's are.
   */
  method GetFeatures(features: seq<Feature>) returns (result: seq<Feature>)
    requires forall i, j :: 0 <= i < j < |features| ==> features[i] != features[j]
    modifies set i | 0 <= i < |features| :: features[i]
    ensures result == features
    ensures forall i :: 0 <= i < |features| ==> features[i].imageUrl == Some(ImageFor(i))
  {
    var k := 0;
    while k < |features|
      invariant 0 <= k <= |features|
      invariant forall i :: 0 <= i < k ==> features[i].imageUrl == Some(ImageFor(i))
    {
      features[k].imageUrl := Some(ImageFor(k));
      k := k + 1;
    }
    result := features;
  }
}
