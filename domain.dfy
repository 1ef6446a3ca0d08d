/** The two records of src/domain/types.ts. */
module Domain {
  import opened Wrappers

  /** A physical sensor the user has placed, shown in the sensor list. */
  datatype PlacedSensor = PlacedSensor(id: string, name: string)

  /** The body-dimension profile; every length is in centimetres. */
  datatype UserDimensions = UserDimensions(
    heightCm: real,
    groundToBeltCm: real,
    beltToHeadCm: real,                        // derived: heightCm - groundToBeltCm
    frontSensorDistanceAtTouch: Option<real>)  // calibration value, may be absent

  /** The profile invariant the setup screen establishes on every save. */
  predicate ConsistentProfile(d: UserDimensions)
  {
    0.0 < d.groundToBeltCm < d.heightCm && d.beltToHeadCm == d.heightCm - d.groundToBeltCm
  }

  /** True when `id` is the id of some entry of `s`. */
  predicate HasId(s: seq<PlacedSensor>, id: string)
  {
    exists i :: 0 <= i < |s| && s[i].id == id
  }

  /** True when no two entries of `s` share an id. */
  predicate UniqueIds(s: seq<PlacedSensor>)
  {
    forall i, j :: 0 <= i < j < |s| ==> s[i].id != s[j].id
  }
}
