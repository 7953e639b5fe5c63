/** The weapon record shown in the gun selector. */
module Guns {

  /** A 64-bit floating-point value, kept as its bit pattern: the model does
      no arithmetic on reload times or damage. */
  datatype Double = Double(bits: bv64)

  /** An image handle, identified by the asset it was loaded from. */
  datatype Image = Image(asset: string)

  class Gun {
    var name: string
    var description: string
    var image: Image

    var reloadTime: Double
    /** Rounds left in the magazine. */
    var ammoCount: int
    var magazineSize: int
    var isSemiAuto: bool
    var damagePerShot: Double

    /** Copies every argument into its field and starts with a full magazine. */
    constructor (name: string, description: string, image: Image, reloadTime: Double,
                 magazineSize: int, isSemiAuto: bool, damagePerShot: Double)
      ensures this.name == name && this.description == description
      ensures this.image == image && this.reloadTime == reloadTime
      ensures this.magazineSize == magazineSize && this.isSemiAuto == isSemiAuto
      ensures this.damagePerShot == damagePerShot
      ensures ammoCount == this.magazineSize
    {
      this.name := name;
      this.description := description;
      this.image := image;
      this.reloadTime := reloadTime;
      this.magazineSize := magazineSize;
      this.ammoCount := magazineSize;
      this.isSemiAuto := isSemiAuto;
      this.damagePerShot := damagePerShot;
    }
  }
}
