/** A scene object: where it is, how it is turned and scaled, and the model it draws. */
module Objects {
  import opened Geometry
  import opened Models

  class Object {
    var position: Vec3
    /** Euler angles in degrees; nothing in the program changes them after construction. */
    const rotation: Vec3
    var scale: Vec3
    /** Shared with every other object built from the same model; null means no model. */
    var model: Model?

    /** Stores every argument as given; the scale is not checked here. */
    constructor (position: Vec3, rotation: Vec3, scale: Vec3, model: Model?)
      ensures this.position == position && this.rotation == rotation
      ensures this.scale == scale && this.model == model
    {
      this.position := position;
      this.rotation := rotation;
      this.scale := scale;
      this.model := model;
    }

    method SetModel(model: Model?)
      modifies this
      ensures this.model == model
      ensures position == old(position) && scale == old(scale)
    {
      this.model := model;
    }

    method SetPosition(position: Vec3)
      modifies this
      ensures this.position == position
      ensures scale == old(scale) && model == old(model)
    {
      this.position := position;
    }

    method SetScale(scale: Vec3)
      modifies this
      ensures this.scale == scale
      ensures position == old(position) && model == old(model)
    {
      this.scale := scale;
    }
  }
}
