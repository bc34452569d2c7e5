/** The two celestial bodies of the viewer. Each owns a texture handle and
    an angle; the only thing either does to its own data is add a delta to
    the angle. Loading the texture is outside the model, so the handle is
    a constructor argument. */
module Bodies {

  class Moon {
    const texture: nat
    var angle: real

    constructor (texture: nat)
      ensures this.texture == texture && angle == 0.0
    {
      this.texture := texture;
      angle := 0.0;
    }

    /** Turns the moon's angle by `delta` degrees. */
    method UpdateAngle(delta: real)
      modifies this
      ensures angle == old(angle) + delta
    {
      angle := angle + delta;
    }
  }

  class Sun {
    const texture: nat
    var angle: real

    constructor (texture: nat)
      ensures this.texture == texture && angle == 0.0
    {
      this.texture := texture;
      angle := 0.0;
    }

    /** Turns the sun's angle by `delta` degrees. */
    method UpdateAngle(delta: real)
      modifies this
      ensures angle == old(angle) + delta
    {
      angle := angle + delta;
    }
  }

  /** Turning a moon by `a` and then by `b` turns it by `a + b`, and touches
      no other object. */
  method MoonUpdatesCompose(moon: Moon, a: real, b: real)
    modifies moon
    ensures moon.angle == old(moon.angle) + (a + b)
  {
    moon.UpdateAngle(a);
    moon.UpdateAngle(b);
  }

  /** Turning a sun by `a` and then by `b` turns it by `a + b`, and touches
      no other object. */
  method SunUpdatesCompose(sun: Sun, a: real, b: real)
    modifies sun
    ensures sun.angle == old(sun.angle) + (a + b)
  {
    sun.UpdateAngle(a);
    sun.UpdateAngle(b);
  }
}
