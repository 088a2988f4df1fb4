/** The paddle and ball objects the engine drives. Their implementation
    (game/paddle.py, game/ball.py) is not part of this model: each method
    below states the ASSUMED behaviour the engine relies on, and its body is
    the simplest code meeting it. */
module Entities {
  import opened Geometry

  /** A paddle: x, width and height are fixed at construction, y moves. */
  class Paddle {
    const x: int
    var y: int
    const width: int
    const height: int

    constructor (x: int, y: int, width: int, height: int)
      ensures this.x == x && this.y == y && this.width == width && this.height == height
    {
      this.x, this.y, this.width, this.height := x, y, width, height;
    }

    /** ASSUMED `rect()`: top-left corner (x, y), size width x height. */
    function Rect(): (r: Rect)
      reads this
      ensures r.x == x && r.y == y && r.w == width && r.h == height
    {
      Geometry.Rect(x, y, width, height)
    }

    /** ASSUMED `Paddle.move(dy, h)`: add dy, then clamp y into [0, h - height]. */
    method Move(dy: int, boundsHeight: int)
      modifies this
      ensures y == Clamp(old(y) + dy, 0, boundsHeight - height)
    {
      y := Clamp(y + dy, 0, boundsHeight - height);
    }

    /** ASSUMED `Paddle.auto_track(ball, h)`: the tracking policy is not modelled;
        it is taken to move the paddle by some displacement `delta` (its choice,
        a parameter here) under the same clamping as Move. */
    method AutoTrack(delta: int, boundsHeight: int)
      modifies this
      ensures y == Clamp(old(y) + delta, 0, boundsHeight - height)
    {
      Move(delta, boundsHeight);
    }
  }

  /** The ball: position and velocity change; size and the field size it
      was built with (used by reset) are fixed. */
  class Ball {
    var x: int
    var y: int
    const width: int
    const height: int
    const screenWidth: int
    const screenHeight: int
    var vx: int
    var vy: int

    /** `Ball(x, y, w, h, screen_w, screen_h)`; the initial velocity is chosen
        by the `Ball` constructor in game/ball.py, outside this model, and is a
        parameter here. */
    constructor (x: int, y: int, width: int, height: int,
                 screenWidth: int, screenHeight: int, vx: int, vy: int)
      ensures this.x == x && this.y == y && this.width == width && this.height == height
      ensures this.screenWidth == screenWidth && this.screenHeight == screenHeight
      ensures this.vx == vx && this.vy == vy
    {
      this.x, this.y, this.width, this.height := x, y, width, height;
      this.screenWidth, this.screenHeight := screenWidth, screenHeight;
      this.vx, this.vy := vx, vy;
    }

    /** ASSUMED `rect()`: top-left corner (x, y), size width x height. */
    function Rect(): (r: Rect)
      reads this
      ensures r.x == x && r.y == y && r.w == width && r.h == height
    {
      Geometry.Rect(x, y, width, height)
    }

    /** ASSUMED `Ball.move()`: one step of the velocity. */
    method Move()
      modifies this
      ensures x == old(x) + vx && y == old(y) + vy
      ensures vx == old(vx) && vy == old(vy)
    {
      x, y := x + vx, y + vy;
    }

    /** ASSUMED `Ball.reset()`: back to the field centre (screen_w // 2,
        screen_h // 2), velocity kept. */
    method Reset()
      modifies this
      ensures x == screenWidth / 2 && y == screenHeight / 2
      ensures vx == old(vx) && vy == old(vy)
    {
      x, y := screenWidth / 2, screenHeight / 2;
    }
  }
}
