/** The records the engine and the renderer share. */
module Types {
  import opened Base

  datatype Kind = Cactus | Bird

  /** An obstacle in world coordinates; only birds carry a vertical speed. */
  datatype Obstacle = Obstacle(id: int, x: real, w: real, h: real, kind: Kind, y: real, vy: Option<real>)

  /** An axis-aligned box, the argument shape of the overlap test. */
  datatype Rect = Rect(x: real, y: real, w: real, h: real)

  /** The overlap test of the engine's utility module, whose body is not part
      of this model. */
  type Overlap = (Rect, Rect) -> bool

  /** One value of the seeded random stream: a number in [0, 1). */
  type Draw = r: real | 0.0 <= r < 1.0

  /** The seeded random stream: the value of its n-th call. */
  type Stream = nat -> Draw

  function BoxOf(ob: Obstacle): Rect {
    Rect(ob.x, ob.y, ob.w, ob.h)
  }

  datatype BgLayer = BgLayer(
    src: string, speed: Option<real>, topY: Option<real>, height: Option<real>,
    srcY: Option<real>, srcH: Option<real>, scale: Option<real>)

  datatype ImgGround = ImgGround(
    src: string, topY: Option<real>, height: Option<real>, srcY: Option<real>, srcH: Option<real>)

  datatype ImgWH = ImgWH(src: string, w: Option<real>, h: Option<real>)

  datatype ImgPlayer = ImgPlayer(
    src: string, w: Option<real>, h: Option<real>, frames: Option<real>, fps: Option<real>,
    rows: Option<real>, duckScale: Option<real>)

  datatype Colors = Colors(
    sky: string, mountain: string, groundTop: string, groundStripe: string,
    dinoBody: string, dinoShadow: string, cactus: string, bird: string, hud: string)

  datatype Images = Images(
    backgroundLayers: Option<seq<BgLayer>>, ground: Option<ImgGround>, cactus: Option<ImgWH>,
    bird: Option<ImgWH>, player: Option<ImgPlayer>, billboardFrame: Option<ImgWH>)

  datatype Theme = Theme(pixelArt: bool, colors: Colors, images: Images)
}
