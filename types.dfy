// Shared value types of the RView model: colours, points, the enumerations the
// viewer state is built from, and an Option/Result pair for error paths.
module Types {

  datatype Option<T> = None | Some(value: T)

  datatype Result<T, E> = Ok(value: T) | Err(error: E)

  /** An RGBA colour as the drawable buffers store it: 8-bit channels, a real alpha. */
  datatype Color = Color(r: int, g: int, b: int, a: real)

  /** A point or direction in world or image coordinates. */
  datatype Point = Point(x: real, y: real, z: real)
  {
    function Neg(): (q: Point)
      ensures q.x == -x && q.y == -y && q.z == -z
    {
      Point(-x, -y, -z)
    }
  }

  /** How target and source are combined on screen. */
  datatype ViewMode =
    | ViewA | ViewB | VShutter | HShutter | Subtraction | Checkerboard | AoverB | BoverA

  /** The eighteen screen layouts a configuration file can name. */
  datatype ConfigMode =
    | XY | XZ | YZ
    | XY_XZ_v | XY_YZ_v | XZ_YZ_v
    | XY_XZ_h | XY_YZ_h | XZ_YZ_h
    | XY_XZ_YZ
    | AB_XY_v | AB_XZ_v | AB_YZ_v | AB_XY_XZ_v
    | AB_XY_h | AB_XZ_h | AB_YZ_h | AB_XY_XZ_h

  datatype CursorMode = CrossHair | CursorX | CursorV | CursorBar

  datatype ColorMode = Red | Green | Blue | Luminance | Rainbow

  datatype InterpolationMode = NN | Linear | CSpline | BSpline | Sinc

  /** The slice plane one viewer shows. */
  datatype ViewerMode = ViewerXY | ViewerXZ | ViewerYZ

  /** The display convention for the patient's left/right axis. */
  datatype DisplayMode = Native | Neurological | Radiological

  /** The anatomical direction an image axis points to. */
  datatype OrientationCode = L2R | R2L | P2A | A2P | I2S | S2I | Unknown

  datatype ContourMode = FirstPoint | NewPoint | LastPoint

  datatype RegionGrowingMode = RegionGrowing2D | RegionGrowing3D
}
