/**
 * The six cube-map faces and their fixed world-from-eye rotations
 * (math_functions.py, world_eye_matrix_from_face).
 */
module Faces {
  import opened Errors

  /** A cube-map face. The source names faces by strings; here the set is closed. */
  datatype Face = Front | Back | Left | Right | Bottom | Top {

    /** The string the source uses for this face. */
    function Name(): (name: string)
    {
      match this
      case Front => "front"
      case Back => "back"
      case Left => "left"
      case Right => "right"
      case Bottom => "bottom"
      case Top => "top"
    }

    /** The face on the other side of the cube. */
    function Opposite(): (opposite: Face)
    {
      match this
      case Front => Back
      case Back => Front
      case Left => Right
      case Right => Left
      case Bottom => Top
      case Top => Bottom
    }
  }

  /**
   * The world-from-eye matrix of a face, 16 entries in row-major order:
   * a pure rotation, with no translation and bottom row [0, 0, 0, 1].
   */
  function WorldEyeMatrix(face: Face): (m: seq<real>)
    ensures |m| == 16
    ensures m[3] == 0.0 && m[7] == 0.0 && m[11] == 0.0
    ensures m[12..] == [0.0, 0.0, 0.0, 1.0]
  {
    match face
    case Front =>
      [ 1.0, 0.0,  0.0, 0.0,
        0.0, 0.0, -1.0, 0.0,
        0.0, 1.0,  0.0, 0.0,
        0.0, 0.0,  0.0, 1.0]
    case Back =>
      [-1.0, 0.0, 0.0, 0.0,
        0.0, 0.0, 1.0, 0.0,
        0.0, 1.0, 0.0, 0.0,
        0.0, 0.0, 0.0, 1.0]
    case Left =>
      [0.0, 0.0, 1.0, 0.0,
       1.0, 0.0, 0.0, 0.0,
       0.0, 1.0, 0.0, 0.0,
       0.0, 0.0, 0.0, 1.0]
    case Right =>
      [ 0.0, 0.0, -1.0, 0.0,
       -1.0, 0.0,  0.0, 0.0,
        0.0, 1.0,  0.0, 0.0,
        0.0, 0.0,  0.0, 1.0]
    case Bottom =>
      [1.0, 0.0, 0.0, 0.0,
       0.0, 1.0, 0.0, 0.0,
       0.0, 0.0, 1.0, 0.0,
       0.0, 0.0, 0.0, 1.0]
    case Top =>
      [1.0,  0.0,  0.0, 0.0,
       0.0, -1.0,  0.0, 0.0,
       0.0,  0.0, -1.0, 0.0,
       0.0,  0.0,  0.0, 1.0]
  }

  /**
   * The lookup by name: the matrix of the face so named, or ValueError for
   * any other string.
   */
  function WorldEyeMatrixFromName(faceName: string): (r: Result<seq<real>>)
    ensures r.Ok? <==> exists face: Face :: face.Name() == faceName
    ensures forall face: Face :: face.Name() == faceName ==> r == Ok(WorldEyeMatrix(face))
    ensures r.Err? ==> r.error == ValueError("Invalid face_name")
  {
    if faceName == Front.Name() then Ok(WorldEyeMatrix(Front))
    else if faceName == Back.Name() then Ok(WorldEyeMatrix(Back))
    else if faceName == Left.Name() then Ok(WorldEyeMatrix(Left))
    else if faceName == Right.Name() then Ok(WorldEyeMatrix(Right))
    else if faceName == Bottom.Name() then Ok(WorldEyeMatrix(Bottom))
    else if faceName == Top.Name() then Ok(WorldEyeMatrix(Top))
    else Err(ValueError("Invalid face_name"))
  }

  /** The upper-left 3x3 block of a 4x4 row-major matrix, row by row. */
  function Block(m: seq<real>): (b: seq<real>)
    requires |m| == 16
    ensures |b| == 9
  {
    [m[0], m[1], m[2], m[4], m[5], m[6], m[8], m[9], m[10]]
  }

  /** Dot product of rows i and j of a row-major 3x3 block. */
  function RowDot(b: seq<real>, i: nat, j: nat): (dot: real)
    requires |b| == 9 && i < 3 && j < 3
  {
    b[3 * i] * b[3 * j] + b[3 * i + 1] * b[3 * j + 1] + b[3 * i + 2] * b[3 * j + 2]
  }

  /** Determinant of a row-major 3x3 block. */
  function Det3(b: seq<real>): (det: real)
    requires |b| == 9
  {
    b[0] * (b[4] * b[8] - b[5] * b[7])
    - b[1] * (b[3] * b[8] - b[5] * b[6])
    + b[2] * (b[3] * b[7] - b[4] * b[6])
  }

  /** The upper-left 3x3 block is a proper rotation: orthonormal rows, determinant 1. */
  ghost predicate IsProperRotation(m: seq<real>)
    requires |m| == 16
  {
    var b := Block(m);
    RowDot(b, 0, 0) == 1.0 && RowDot(b, 1, 1) == 1.0 && RowDot(b, 2, 2) == 1.0
    && RowDot(b, 0, 1) == 0.0 && RowDot(b, 0, 2) == 0.0 && RowDot(b, 1, 2) == 0.0
    && Det3(b) == 1.0
  }

  /** Every face matrix is a proper rotation, so patching in a translation gives a rigid motion. */
  lemma FaceMatrixIsRotation(face: Face)
    ensures IsProperRotation(WorldEyeMatrix(face))
  {
  }

  /** The world direction the eye's -Z axis is mapped to: where the camera looks. */
  function ViewDirection(face: Face): (v: seq<real>)
    ensures |v| == 3
  {
    var m := WorldEyeMatrix(face);
    [-m[2], -m[6], -m[10]]
  }

  /** Axis-aligned unit vectors of the world frame. */
  predicate IsUnitAxis(v: seq<real>)
  {
    v in {[1.0, 0.0, 0.0], [-1.0, 0.0, 0.0], [0.0, 1.0, 0.0], [0.0, -1.0, 0.0], [0.0, 0.0, 1.0], [0.0, 0.0, -1.0]}
  }

  /** The six cameras look along world axis directions, Front along +Y and Bottom along -Z. */
  lemma ViewDirectionsAreAxes()
    ensures forall face: Face :: IsUnitAxis(ViewDirection(face))
    ensures ViewDirection(Front) == [0.0, 1.0, 0.0] && ViewDirection(Bottom) == [0.0, 0.0, -1.0]
  {
  }

  /** No two faces look in the same direction: with the previous lemma, the six cover the cube. */
  lemma ViewDirectionsDistinct(f: Face, g: Face)
    requires f != g
    ensures ViewDirection(f) != ViewDirection(g)
  {
    var vf, vg := ViewDirection(f), ViewDirection(g);
    assert vf[0] != vg[0] || vf[1] != vg[1] || vf[2] != vg[2];
  }

  /** Opposite faces look in opposite directions. */
  lemma OppositeFacesLookOpposite(face: Face)
    ensures forall i :: 0 <= i < 3 ==> ViewDirection(face.Opposite())[i] == -ViewDirection(face)[i]
  {
  }
}
